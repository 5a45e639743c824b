/**
 When an eSIM request ends, and how: the record's final event and status read off
 the bridge messages it received.
 */
module EsimHistory {
  import opened Options
  import opened EsimRecord

  /** The message carries one of the three results that mean failure. */
  predicate Failed(m: Message) {
    && m.payload.Some?
    && (|| m.payload.value.result == Some("error")
        || m.payload.value.result == Some("protected")
        || m.payload.value.result == Some("disallowed_profile"))
  }

  /**
   The message ends a request for `action`.  Downloading, verifying and enabling
   a profile ends when the profile is enabled, when the bridge reports an error
   without saying which operation it was, or when the download fails; any other
   request ends with the first result of any kind.
   */
  predicate EndsRequest(action: string, m: Message) {
    if action == "humane.connectivity.esimlpa.downloadVerifyAndEnableProfile" then
      || (&& m.kind == "esim.profile_mutation_result" && m.payload.Some?
          && (|| m.payload.value.operation == Some("enable")
              || (m.payload.value.operation == Some("unknown") && m.payload.value.result == Some("error"))))
      || (m.kind == "esim.download_result" && Failed(m))
    else
      || m.kind == "esim.profiles_result"
      || m.kind == "esim.active_profile_result"
      || m.kind == "esim.active_iccid_result"
      || m.kind == "esim.device_identifiers_result"
      || m.kind == "esim.profile_mutation_result"
      || m.kind == "esim.download_result"
  }

  predicate Accepts(m: Message) {
    m.kind == "esim.request_accepted"
  }

  predicate Breaks(m: Message) {
    m.kind == "esim.bridge_error"
  }

  /** The `i`-th message ended the request: no message before it did, and the bridge had reported no error. */
  predicate EndedAt(action: string, h: History, i: nat)
    requires i < |h|
  {
    EndsRequest(action, h[i].0) && forall j | 0 <= j < i :: !EndsRequest(action, h[j].0) && !Breaks(h[j].0)
  }

  predicate SetsStatus(action: string, h: History, i: nat)
    requires i < |h|
  {
    Accepts(h[i].0) || Breaks(h[i].0) || EndedAt(action, h, i)
  }

  lemma EndsIsDecides(action: string, m: Message)
    ensures EndsRequest(action, m) <==> Decides(action, m)
    ensures Accepts(m) <==> IsAccept(m)
    ensures Breaks(m) <==> IsBridgeError(m)
    ensures !(Accepts(m) && Breaks(m)) && !(EndsRequest(action, m) && (Accepts(m) || Breaks(m)))
    ensures Failed(m) <==> ResultOf(m).Some? && ResultIsError(ResultOf(m).value)
  {
  }

  function StatusSetBy(m: Message): string {
    if Accepts(m) then "accepted" else if Breaks(m) || Failed(m) then "error" else "completed"
  }

  /** One message, by what it is. */
  lemma ReceiveDoes(r: Record, m: Message, now: nat)
    ensures
      var r', ends := Receive(r, m, now), EndsRequest(r.action, m) && r.final.None?;
      && r'.final == (if Breaks(m) || ends then Some(m) else r.final)
      && r'.status == (if Accepts(m) || Breaks(m) || ends then StatusSetBy(m)
                       else if r.status == "pending" then "running" else r.status)
      && r'.action == r.action
  {
    EndsIsDecides(r.action, m);
  }

  lemma {:induction false} ActionStays(r: Record, h: History)
    ensures Replay(r, h).action == r.action
    decreases h
  {
    if h != [] {
      ActionStays(Receive(r, h[0].0, h[0].1), h[1..]);
    }
  }

  // ---------------------------------------------------------------------------
  // The final event
  // ---------------------------------------------------------------------------

  /** Some message ended the request or reported a bridge error. */
  predicate HasEnd(action: string, h: History) {
    exists i | 0 <= i < |h| :: EndsRequest(action, h[i].0) || Breaks(h[i].0)
  }

  predicate HasBreak(h: History) {
    exists i | 0 <= i < |h| :: Breaks(h[i].0)
  }

  lemma EndSnoc(action: string, front: History, m: Message, now: nat)
    ensures
      var h := front + [(m, now)];
      && (HasEnd(action, h) <==> HasEnd(action, front) || EndsRequest(action, m) || Breaks(m))
      && (EndedAt(action, h, |front|) <==> EndsRequest(action, m) && !HasEnd(action, front))
  {
    var h := front + [(m, now)];
    assert h[|front|] == (m, now);
    assert forall i | 0 <= i < |front| :: h[i] == front[i];
  }

  lemma BreakSnoc(front: History, m: Message, now: nat)
    ensures HasBreak(front + [(m, now)]) <==> HasBreak(front) || Breaks(m)
  {
    var h := front + [(m, now)];
    assert h[|front|] == (m, now);
    assert forall i | 0 <= i < |front| :: h[i] == front[i];
  }

  lemma EndedAtPrefix(action: string, front: History, x: (Message, nat), i: nat)
    requires i < |front|
    ensures EndedAt(action, front + [x], i) == EndedAt(action, front, i)
  {
    assert forall j | 0 <= j <= i :: (front + [x])[j] == front[j];
  }

  lemma {:induction false} HasFinal(action: string, created: nat, h: History)
    ensures Replay(Created(action, created), h).final.Some? <==> HasEnd(action, h)
    decreases |h|
  {
    if h != [] {
      var front, m, now := h[..|h| - 1], h[|h| - 1].0, h[|h| - 1].1;
      assert h == front + [(m, now)];
      HasFinal(action, created, front);
      ReplayAppend(Created(action, created), front, m, now);
      ActionStays(Created(action, created), front);
      ReceiveDoes(Replay(Created(action, created), front), m, now);
      EndSnoc(action, front, m, now);
    }
  }

  /**
   In every history the record has a final event exactly when some message ended
   the request or reported a bridge error.  It is the last bridge error if there
   was one, and otherwise the message that ended the request.
   */
  lemma {:induction false} FinalFromHistory(action: string, created: nat, h: History, i: nat)
    requires i < |h|
    ensures
      var final := Replay(Created(action, created), h).final;
      && (final.Some? <==> HasEnd(action, h))
      && (Breaks(h[i].0) && (forall j | i < j < |h| :: !Breaks(h[j].0)) ==> final == Some(h[i].0))
      && (!HasBreak(h) && EndedAt(action, h, i) ==> final == Some(h[i].0))
    decreases |h|
  {
    var front, m, now := h[..|h| - 1], h[|h| - 1].0, h[|h| - 1].1;
    assert h == front + [(m, now)];
    HasFinal(action, created, h);
    HasFinal(action, created, front);
    ReplayAppend(Created(action, created), front, m, now);
    ActionStays(Created(action, created), front);
    ReceiveDoes(Replay(Created(action, created), front), m, now);
    BreakSnoc(front, m, now);
    if i < |front| {
      FinalFromHistory(action, created, front, i);
      EndedAtPrefix(action, front, (m, now), i);
    } else {
      EndSnoc(action, front, m, now);
    }
  }

  // ---------------------------------------------------------------------------
  // The status
  // ---------------------------------------------------------------------------

  /** The last message that concerned the status: an acceptance, a bridge error, or the end of the request. */
  function LastSetter(action: string, h: History): Option<Message> {
    if h == [] then None
    else if SetsStatus(action, h, |h| - 1) then Some(h[|h| - 1].0)
    else LastSetter(action, h[..|h| - 1])
  }

  /**
   In every history the status is what the last message that concerned it said;
   a request that has received other messages only is running.
   */
  lemma {:induction false} StatusFromHistory(action: string, created: nat, h: History)
    ensures
      var status, last := Replay(Created(action, created), h).status, LastSetter(action, h);
      status == if last.Some? then StatusSetBy(last.value) else if h == [] then "pending" else "running"
    decreases |h|
  {
    if h != [] {
      var front, m, now := h[..|h| - 1], h[|h| - 1].0, h[|h| - 1].1;
      assert h == front + [(m, now)];
      StatusFromHistory(action, created, front);
      HasFinal(action, created, front);
      ReplayAppend(Created(action, created), front, m, now);
      ActionStays(Created(action, created), front);
      ReceiveDoes(Replay(Created(action, created), front), m, now);
      EndSnoc(action, front, m, now);
    }
  }

  /** Without acceptances and bridge errors a request has completed or failed exactly when a message ended it. */
  lemma EndedIff(action: string, created: nat, h: History)
    requires forall i | 0 <= i < |h| :: !Accepts(h[i].0) && !Breaks(h[i].0)
    ensures
      var r := Replay(Created(action, created), h);
      && (r.final.Some? <==> exists i | 0 <= i < |h| :: EndsRequest(action, h[i].0))
      && (forall i | 0 <= i < |h| && EndedAt(action, h, i) ::
            r.final == Some(h[i].0) && r.status == if Failed(h[i].0) then "error" else "completed")
      && (r.final.None? ==> r.status == if h == [] then "pending" else "running")
  {
    HasFinal(action, created, h);
    StatusFromHistory(action, created, h);
    SetterWithoutBreaks(action, h);
    forall i | 0 <= i < |h| && EndedAt(action, h, i)
      ensures Replay(Created(action, created), h).final == Some(h[i].0)
      ensures LastSetter(action, h) == Some(h[i].0)
    {
      FinalFromHistory(action, created, h, i);
      SetterIs(action, h, i);
    }
  }

  lemma {:induction false} SetterWithoutBreaks(action: string, h: History)
    requires forall i | 0 <= i < |h| :: !Accepts(h[i].0) && !Breaks(h[i].0)
    ensures LastSetter(action, h).Some? <==> HasEnd(action, h)
    decreases |h|
  {
    if h != [] {
      var front, x := h[..|h| - 1], h[|h| - 1];
      assert h == front + [x];
      SetterWithoutBreaks(action, front);
      EndSnoc(action, front, x.0, x.1);
    }
  }

  lemma {:induction false} SetterIs(action: string, h: History, i: nat)
    requires forall i | 0 <= i < |h| :: !Accepts(h[i].0) && !Breaks(h[i].0)
    requires i < |h| && EndedAt(action, h, i)
    ensures LastSetter(action, h) == Some(h[i].0)
    decreases |h|
  {
    var front, x := h[..|h| - 1], h[|h| - 1];
    assert h == front + [x];
    if i < |front| {
      EndedAtPrefix(action, front, x, i);
      SetterIs(action, front, i);
    }
  }
}
