/**
 When a coalesced follower can still get an answer, and when it is stuck.

 Dropping the future of a leader leaves its sender in the in-flight map.  A
 follower of that channel is stuck exactly when nobody is left who will publish
 for the key; only `clear()` helps it then.
 */
module DedupStranding {
  import opened Options
  import opened DedupTable
  import opened DedupProtocol
  import opened DedupExclusion

  /** A request for `k` that runs the handler, or will run it once it is scheduled. */
  predicate Rescues(s: System, q: nat, k: Key) {
    && q in s.requests && s.requests[q].key == k
    && (|| IsLeader(s, q)
        || s.requests[q].phase.Orphan?
        || (s.requests[q].phase.Waiting? &&
            Reception(s.table, s.requests[q].phase.chan, s.requests[q].phase.from) == Some(Orphan)))
  }

  ghost predicate HasRescuer(s: System, k: Key) {
    exists q :: q in s.requests && Rescues(s, q, k)
  }

  ghost predicate Stranded(s: System, r: nat) {
    && r in s.requests && s.requests[r].phase.Waiting?
    && Reception(s.table, s.requests[r].phase.chan, s.requests[r].phase.from).None?
    && !HasRescuer(s, s.requests[r].key)
  }

  /** Some schedule without `clear()` and without dropping a leader answers `r`. */
  ghost predicate CanFinish(s: System, r: nat) {
    exists acts :: Answers(s, acts, r)
  }

  ghost predicate Answers(s: System, acts: seq<Action>, r: nat) {
    var end := Run(Quiet, s, acts);
    end.Some? && r in end.value.requests && end.value.requests[r].phase.Finished?
  }

  // ---------------------------------------------------------------------------
  // Stuck means stuck
  // ---------------------------------------------------------------------------

  /** A follower with nothing to receive waits on its own key's open channel. */
  lemma WaitsOnOpenChannel(s: System, r: nat)
    requires Inv(s) && r in s.requests && s.requests[r].phase.Waiting?
    requires Reception(s.table, s.requests[r].phase.chan, s.requests[r].phase.from).None?
    ensures s.requests[r].key in s.table.inflight
    ensures s.table.inflight[s.requests[r].key] == s.requests[r].phase.chan
  {
    assert RequestOk(s, r);
    var c := s.requests[r].phase.chan;
    var k :| k in s.table.inflight && s.table.inflight[k] == c;
  }

  /** The key's sender stays in the map and nobody who could publish appears. */
  ghost predicate Wedged(s: System, k: Key) {
    k in s.table.inflight && !HasRescuer(s, k)
  }

  lemma WedgedStep(s: System, a: Action, k: Key)
    requires Inv(s) && Wedged(s, k) && Step(NoClears, s, a).Some?
    ensures Wedged(Next(s, a).value, k)
    ensures Next(s, a).value.table.inflight[k] == s.table.inflight[k]
    ensures var c := s.table.inflight[k];
            c in s.table.log && c in Next(s, a).value.table.log && Next(s, a).value.table.log[c] == s.table.log[c]
  {
    if a.Complete? {
      PublisherIsElsewhere(s, a.r, k);
      OtherChannel(s, s.requests[a.r].key, k);
    }
    SenderStays(s, a, k);
    MessagesStay(s, a, s.table.inflight[k]);
    forall q | q in Next(s, a).value.requests ensures !Rescues(Next(s, a).value, q, k) {
      NoRescuerAppears(s, a, k, q);
    }
  }

  /** Nobody publishes for a wedged key. */
  lemma PublisherIsElsewhere(s: System, r: nat, k: Key)
    requires Wedged(s, k) && IsLeader(s, r)
    ensures s.requests[r].key != k
  {
    assert !Rescues(s, r, k);
  }

  lemma OtherChannel(s: System, j: Key, k: Key)
    requires Inv(s) && j != k && k in s.table.inflight
    ensures j in s.table.inflight ==> s.table.inflight[j] != s.table.inflight[k]
  {
  }

  lemma NoRescuerAppears(s: System, a: Action, k: Key, q: nat)
    requires Inv(s) && Wedged(s, k) && Step(NoClears, s, a).Some?
    ensures !Rescues(Next(s, a).value, q, k)
  {
    if q in s.requests {
      assert !Rescues(s, q, k);
      if s.requests[q].key == k && s.requests[q].phase.Waiting? {
        WaiterDoesNotRescue(s, a, k, q);
      } else {
        IdleDoesNotRescue(s, a, k, q);
      }
    } else {
      NewcomerDoesNotRescue(s, a, k, q);
    }
  }

  lemma WaiterDoesNotRescue(s: System, a: Action, k: Key, q: nat)
    requires Inv(s) && Wedged(s, k) && Step(NoClears, s, a).Some?
    requires q in s.requests && s.requests[q].key == k && s.requests[q].phase.Waiting? && !Rescues(s, q, k)
    ensures !Rescues(Next(s, a).value, q, k)
  {
    assert RequestOk(s, q);
    var w := s.requests[q].phase;
    if Reception(s.table, w.chan, w.from).None? {
      WaitsOnOpenChannel(s, q);
    }
    StillNotOrphaned(s, a, k, w.chan, w.from);
    WaiterStep(s, a, q);
    QuietDoesNotRescue(Next(s, a).value, q, k);
  }

  lemma QuietDoesNotRescue(s: System, q: nat, k: Key)
    requires q in s.requests
    requires var p := s.requests[q].phase;
             p.Dropped? || p.Finished? || (p.Waiting? && Reception(s.table, p.chan, p.from) != Some(Orphan))
    ensures !Rescues(s, q, k)
  {
  }

  /** A waiter keeps waiting, receives what its channel gives, or is dropped. */
  lemma WaiterStep(s: System, a: Action, q: nat)
    requires q in s.requests && s.requests[q].phase.Waiting? && Next(s, a).Some?
    ensures
      var s', w := Next(s, a).value, s.requests[q].phase;
      q in s'.requests &&
      (|| s'.requests[q] == s.requests[q]
       || s'.requests[q].phase.Dropped?
       || Reception(s.table, w.chan, w.from) == Some(s'.requests[q].phase))
  {
  }

  lemma IdleDoesNotRescue(s: System, a: Action, k: Key, q: nat)
    requires Next(s, a).Some? && q in s.requests && !Rescues(s, q, k)
    requires !(s.requests[q].key == k && s.requests[q].phase.Waiting?)
    ensures !Rescues(Next(s, a).value, q, k)
  {
  }

  lemma ArrivesAs(s: System, a: Action, r: nat)
    requires r !in s.requests && Next(s, a).Some? && r in Next(s, a).value.requests
    ensures a.Arrive? && a.r == r && a.key == Next(s, a).value.requests[r].key
  {
  }

  lemma NewcomerDoesNotRescue(s: System, a: Action, k: Key, q: nat)
    requires ChannelsOk(s) && InflightOk(s) && k in s.table.inflight && Next(s, a).Some? && q !in s.requests
    ensures !Rescues(Next(s, a).value, q, k)
  {
    var s' := Next(s, a).value;
    if q in s'.requests && s'.requests[q].key == k {
      ArrivesAs(s, a, q);
      ArriveIs(s, q, k);
      JoinerDoesNotRescue(s, s', q, k);
    }
  }

  lemma JoinerDoesNotRescue(s: System, s': System, q: nat, k: Key)
    requires ChannelsOk(s) && InflightOk(s) && k in s.table.inflight && q in s'.requests
    requires || s'.requests[q].phase.Finished?
             || (s'.requests[q].phase == Waiting(s.table.inflight[k], 0)
                 && s'.table.inflight == s.table.inflight && s'.table.log == s.table.log)
    ensures !Rescues(s', q, k)
  {
    if s'.requests[q].phase.Waiting? {
      assert k in s'.table.inflight;
    }
    QuietDoesNotRescue(s', q, k);
  }

  /** A channel of a wedged key never closes empty. */
  lemma StillNotOrphaned(s: System, a: Action, k: Key, c: nat, from: nat)
    requires Inv(s) && Wedged(s, k) && Step(NoClears, s, a).Some?
    requires from == 0 && c < s.table.next
    requires Reception(s.table, c, from) != Some(Orphan)
    requires Reception(s.table, c, from).None? ==> s.table.inflight[k] == c
    ensures Reception(Next(s, a).value.table, c, from) != Some(Orphan)
  {
    if a.Complete? {
      PublisherIsElsewhere(s, a.r, k);
      OtherChannel(s, s.requests[a.r].key, k);
    }
    SenderStays(s, a, k);
    MessagesStay(s, a, c);
  }

  lemma StrandedStep(s: System, a: Action, r: nat)
    requires Inv(s) && Stranded(s, r) && Step(NoClears, s, a).Some?
    ensures Stranded(Next(s, a).value, r) || Next(s, a).value.requests[r].phase.Dropped?
  {
    WaitsOnOpenChannel(s, r);
    var k := s.requests[r].key;
    assert RequestOk(s, r);
    WedgedStep(s, a, k);
    WaiterStep(s, a, r);
    KeysStay(s, a, r);
    var s' := Next(s, a).value;
    assert s'.table.inflight[k] == s.requests[r].phase.chan;
    assert IsOpen(s'.table, s.requests[r].phase.chan);
  }

  ghost predicate NeverAnswered(s: System, r: nat) {
    r in s.requests && (Stranded(s, r) || s.requests[r].phase.Dropped?)
  }

  lemma NeverAnsweredStep(s: System, a: Action, r: nat)
    requires Inv(s) && NeverAnswered(s, r) && Step(NoClears, s, a).Some?
    ensures NeverAnswered(Next(s, a).value, r)
  {
    if Stranded(s, r) {
      StrandedStep(s, a, r);
    }
  }

  /** Without `clear()` a stranded follower stays stranded until its client gives up. */
  lemma {:induction false} StrandedForever(s: System, acts: seq<Action>, r: nat)
    requires Inv(s) && NeverAnswered(s, r)
    requires Run(NoClears, s, acts).Some?
    ensures NeverAnswered(Run(NoClears, s, acts).value, r)
    decreases acts
  {
    if acts != [] {
      NeverAnsweredStep(s, acts[0], r);
      InvStep(s, acts[0]);
      StrandedForever(Next(s, acts[0]).value, acts[1..], r);
    }
  }

  lemma {:induction false} QuietIsNoClears(s: System, acts: seq<Action>)
    requires Run(Quiet, s, acts).Some?
    ensures Run(NoClears, s, acts) == Run(Quiet, s, acts)
    decreases acts
  {
    if acts != [] {
      QuietIsNoClears(Next(s, acts[0]).value, acts[1..]);
    }
  }

  // ---------------------------------------------------------------------------
  // Not stuck means some schedule answers
  // ---------------------------------------------------------------------------

  const AnyContent := Content(200, [], [], None)

  lemma RunOne(s: System, a: Action)
    ensures Run(Quiet, s, [a]) == Step(Quiet, s, a)
  {
    if Step(Quiet, s, a).Some? {
      assert Run(Quiet, Next(s, a).value, [a][1..]) == Next(s, a);
    }
  }

  /** `s'` differs from `s` only in the phase of `q` and, if `k` is in flight, not in the table. */
  ghost predicate OnlyMoved(s: System, s': System, q: nat, k: Key) {
    && (forall r | r in s.requests && r != q :: r in s'.requests && s'.requests[r] == s.requests[r])
    && (k in s.table.inflight ==> s'.table == s.table)
    && IsLeader(s', q) && s'.requests[q].key == k
  }

  lemma RescuerLeads(s: System, q: nat, k: Key) returns (acts: seq<Action>)
    requires Inv(s) && Rescues(s, q, k)
    ensures Run(Quiet, s, acts).Some? && OnlyMoved(s, Run(Quiet, s, acts).value, q, k)
  {
    if IsLeader(s, q) {
      acts := [];
    } else if s.requests[q].phase.Orphan? {
      acts := [Retake(q)];
      RunOne(s, Retake(q));
    } else {
      RunOne(s, Receive(q));
      var m := Next(s, Receive(q)).value;
      RunOne(m, Retake(q));
      acts := [Receive(q)] + [Retake(q)];
      RunConcat(Quiet, s, [Receive(q)], [Retake(q)]);
    }
  }

  /** The rest of a leader's program, from whichever await point it has reached. */
  function Remaining(s: System, q: nat): seq<Action>
    requires IsLeader(s, q)
  {
    match s.requests[q].phase
    case Leading => [Dispatch(q), Collect(q, AnyContent), Complete(q)]
    case Running(_) => [Collect(q, AnyContent), Complete(q)]
    case _ => [Complete(q)]
  }

  lemma {:induction false} LeaderPublishes(s: System, q: nat)
    requires Inv(s) && IsLeader(s, q)
    ensures Run(Quiet, s, Remaining(s, q)).Some?
    ensures
      var s' := Run(Quiet, s, Remaining(s, q)).value;
      && q in s'.requests && s'.requests[q].phase.Finished?
      && s'.table == Publish(s.table, s.requests[q].key, s'.requests[q].phase.entry)
      && (forall r | r in s.requests && r != q :: r in s'.requests && s'.requests[r] == s.requests[r])
    decreases |Remaining(s, q)|
  {
    var acts := Remaining(s, q);
    var m := Next(s, acts[0]).value;
    if s.requests[q].phase.Collected? {
      RunOne(s, Complete(q));
    } else {
      InvStep(s, acts[0]);
      assert acts[1..] == Remaining(m, q);
      LeaderPublishes(m, q);
    }
  }

  /** A follower whose channel has failed becomes a leader and answers itself. */
  lemma RescuesItself(s: System, r: nat)
    requires Inv(s) && r in s.requests && Rescues(s, r, s.requests[r].key)
    ensures CanFinish(s, r)
  {
    var lead := RescuerLeads(s, r, s.requests[r].key);
    var m := Run(Quiet, s, lead).value;
    InvRun(Quiet, s, lead);
    LeaderPublishes(m, r);
    RunConcat(Quiet, s, lead, Remaining(m, r));
    assert Answers(s, lead + Remaining(m, r), r);
  }

  /** The leader of an open channel finishes, and its message answers a follower of the channel. */
  lemma LeaderAnswers(s: System, r: nat, q: nat)
    requires Inv(s) && r in s.requests && s.requests[r].phase.Waiting? && q != r
    requires LeadsOn(s, q, s.requests[r].key) && s.requests[r].key in s.table.inflight
    requires s.table.inflight[s.requests[r].key] == s.requests[r].phase.chan
    ensures Answers(s, Remaining(s, q) + [Receive(r)], r)
  {
    LeaderPublishes(s, q);
    assert RequestOk(s, r);
    var e := Run(Quiet, s, Remaining(s, q)).value;
    var c := s.requests[r].phase.chan;
    assert s.table.log[c] == [];
    assert e.table.log[c] == [e.requests[q].phase.entry];
    RunOne(e, Receive(r));
    RunConcat(Quiet, s, Remaining(s, q), [Receive(r)]);
  }

  /** A waiting follower is answered by whoever publishes on its open channel. */
  lemma RescuedByAnother(s: System, r: nat, q: nat)
    requires Inv(s) && r in s.requests && s.requests[r].phase.Waiting? && q != r
    requires Reception(s.table, s.requests[r].phase.chan, s.requests[r].phase.from).None?
    requires Rescues(s, q, s.requests[r].key)
    ensures CanFinish(s, r)
  {
    WaitsOnOpenChannel(s, r);
    var lead := RescuerLeads(s, q, s.requests[r].key);
    var m := Run(Quiet, s, lead).value;
    InvRun(Quiet, s, lead);
    LeaderAnswers(m, r, q);
    RunConcat(Quiet, s, lead, Remaining(m, q) + [Receive(r)]);
    assert Answers(s, lead + (Remaining(m, q) + [Receive(r)]), r);
  }

  /**
   In every state, a follower that is still waiting can be answered without a
   `clear()` exactly when it is not stranded.
   */
  lemma AnswerableIffNotStranded(s: System, r: nat)
    requires Inv(s) && r in s.requests && s.requests[r].phase.Waiting?
    ensures CanFinish(s, r) <==> !Stranded(s, r)
  {
    var w := s.requests[r].phase;
    if Stranded(s, r) {
      forall acts | Answers(s, acts, r) ensures false {
        QuietIsNoClears(s, acts);
        StrandedForever(s, acts, r);
      }
    } else if Reception(s.table, w.chan, w.from) == Some(Orphan) {
      RescuesItself(s, r);
    } else if Reception(s.table, w.chan, w.from).Some? {
      RunOne(s, Receive(r));
      assert Answers(s, [Receive(r)], r);
    } else {
      var q :| q in s.requests && Rescues(s, q, s.requests[r].key);
      RescuedByAnother(s, r, q);
    }
  }

  /** As long as no leader is dropped, with or without `clear()`, nobody is stranded. */
  lemma NobodyStrandedWithoutDrops(ttls: map<string, nat>, acts: seq<Action>, r: nat)
    requires Run(Clearing, Init(ttls), acts).Some?
    ensures !Stranded(Run(Clearing, Init(ttls), acts).value, r)
  {
    InvRun(Clearing, Init(ttls), acts);
    SendersLiveRun(Init(ttls), acts);
    var s := Run(Clearing, Init(ttls), acts).value;
    if Stranded(s, r) {
      WaitsOnOpenChannel(s, r);
      var k := s.requests[r].key;
      assert LeadsOn(s, OwnerOf(s, k).value, k);
      assert Rescues(s, OwnerOf(s, k).value, k);
    }
  }

  /** `clear()` frees every stranded follower: its channel closes and it leads itself. */
  lemma ClearFrees(s: System, r: nat)
    requires Inv(s) && Stranded(s, r)
    ensures CanFinish(Next(s, ClearTable).value, r)
  {
    var s' := Next(s, ClearTable).value;
    InvStep(s, ClearTable);
    assert RequestOk(s, r);
    RescuesItself(s', r);
  }

  // ---------------------------------------------------------------------------
  // What a wedged key does to everyone who asks for it later
  // ---------------------------------------------------------------------------

  /** The cache entry a newcomer would be served for `k`. */
  predicate YoungEntry(s: System, k: Key) {
    k in s.table.cache && k.path in s.ttls && s.now - s.table.cache[k].created < s.ttls[k.path]
  }

  /** A request that arrives for a wedged key is stranded too, unless a young cache entry answers it. */
  lemma NewcomerIsStrandedOrServed(s: System, r: nat, k: Key)
    requires Inv(s) && Wedged(s, k) && ArriveStep(s, r, k).Some?
    ensures
      var s' := ArriveStep(s, r, k).value;
      && Wedged(s', k)
      && (if YoungEntry(s, k) then s'.requests[r] == Request(k, Finished(s.table.cache[k])) else Stranded(s', r))
  {
    var s' := ArriveStep(s, r, k).value;
    assert Step(NoClears, s, Arrive(r, k)) == Some(s');
    WedgedStep(s, Arrive(r, k), k);
    if !YoungEntry(s, k) {
      var c := s.table.inflight[k];
      assert s'.requests[r] == Request(k, Waiting(c, 0));
      assert s'.table.log[c] == [] && IsOpen(s'.table, c);
    }
  }

  /** A wedged key's cache entry can only go, and its age only grow. */
  lemma WedgedCacheStep(s: System, a: Action, k: Key)
    requires Inv(s) && Wedged(s, k) && Step(NoClears, s, a).Some?
    ensures
      var s' := Next(s, a).value;
      && (k in s'.table.cache ==> k in s.table.cache && s'.table.cache[k] == s.table.cache[k])
      && s'.ttls == s.ttls && s.now <= s'.now
  {
    if a.Complete? {
      PublisherIsElsewhere(s, a.r, k);
    }
  }

  /** Never answered, or answered out of the cache by what `start` holds for `k`. */
  ghost predicate Served(start: System, s: System, r: nat, k: Key) {
    || NeverAnswered(s, r)
    || (YoungEntry(start, k) && r in s.requests && s.requests[r] == Request(k, Finished(start.table.cache[k])))
  }

  ghost predicate LaterOnesServed(start: System, s: System, k: Key) {
    forall r | r in s.requests && r !in start.requests && s.requests[r].key == k :: Served(start, s, r, k)
  }

  /** `s` is reached from `start`, as far as `k` goes. */
  ghost predicate Since(start: System, s: System, k: Key) {
    && Wedged(s, k)
    && (k in s.table.cache ==> k in start.table.cache && s.table.cache[k] == start.table.cache[k])
    && s.ttls == start.ttls && start.now <= s.now
    && (forall r | r in start.requests :: r in s.requests)
  }

  lemma ServedStep(start: System, s: System, a: Action, r: nat, k: Key)
    requires Inv(s) && Since(start, s, k) && Step(NoClears, s, a).Some? && r !in start.requests
    requires r in Next(s, a).value.requests && Next(s, a).value.requests[r].key == k
    requires r in s.requests && s.requests[r].key == k ==> Served(start, s, r, k)
    ensures Served(start, Next(s, a).value, r, k)
  {
    if r !in s.requests {
      assert a.Arrive? && a.r == r && a.key == k by { ArrivesAs(s, a, r); }
      NewcomerIsStrandedOrServed(s, r, k);
    } else {
      KeysStay(s, a, r);
      if NeverAnswered(s, r) {
        NeverAnsweredStep(s, a, r);
      } else {
        AnswersStay(s, a, r);
      }
    }
  }

  lemma AnswersStay(s: System, a: Action, r: nat)
    requires r in s.requests && s.requests[r].phase.Finished? && Next(s, a).Some?
    ensures r in Next(s, a).value.requests && Next(s, a).value.requests[r] == s.requests[r]
  {
  }

  lemma SinceStep(start: System, s: System, a: Action, k: Key)
    requires Inv(s) && Since(start, s, k) && Step(NoClears, s, a).Some?
    ensures Since(start, Next(s, a).value, k)
  {
    WedgedStep(s, a, k);
    WedgedCacheStep(s, a, k);
    forall r | r in start.requests ensures r in Next(s, a).value.requests {
      KeysStay(s, a, r);
    }
  }

  lemma {:induction false} WedgedRun(start: System, s: System, acts: seq<Action>, k: Key)
    requires Inv(s) && Since(start, s, k) && LaterOnesServed(start, s, k) && Run(NoClears, s, acts).Some?
    ensures Since(start, Run(NoClears, s, acts).value, k)
    ensures LaterOnesServed(start, Run(NoClears, s, acts).value, k)
    decreases acts
  {
    if acts != [] {
      var a, s' := acts[0], Next(s, acts[0]).value;
      InvStep(s, a);
      SinceStep(start, s, a, k);
      forall r | r in s'.requests && r !in start.requests && s'.requests[r].key == k ensures Served(start, s', r, k) {
        if r in s.requests { KeysStay(s, a, r); }
        ServedStep(start, s, a, r, k);
      }
      WedgedRun(start, s', acts[1..], k);
    }
  }

  /**
   Once nobody is left to publish for a key in flight, it stays that way in every
   run without `clear()`, and every later request for it is never answered, or is
   answered by the one cache entry there already was, if that was still young.
   */
  lemma WedgedKeyStaysWedged(s: System, acts: seq<Action>, k: Key, r: nat)
    requires Inv(s) && Wedged(s, k) && Run(NoClears, s, acts).Some?
    ensures
      var end := Run(NoClears, s, acts).value;
      && Wedged(end, k)
      && (r in end.requests && r !in s.requests && end.requests[r].key == k ==> Served(s, end, r, k))
  {
    WedgedRun(s, s, acts, k);
  }

  lemma RunThree(s: System, a: Action, b: Action, c: Action, s1: System, s2: System, s3: System)
    requires Step(NoClears, s, a) == Some(s1) && Step(NoClears, s1, b) == Some(s2) && Step(NoClears, s2, c) == Some(s3)
    ensures Run(NoClears, s, [a, b, c]) == Some(s3)
  {
    assert [a, b, c][1..] == [b, c] && [b, c][1..] == [c] && [c][1..] == [];
    assert Run(NoClears, s3, []) == Some(s3);
    assert Run(NoClears, s2, [c]) == Some(s3);
    assert Run(NoClears, s1, [b, c]) == Some(s3);
  }

  /** A leader, its follower, and the leader dropped. */
  lemma DropOfLeader(k: Key, ttls: map<string, nat>) returns (s: System)
    requires k.path in ttls
    ensures Run(NoClears, Init(ttls), [Arrive(0, k), Arrive(1, k), Drop(0)]) == Some(s)
    ensures s.requests == map[0 := Request(k, Dropped), 1 := Request(k, Waiting(0, 0))]
    ensures s.table == Open(Empty, k)
  {
    var s1 := Next(Init(ttls), Arrive(0, k)).value;
    var s2 := Next(s1, Arrive(1, k)).value;
    s := Next(s2, Drop(0)).value;
    RunThree(Init(ttls), Arrive(0, k), Arrive(1, k), Drop(0), s1, s2, s);
  }

  /** One dropped leader is enough: its follower is stranded, and without `clear()` every later request
      for the key stays unanswered. */
  lemma DroppedLeaderStrands(k: Key, ttls: map<string, nat>, acts: seq<Action>, r: nat)
    requires k.path in ttls
    ensures
      var start := Run(NoClears, Init(ttls), [Arrive(0, k), Arrive(1, k), Drop(0)]);
      && start.Some? && Stranded(start.value, 1)
      && var end := Run(NoClears, start.value, acts);
         end.Some? && r in end.value.requests && r > 1 && end.value.requests[r].key == k ==>
           NeverAnswered(end.value, r)
  {
    var s := DropOfLeader(k, ttls);
    InvRun(NoClears, Init(ttls), [Arrive(0, k), Arrive(1, k), Drop(0)]);
    assert k in s.table.inflight && s.table.inflight[k] == 0;
    assert Wedged(s, k);
    if Run(NoClears, s, acts).Some? {
      WedgedKeyStaysWedged(s, acts, k, r);
    }
  }
}
