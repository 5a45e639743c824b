/**
 The record the server keeps of one eSIM request, and what it amounts to after
 any sequence of bridge messages.
 */
module EsimRecord {
  import opened Options

  /** The parts of a bridge message the server looks at. */
  datatype Payload = Payload(result: Option<string>, operation: Option<string>)

  datatype Message = Message(kind: string, requestId: Option<string>, payload: Option<Payload>)

  datatype Record = Record(
    action: string, status: string, accepted: bool, events: seq<Message>, final: Option<Message>, updatedAt: nat)

  const MAX_EVENTS := 32
  const DOWNLOAD_VERIFY_ENABLE := "humane.connectivity.esimlpa.downloadVerifyAndEnableProfile"

  predicate ResultIsError(result: string) {
    result == "error" || result == "protected" || result == "disallowed_profile"
  }

  function ResultOf(m: Message): Option<string> {
    if m.payload.Some? then m.payload.value.result else None
  }

  predicate DownloadVerifyEnableFinal(m: Message) {
    if m.kind == "esim.download_result" then
      ResultOf(m).Some? && ResultIsError(ResultOf(m).value)
    else if m.kind == "esim.profile_mutation_result" then
      m.payload.Some? &&
      var operation := if m.payload.value.operation.Some? then m.payload.value.operation.value else "";
      var result := if m.payload.value.result.Some? then m.payload.value.result.value else "";
      operation == "enable" || (operation == "unknown" && result == "error")
    else false
  }

  predicate IsFinalFor(action: string, m: Message) {
    if action == DOWNLOAD_VERIFY_ENABLE then DownloadVerifyEnableFinal(m)
    else m.kind in {
      "esim.profiles_result", "esim.active_profile_result", "esim.active_iccid_result",
      "esim.device_identifiers_result", "esim.profile_mutation_result", "esim.download_result"}
  }

  predicate IsAccept(m: Message) { m.kind == "esim.request_accepted" }

  predicate IsBridgeError(m: Message) { m.kind == "esim.bridge_error" }

  function LastN<T>(xs: seq<T>, n: nat): seq<T> {
    if |xs| <= n then xs else xs[|xs| - n..]
  }

  function Created(action: string, now: nat): Record {
    Record(action, "pending", false, [], None, now)
  }

  function Push(events: seq<Message>, m: Message): seq<Message> {
    LastN(events + [m], MAX_EVENTS)
  }

  /** How one message changes its request's record. */
  function Receive(r: Record, m: Message, now: nat): Record {
    if IsAccept(m) then
      r.(accepted := true, status := "accepted", updatedAt := now)
    else if IsBridgeError(m) then
      r.(status := "error", final := Some(m), events := Push(r.events, m), updatedAt := now)
    else
      var r' := r.(events := Push(r.events, m), updatedAt := now);
      if r.final.None? && IsFinalFor(r.action, m) then
        var failed := ResultOf(m).Some? && ResultIsError(ResultOf(m).value);
        r'.(final := Some(m), status := if failed then "error" else "completed")
      else if r.status == "pending" then r'.(status := "running")
      else r'
  }

  /** The record as the bridge task changes it in place. */
  class RequestRecord {
    const action: string
    var status: string
    var accepted: bool
    var events: seq<Message>
    var finalEvent: Option<Message>
    var updatedAt: nat

    function View(): Record
      reads this
    {
      Record(action, status, accepted, events, finalEvent, updatedAt)
    }

    constructor (requested: string, now: nat)
      ensures View() == Created(requested, now)
    {
      action, status, accepted, events, finalEvent, updatedAt := requested, "pending", false, [], None, now;
    }

    method PushEvent(m: Message)
      modifies this`events
      ensures events == Push(old(events), m)
    {
      events := events + [m];
      if |events| > MAX_EVENTS {
        var overflow := |events| - MAX_EVENTS;
        events := events[overflow..];
      }
    }

    method HandleIncoming(m: Message, now: nat)
      modifies this
      ensures View() == Receive(old(View()), m, now)
    {
      if m.kind == "esim.request_accepted" {
        accepted := true;
        status := "accepted";
        updatedAt := now;
      } else if m.kind == "esim.bridge_error" {
        status := "error";
        finalEvent := Some(m);
        PushEvent(m);
        updatedAt := now;
      } else {
        PushEvent(m);
        updatedAt := now;
        if finalEvent.None? && IsFinalFor(action, m) {
          finalEvent := Some(m);
          var result := if ResultOf(m).Some? then ResultOf(m).value else "success";
          status := if ResultIsError(result) then "error" else "completed";
        } else if status == "pending" {
          status := "running";
        }
      }
    }
  }

  // ---------------------------------------------------------------------------
  // What a whole history amounts to
  // ---------------------------------------------------------------------------

  /** Messages with their arrival times, oldest first. */
  type History = seq<(Message, nat)>

  function Replay(r: Record, h: History): Record
    decreases h
  {
    if h == [] then r else Replay(Receive(r, h[0].0, h[0].1), h[1..])
  }

  function LastBridgeError(h: History): Option<Message> {
    if h == [] then None
    else if IsBridgeError(h[|h| - 1].0) then Some(h[|h| - 1].0)
    else LastBridgeError(h[..|h| - 1])
  }

  predicate Decides(action: string, m: Message) {
    !IsAccept(m) && !IsBridgeError(m) && IsFinalFor(action, m)
  }

  function FirstFinal(action: string, h: History): Option<Message> {
    if h == [] then None
    else if Decides(action, h[0].0) then Some(h[0].0)
    else FirstFinal(action, h[1..])
  }

  function NonAccepts(h: History): seq<Message> {
    if h == [] then []
    else NonAccepts(h[..|h| - 1]) + (if IsAccept(h[|h| - 1].0) then [] else [h[|h| - 1].0])
  }

  lemma {:induction false} ReplayAppend(r: Record, h: History, m: Message, now: nat)
    ensures Replay(r, h + [(m, now)]) == Receive(Replay(r, h), m, now)
    decreases h
  {
    if h == [] {
      assert (h + [(m, now)])[1..] == [];
    } else {
      assert (h + [(m, now)])[1..] == h[1..] + [(m, now)];
      ReplayAppend(Receive(r, h[0].0, h[0].1), h[1..], m, now);
    }
  }

  lemma {:induction false} FirstFinalAppend(action: string, h: History, m: Message, now: nat)
    ensures FirstFinal(action, h + [(m, now)]) ==
            (if FirstFinal(action, h).Some? then FirstFinal(action, h)
             else if Decides(action, m) then Some(m) else None)
    decreases h
  {
    if h == [] {
      assert (h + [(m, now)])[1..] == [];
    } else {
      assert (h + [(m, now)])[1..] == h[1..] + [(m, now)];
      FirstFinalAppend(action, h[1..], m, now);
    }
  }

  lemma LastNAppend<T>(xs: seq<T>, x: T, n: nat)
    requires n > 0
    ensures LastN(LastN(xs, n) + [x], n) == LastN(xs + [x], n)
  {
  }

  /**
   For every history, the final event is the last bridge error if there was one
   and otherwise the first event that is final for the action, and the event log
   is the last 32 messages that were not acceptances, in order.
   */
  lemma {:induction false} RecordSummarisesHistory(action: string, created: nat, h: History)
    ensures
      var r := Replay(Created(action, created), h);
      && r.action == action
      && r.final == (if LastBridgeError(h).Some? then LastBridgeError(h) else FirstFinal(action, h))
      && r.events == LastN(NonAccepts(h), MAX_EVENTS)
      && (r.accepted <==> exists i :: 0 <= i < |h| && IsAccept(h[i].0))
      && r.updatedAt == (if h == [] then created else h[|h| - 1].1)
    decreases h
  {
    if h != [] {
      var front, m, now := h[..|h| - 1], h[|h| - 1].0, h[|h| - 1].1;
      assert h == front + [(m, now)];
      RecordSummarisesHistory(action, created, front);
      ReplayAppend(Created(action, created), front, m, now);
      FirstFinalAppend(action, front, m, now);
      LastNAppend(NonAccepts(front), m, MAX_EVENTS);
      AcceptAppend(front, m, now);
    }
  }

  lemma AcceptAppend(h: History, m: Message, now: nat)
    ensures (exists i :: 0 <= i < |h + [(m, now)]| && IsAccept((h + [(m, now)])[i].0)) <==>
            (IsAccept(m) || exists i :: 0 <= i < |h| && IsAccept(h[i].0))
  {
    var g := h + [(m, now)];
    if exists i :: 0 <= i < |h| && IsAccept(h[i].0) {
      var i :| 0 <= i < |h| && IsAccept(h[i].0);
      assert g[i] == h[i];
    }
    assert g[|h|].0 == m;
  }

  /** Only an acceptance or a bridge error can change the status of a request that has its final event. */
  lemma {:induction false} StatusSettles(r: Record, h: History)
    requires r.final.Some? && r.status != "pending"
    requires forall i | 0 <= i < |h| :: !IsAccept(h[i].0) && !IsBridgeError(h[i].0)
    ensures Replay(r, h).status == r.status && Replay(r, h).final == r.final
    decreases h
  {
    if h != [] {
      StatusSettles(Receive(r, h[0].0, h[0].1), h[1..]);
    }
  }

  lemma {:induction false} FirstFinalDecides(action: string, h: History)
    ensures FirstFinal(action, h).Some? ==> Decides(action, FirstFinal(action, h).value)
    decreases h
  {
    if h != [] {
      FirstFinalDecides(action, h[1..]);
    }
  }

  lemma {:induction false} LastBridgeErrorIsOne(h: History)
    ensures LastBridgeError(h).Some? ==> IsBridgeError(LastBridgeError(h).value)
    decreases h
  {
    if h != [] {
      LastBridgeErrorIsOne(h[..|h| - 1]);
    }
  }

  /** A download-verify-enable request never ends on a download that succeeded. */
  lemma SuccessfulDownloadIsNeverFinal(created: nat, h: History)
    ensures
      var f := Replay(Created(DOWNLOAD_VERIFY_ENABLE, created), h).final;
      f.Some? && f.value.kind == "esim.download_result" ==>
        ResultOf(f.value).Some? && ResultIsError(ResultOf(f.value).value)
  {
    RecordSummarisesHistory(DOWNLOAD_VERIFY_ENABLE, created, h);
    FirstFinalDecides(DOWNLOAD_VERIFY_ENABLE, h);
    LastBridgeErrorIsOne(h);
  }
}
