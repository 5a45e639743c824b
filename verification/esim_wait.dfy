/**
 Waiting for the terminal event of an eSIM request while the bridge keeps
 delivering messages.

 The bridge records a message under the lock and broadcasts it afterwards; the
 waiter subscribes first and reads the record afterwards.  Every interleaving of
 those steps is a schedule here.
 */
module EsimWait {
  import opened Options
  import opened EsimRecord

  const CAPACITY := 256

  /** The request waited for and the event types that end the wait. */
  datatype Target = Target(id: string, action: string, types: set<string>)

  datatype Outcome = Success(m: Message) | Failure(m: Message) | Lagged | TimedOut

  /** `from` is the position subscribed at, `seen` the final event read from the record. */
  datatype Phase =
    | NotStarted
    | Subscribed(from: nat)
    | Looping(from: nat, seen: Option<Message>, pos: nat)
    | Returned(from: nat, seen: Option<Message>, outcome: Outcome)

  /** `handled` is history: the messages for this request the bridge has recorded. */
  datatype System = System(
    record: Option<Record>, pending: Option<Message>, log: seq<Message>, phase: Phase,
    created: nat, handled: History)

  datatype Action =
    | Deliver(m: Message, now: nat)  // the bridge records a message under the lock
    | Broadcast                      // ... and sends it to every subscriber
    | Subscribe
    | ReadRecord
    | Receive1
    | Prune                          // the record is evicted
    | Expire                         // the timeout fires

  function Init(t: Target, created: nat): System {
    System(Some(Created(t.action, created)), None, [], NotStarted, created, [])
  }

  predicate Fails(t: Target, m: Message) {
    m.requestId == Some(t.id) && (IsBridgeError(m) || (ResultOf(m).Some? && ResultIsError(ResultOf(m).value)))
  }

  /** A message that ends the wait. */
  predicate Wanted(t: Target, m: Message) {
    m.requestId == Some(t.id) && (Fails(t, m) || m.kind in t.types)
  }

  function Ending(t: Target, m: Message): Outcome {
    if Fails(t, m) then Failure(m) else Success(m)
  }

  function Deliver1(t: Target, s: System, m: Message, now: nat): System {
    if m.requestId == Some(t.id) && s.record.Some? then
      s.(record := Some(Receive(s.record.value, m, now)), pending := Some(m), handled := s.handled + [(m, now)])
    else s.(pending := Some(m))
  }

  /** Errors first, then the wanted types; the stored event is not matched on its request id again. */
  function ReadRecord1(t: Target, s: System): Phase
    requires s.phase.Subscribed?
  {
    var from := s.phase.from;
    var seen := if s.record.Some? then s.record.value.final else None;
    if seen.Some? && Fails(t, seen.value) then Returned(from, seen, Failure(seen.value))
    else if seen.Some? && seen.value.kind in t.types then Returned(from, seen, Success(seen.value))
    else Looping(from, seen, from)
  }

  function Next(t: Target, s: System, a: Action): Option<System> {
    match a
    case Deliver(m, now) => if s.pending.Some? then None else Some(Deliver1(t, s, m, now))
    case Broadcast => if s.pending.None? then None else Some(s.(pending := None, log := s.log + [s.pending.value]))
    case Subscribe => if !s.phase.NotStarted? then None else Some(s.(phase := Subscribed(|s.log|)))
    case ReadRecord => if !s.phase.Subscribed? then None else Some(s.(phase := ReadRecord1(t, s)))
    case Receive1 =>
      if !s.phase.Looping? || s.phase.pos >= |s.log| then None else
      var p := s.phase;
      if |s.log| - p.pos > CAPACITY then Some(s.(phase := Returned(p.from, p.seen, Lagged)))
      else if Wanted(t, s.log[p.pos]) then
        Some(s.(phase := Returned(p.from, p.seen, Ending(t, s.log[p.pos]))))
      else Some(s.(phase := p.(pos := p.pos + 1)))
    case Prune => Some(s.(record := None))
    case Expire => if !s.phase.Looping? then None else Some(s.(phase := Returned(s.phase.from, s.phase.seen, TimedOut)))
  }

  function Run(t: Target, s: System, acts: seq<Action>): Option<System>
    decreases acts
  {
    if acts == [] then Some(s) else
    var n := Next(t, s, acts[0]);
    if n.None? then None else Run(t, n.value, acts[1..])
  }

  /** A message is recorded if it is for this request and the record is there, and is then broadcast
      whatever request it is for. */
  lemma DeliveredIsBroadcast(t: Target, s: System, m: Message, now: nat)
    requires s.pending.None?
    ensures
      && Next(t, s, Deliver(m, now)).Some?
      && var d := Next(t, s, Deliver(m, now)).value;
      && d.log == s.log && d.phase == s.phase
      && (if m.requestId == Some(t.id) && s.record.Some?
          then d.record == Some(Receive(s.record.value, m, now)) && d.handled == s.handled + [(m, now)]
          else d.record == s.record && d.handled == s.handled)
      && Next(t, d, Broadcast) == Some(System(d.record, None, s.log + [m], s.phase, d.created, d.handled))
  {
  }

  /** The timeout ends a wait that has read the record. */
  lemma TimeoutDoes(t: Target, s: System)
    requires s.phase.Looping?
    ensures Next(t, s, Expire).Some?
    ensures
      var e := Next(t, s, Expire).value;
      e.phase.Returned? && e.phase.outcome.TimedOut? && e.log == s.log && e.record == s.record
  {
  }

  /** The record stays and the timer does not fire. */
  predicate Undisturbed(acts: seq<Action>) {
    forall a | a in acts :: !a.Prune? && !a.Expire?
  }

  /** Everything delivered has been broadcast and the waiter has nothing left to read. */
  predicate Settled(s: System) {
    && s.pending.None?
    && match s.phase
       case Looping(_, _, pos) => pos == |s.log|
       case Returned(_, _, _) => true
       case _ => false
  }

  predicate Wants(t: Target, m: Option<Message>) {
    m.Some? && Wanted(t, m.value)
  }

  /** A wanted event from position `lo` on. */
  predicate WantedFrom(t: Target, log: seq<Message>, lo: nat, hi: nat)
    requires hi <= |log|
  {
    exists i :: lo <= i < hi && Wanted(t, log[i])
  }

  predicate Inv(t: Target, s: System) {
    && s.record == Some(Replay(Created(t.action, s.created), s.handled))
    && (forall i | 0 <= i < |s.handled| :: s.handled[i].0.requestId == Some(t.id))
    && (s.record.value.final.Some? ==> s.record.value.final.value.requestId == Some(t.id))
    && match s.phase
       case NotStarted => true
       case Subscribed(from) => from <= |s.log|
       case Looping(from, seen, pos) =>
         && from <= pos <= |s.log| && !Wants(t, seen)
         && !WantedFrom(t, s.log, from, pos)
         && (Wants(t, s.record.value.final) ==>
               s.pending == s.record.value.final
               || exists i :: pos <= i < |s.log| && s.log[i] == s.record.value.final.value)
       case Returned(from, seen, outcome) =>
         && from <= |s.log| && !outcome.TimedOut?
         && (outcome.Success? || outcome.Failure? ==>
               && outcome == Ending(t, outcome.m) && Wanted(t, outcome.m)
               && (seen == Some(outcome.m) || exists i :: from <= i < |s.log| && s.log[i] == outcome.m))
  }

  lemma InvDeliver(t: Target, s: System, m: Message, now: nat)
    requires Inv(t, s) && s.pending.None?
    ensures Inv(t, Deliver1(t, s, m, now))
  {
    ReplayAppend(Created(t.action, s.created), s.handled, m, now);
  }

  lemma InvBroadcast(t: Target, s: System)
    requires Inv(t, s) && s.pending.Some?
    ensures Inv(t, Next(t, s, Broadcast).value)
  {
    var s' := Next(t, s, Broadcast).value;
    assert s'.log[|s.log|] == s.pending.value;
    if s.phase.Looping? && Wants(t, s.record.value.final) && s.pending != s.record.value.final {
      var i :| s.phase.pos <= i < |s.log| && s.log[i] == s.record.value.final.value;
      assert s'.log[i] == s.log[i];
    }
    if s.phase.Returned? && (s.phase.outcome.Success? || s.phase.outcome.Failure?)
       && s.phase.seen != Some(s.phase.outcome.m) {
      var i :| s.phase.from <= i < |s.log| && s.log[i] == s.phase.outcome.m;
      assert s'.log[i] == s.log[i];
    }
  }

  lemma InvReceive(t: Target, s: System)
    requires Inv(t, s) && Next(t, s, Receive1).Some?
    ensures Inv(t, Next(t, s, Receive1).value)
  {
    var p := s.phase;
    if |s.log| - p.pos <= CAPACITY && !Wanted(t, s.log[p.pos]) {
      PassedOver(t, s.log, p.from, p.pos);
      StillToCome(t, s);
    }
  }

  lemma PassedOver(t: Target, log: seq<Message>, from: nat, pos: nat)
    requires pos < |log| && !WantedFrom(t, log, from, pos) && !Wanted(t, log[pos])
    ensures !WantedFrom(t, log, from, pos + 1)
  {
  }

  /** Passing over an unwanted event does not pass over a wanted final one. */
  lemma StillToCome(t: Target, s: System)
    requires Inv(t, s) && s.phase.Looping? && s.phase.pos < |s.log| && !Wanted(t, s.log[s.phase.pos])
    ensures Wants(t, s.record.value.final) ==>
              s.pending == s.record.value.final
              || exists i :: s.phase.pos + 1 <= i < |s.log| && s.log[i] == s.record.value.final.value
  {
    var final := s.record.value.final;
    if Wants(t, final) && s.pending != final {
      var i :| s.phase.pos <= i < |s.log| && s.log[i] == final.value;
      assert i != s.phase.pos;
    }
  }

  lemma InvStep(t: Target, s: System, a: Action)
    requires Inv(t, s) && Next(t, s, a).Some? && !a.Prune? && !a.Expire?
    ensures Inv(t, Next(t, s, a).value)
  {
    match a
    case Deliver(m, now) => InvDeliver(t, s, m, now);
    case Broadcast => InvBroadcast(t, s);
    case Receive1 => InvReceive(t, s);
    case _ =>
  }

  lemma {:induction false} InvRun(t: Target, s: System, acts: seq<Action>)
    requires Inv(t, s) && Run(t, s, acts).Some? && Undisturbed(acts)
    ensures Inv(t, Run(t, s, acts).value)
    decreases acts
  {
    if acts != [] {
      InvStep(t, s, acts[0]);
      InvRun(t, Next(t, s, acts[0]).value, acts[1..]);
    }
  }

  /**
   In every interleaving that neither prunes the record nor times out, once
   everything is settled a waiter that did not lag has returned if the first
   event final for the action was wanted or a bridge error arrived.
   */
  lemma WaitLosesNothing(t: Target, created: nat, acts: seq<Action>)
    requires Run(t, Init(t, created), acts).Some? && Undisturbed(acts)
    requires Settled(Run(t, Init(t, created), acts).value)
    requires
      var h := Run(t, Init(t, created), acts).value.handled;
      LastBridgeError(h).Some? || Wants(t, FirstFinal(t.action, h))
    ensures
      var s := Run(t, Init(t, created), acts).value;
      s.phase.Returned? && !s.phase.outcome.TimedOut? && (s.phase.outcome.Lagged? || Wanted(t, s.phase.outcome.m))
  {
    InvRun(t, Init(t, created), acts);
    var s := Run(t, Init(t, created), acts).value;
    RecordSummarisesHistory(t.action, created, s.handled);
    CreatedFixed(t, Init(t, created), acts);
    LastBridgeErrorIsOne(s.handled);
    assert Wants(t, s.record.value.final);
  }

  lemma {:induction false} CreatedFixed(t: Target, s: System, acts: seq<Action>)
    requires Run(t, s, acts).Some?
    ensures Run(t, s, acts).value.created == s.created
    decreases acts
  {
    if acts != [] {
      CreatedFixed(t, Next(t, s, acts[0]).value, acts[1..]);
    }
  }

  /**
   Exactly when a settled waiter that did not lag has returned: the final event
   it read was wanted, or a wanted event was broadcast after it subscribed.
   */
  lemma ReturnsIff(t: Target, created: nat, acts: seq<Action>)
    requires Run(t, Init(t, created), acts).Some? && Undisturbed(acts)
    requires Settled(Run(t, Init(t, created), acts).value)
    requires
      var p := Run(t, Init(t, created), acts).value.phase;
      p.Returned? ==> !p.outcome.Lagged?
    ensures
      var s := Run(t, Init(t, created), acts).value;
      s.phase.Returned? <==>
        Wants(t, s.phase.seen) || (s.phase.from <= |s.log| && WantedFrom(t, s.log, s.phase.from, |s.log|))
  {
    InvRun(t, Init(t, created), acts);
  }

  // ---- Exactly when a wait can hang ----

  /** Some schedule without pruning or timeout delivers everything and leaves the waiter waiting. */
  predicate Hung(s: System) {
    Settled(s) && s.phase.Looping?
  }

  ghost predicate CanHang(t: Target, s: System) {
    exists acts :: Undisturbed(acts) && Run(t, s, acts).Some? && Hung(Run(t, s, acts).value)
  }

  /** From position `pos` of the log on, something will end the wait: a wanted event that is there or
      about to be broadcast, or more messages than the channel holds. */
  predicate Ahead(t: Target, s: System, pos: nat) {
    pos <= |s.log| &&
    (WantedFrom(t, s.log, pos, |s.log|) || Wants(t, s.pending) || |s.log| - pos > CAPACITY)
  }

  /** The wait is bound to end, whatever else is delivered. */
  predicate WillReturn(t: Target, s: System) {
    match s.phase
    case NotStarted => FinalIsWanted(t, s)
    case Subscribed(from) => FinalIsWanted(t, s) || Ahead(t, s, from)
    case Looping(_, _, pos) => FinalIsWanted(t, s) || Ahead(t, s, pos)
    case Returned(_, _, _) => true
  }

  predicate FinalIsWanted(t: Target, s: System) {
    s.record.Some? && Wants(t, s.record.value.final)
  }

  /** Only a bridge error replaces a final event, and every waiter wants those. */
  lemma WantedFinalStays(t: Target, r: Record, m: Message, now: nat)
    requires Wants(t, r.final) && m.requestId == Some(t.id)
    ensures Wants(t, Receive(r, m, now).final)
  {
  }

  lemma WantedFromGrows(t: Target, log: seq<Message>, m: Message, pos: nat)
    requires pos <= |log|
    ensures WantedFrom(t, log + [m], pos, |log| + 1) <==> WantedFrom(t, log, pos, |log|) || Wanted(t, m)
  {
    if Wanted(t, m) {
      assert (log + [m])[|log|] == m;
    }
    if i :| pos <= i < |log| && Wanted(t, log[i]) {
      assert (log + [m])[i] == log[i];
    }
  }

  lemma WantedFromRest(t: Target, log: seq<Message>, pos: nat)
    requires pos < |log|
    ensures WantedFrom(t, log, pos, |log|) <==> Wanted(t, log[pos]) || WantedFrom(t, log, pos + 1, |log|)
  {
  }

  lemma WillReturnBroadcast(t: Target, s: System)
    requires Inv(t, s) && WillReturn(t, s) && s.pending.Some?
    ensures WillReturn(t, Next(t, s, Broadcast).value)
  {
    var pos := match s.phase case Subscribed(from) => from case Looping(_, _, p) => p case _ => |s.log|;
    WantedFromGrows(t, s.log, s.pending.value, pos);
  }

  lemma WillReturnStep(t: Target, s: System, a: Action)
    requires Inv(t, s) && WillReturn(t, s) && Next(t, s, a).Some? && !a.Prune? && !a.Expire?
    ensures WillReturn(t, Next(t, s, a).value)
  {
    match a
    case Deliver(m, now) =>
      if FinalIsWanted(t, s) && m.requestId == Some(t.id) {
        WantedFinalStays(t, s.record.value, m, now);
      }
    case Broadcast => WillReturnBroadcast(t, s);
    case Receive1 => WantedFromRest(t, s.log, s.phase.pos);
    case _ =>
  }

  lemma {:induction false} WillReturnRun(t: Target, s: System, acts: seq<Action>)
    requires Inv(t, s) && WillReturn(t, s) && Undisturbed(acts) && Run(t, s, acts).Some?
    ensures !Hung(Run(t, s, acts).value)
    decreases acts
  {
    if acts != [] {
      InvStep(t, s, acts[0]);
      WillReturnStep(t, s, acts[0]);
      WillReturnRun(t, Next(t, s, acts[0]).value, acts[1..]);
    }
  }

  lemma HangAfter(t: Target, s: System, a: Action)
    requires Next(t, s, a).Some? && !a.Prune? && !a.Expire? && CanHang(t, Next(t, s, a).value)
    ensures CanHang(t, s)
  {
    var m := Next(t, s, a).value;
    var acts :| Undisturbed(acts) && Run(t, m, acts).Some? && Hung(Run(t, m, acts).value);
    assert ([a] + acts)[1..] == acts;
    assert Run(t, s, [a] + acts) == Run(t, m, acts);
    assert Undisturbed([a] + acts);
  }

  /** With nothing ahead the waiter reads to the end of the log and stays there. */
  lemma {:induction false} ReadingHangs(t: Target, s: System)
    requires Inv(t, s) && s.phase.Looping? && !WillReturn(t, s)
    ensures CanHang(t, s)
    decreases |s.log| - s.phase.pos + (if s.pending.Some? then 2 else 0)
  {
    if s.phase.pos < |s.log| {
      WantedFromRest(t, s.log, s.phase.pos);
      InvStep(t, s, Receive1);
      ReadingHangs(t, Next(t, s, Receive1).value);
      HangAfter(t, s, Receive1);
    } else if s.pending.Some? {
      WantedFromGrows(t, s.log, s.pending.value, s.phase.pos);
      InvStep(t, s, Broadcast);
      ReadingHangs(t, Next(t, s, Broadcast).value);
      HangAfter(t, s, Broadcast);
    } else {
      assert Run(t, s, []) == Some(s) && Hung(s);
    }
  }

  lemma SubscribedHangs(t: Target, s: System)
    requires Inv(t, s) && s.phase.Subscribed? && !WillReturn(t, s)
    ensures CanHang(t, s)
  {
    InvStep(t, s, ReadRecord);
    ReadingHangs(t, Next(t, s, ReadRecord).value);
    HangAfter(t, s, ReadRecord);
  }

  lemma UnstartedHangs(t: Target, s: System)
    requires Inv(t, s) && s.phase.NotStarted? && !WillReturn(t, s)
    ensures CanHang(t, s)
  {
    if s.pending.Some? {
      InvStep(t, s, Broadcast);
      var m := Next(t, s, Broadcast).value;
      InvStep(t, m, Subscribe);
      SubscribedHangs(t, Next(t, m, Subscribe).value);
      HangAfter(t, m, Subscribe);
      HangAfter(t, s, Broadcast);
    } else {
      InvStep(t, s, Subscribe);
      SubscribedHangs(t, Next(t, s, Subscribe).value);
      HangAfter(t, s, Subscribe);
    }
  }

  /**
   From any state, before or during the wait, some schedule leaves the waiter
   waiting with everything delivered exactly when it is not bound to return: not
   started, when the final event is not wanted; subscribed or reading, when
   besides nothing wanted is in the rest of the log or about to be broadcast and
   the rest fits into the channel.
   */
  lemma CanHangIff(t: Target, s: System)
    requires Inv(t, s)
    ensures CanHang(t, s) <==> !WillReturn(t, s)
  {
    if WillReturn(t, s) {
      forall acts | Undisturbed(acts) && Run(t, s, acts).Some? ensures !Hung(Run(t, s, acts).value) {
        WillReturnRun(t, s, acts);
      }
    } else {
      match s.phase
      case NotStarted => UnstartedHangs(t, s);
      case Subscribed(_) => SubscribedHangs(t, s);
      case Looping(_, _, _) => ReadingHangs(t, s);
    }
  }

  /**
   For a caller about to wait: whatever has been recorded so far, wanted events
   included, the wait can hang exactly when there was no bridge error and the first
   event final for the action, if any, is not wanted.
   */
  lemma WaitCanHangIff(t: Target, s: System)
    requires Inv(t, s) && s.phase.NotStarted?
    ensures CanHang(t, s) <==> !Wants(t, s.record.value.final)
    ensures CanHang(t, s) <==> LastBridgeError(s.handled).None? && !Wants(t, FirstFinal(t.action, s.handled))
  {
    CanHangIff(t, s);
    RecordSummarisesHistory(t.action, s.created, s.handled);
    LastBridgeErrorIsOne(s.handled);
  }

  /**
   What is lost is an event of a wanted type that arrived before the waiter
   subscribed without becoming the final event, because another type had become
   final first.
   */
  lemma EarlierFinalHidesWantedEvent(id: string, first: Message, second: Message)
    requires first == Message("esim.profiles_result", Some(id), None)
    requires second == Message("esim.active_profile_result", Some(id), None)
    ensures
      var t := Target(id, "humane.connectivity.esimlpa.getProfiles", {"esim.active_profile_result"});
      var end := Run(t, Init(t, 0),
                     [Deliver(first, 1), Broadcast, Deliver(second, 2), Broadcast, Subscribe, ReadRecord]);
      && end.Some? && Settled(end.value) && end.value.phase.Looping?
      && Wanted(t, second) && second in end.value.log
  {
    var t := Target(id, "humane.connectivity.esimlpa.getProfiles", {"esim.active_profile_result"});
    var s1 := Next(t, Init(t, 0), Deliver(first, 1)).value;
    assert s1.record.value.final == Some(first);
    var s2 := Next(t, s1, Broadcast).value;
    var s3 := Next(t, s2, Deliver(second, 2)).value;
    assert s3.record.value.final == Some(first);
    var s4 := Next(t, s3, Broadcast).value;
    assert s4.log == [first, second] && s4.log[1] == second;
    var s5 := Next(t, s4, Subscribe).value;
    var s6 := Next(t, s5, ReadRecord).value;
    var l5, l4 := [ReadRecord], [Subscribe, ReadRecord];
    var l3 := [Broadcast, Subscribe, ReadRecord];
    var l2 := [Deliver(second, 2), Broadcast, Subscribe, ReadRecord];
    var l1 := [Broadcast, Deliver(second, 2), Broadcast, Subscribe, ReadRecord];
    var l0 := [Deliver(first, 1), Broadcast, Deliver(second, 2), Broadcast, Subscribe, ReadRecord];
    assert l0[1..] == l1 && l1[1..] == l2 && l2[1..] == l3 && l3[1..] == l4 && l4[1..] == l5 && l5[1..] == [];
    assert Run(t, s5, l5) == Run(t, s6, []) == Some(s6);
    assert Run(t, s3, l3) == Run(t, s4, l4) == Run(t, s5, l5);
    assert Run(t, s1, l1) == Run(t, s2, l2) == Run(t, s3, l3);
    assert Run(t, Init(t, 0), l0) == Run(t, s1, l1);
  }
}
