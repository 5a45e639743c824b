/** The broker between the camera upload and the agents that wait for a live frame. */
module CaptureBroker {
  import opened Options

  const MAX_U64: nat := 0xFFFF_FFFF_FFFF_FFFF

  datatype Pending = Pending(requestId: nat, question: string)

  datatype Frame = Frame(requestId: nat, question: string, bytes: seq<byte>, generation: nat)

  datatype Broker = Broker(pending: Option<Pending>, latest: Option<Frame>, generation: nat)

  const Empty := Broker(None, None, 0)

  /** A saturating counter after `n` increments. */
  function Saturated(n: nat): nat {
    if n < MAX_U64 then n else MAX_U64
  }

  function Requested(b: Broker, id: nat, question: string): Broker {
    b.(pending := Some(Pending(id, question)))
  }

  /** `freshId` names the frame when nobody asked for it. */
  function Published(b: Broker, bytes: seq<byte>, freshId: nat): Broker {
    var generation := Saturated(b.generation + 1);
    var frame := match b.pending
      case Some(p) => Frame(p.requestId, p.question, bytes, generation)
      case None => Frame(freshId, "", bytes, generation);
    Broker(None, Some(frame), generation)
  }

  predicate HasNewer(b: Broker, after: nat) {
    b.latest.Some? && b.latest.value.generation > after
  }

  class SharedBroker {
    var pending: Option<Pending>
    var latest: Option<Frame>
    var generation: nat

    function View(): Broker
      reads this
    {
      Broker(pending, latest, generation)
    }

    constructor ()
      ensures View() == Empty
    {
      pending, latest, generation := None, None, 0;
    }

    method RequestCapture(id: nat, question: string)
      modifies this
      ensures View() == Requested(old(View()), id, question)
    {
      pending := Some(Pending(id, question));
    }

    method Publish(bytes: seq<byte>, freshId: nat)
      modifies this
      ensures View() == Published(old(View()), bytes, freshId)
    {
      generation := if generation < MAX_U64 then generation + 1 else MAX_U64;
      var requestId, question := freshId, "";
      if pending.Some? {
        requestId, question := pending.value.requestId, pending.value.question;
        pending := None;
      }
      latest := Some(Frame(requestId, question, bytes, generation));
    }

    /** One look under the lock at what a waiter may take. */
    method Look(after: nat) returns (frame: Option<Frame>)
      ensures frame == if HasNewer(View(), after) then latest else None
    {
      frame := None;
      if latest.Some? && latest.value.generation > after {
        frame := latest;
      }
    }
  }
}

/**
 Waiting for a frame newer than a generation.  The steps are the waiter's lock
 sections and await points, interleaved with requests, uploads and the clock;
 other waiters only read the broker and so do not appear.
 */
module CaptureWait {
  import opened Options
  import opened CaptureBroker
  import Fresh

  datatype Phase =
    | Idle
    | Ready(after: nat)                          // argument chosen, wait not begun
    | Checking                                   // about to look
    | Unregistered                               // looked, saw nothing newer
    | Measured(remaining: nat)                   // time left worked out, not yet listening
    | Registered(woken: bool, wakeAt: nat)       // listening, and the sleep runs
    | LastLook                                   // the sleep ended
    | Delivered(frame: Frame, index: int)
    | GaveUp(slept: bool)                        // after the last look, or with no time left

  /**
   `published` and `times` are every upload so far; `issued` every request id
   handed out.  `after` is the wait's argument and `base` the number of uploads
   when the caller read the generation; `looked` and `lookedAt` are the number
   of uploads and the time at the waiter's latest look.
   */
  datatype World = World(
    broker: Broker, published: seq<Frame>, times: seq<nat>, issued: set<nat>, now: nat,
    phase: Phase, after: nat, base: nat, deadline: nat, looked: nat, lookedAt: nat)

  datatype Action =
    | Request(id: nat, question: string)
    | Upload(bytes: seq<byte>, freshId: nat)
    | Tick(d: nat)
    | ReadGeneration(asked: nat)     // the HTTP handler: max(current generation, query)
    | Call(argument: nat)            // any other caller
    | Begin(timeout: nat)
    | Look
    | Measure
    | Register
    | Wake
    | Elapse
    | FinalLook

  const Init := World(Empty, [], [], {}, 0, Idle, 0, 0, 0, 0, 0)

  function Max(a: nat, b: nat): nat { if a >= b then a else b }

  function UploadStep(w: World, bytes: seq<byte>, freshId: nat): World {
    var broker := Published(w.broker, bytes, freshId);
    w.(broker := broker,
       published := w.published + [broker.latest.value],
       times := w.times + [w.now],
       issued := w.issued + {freshId},
       phase := if w.phase.Registered? then w.phase.(woken := true) else w.phase)
  }

  /** A look takes the latest frame if it is newer, and otherwise goes on to `otherwise`. */
  function LookStep(w: World, otherwise: Phase): World {
    w.(phase := if HasNewer(w.broker, w.after) then Delivered(w.broker.latest.value, |w.published| - 1) else otherwise,
       looked := |w.published|, lookedAt := w.now)
  }

  predicate Enabled(w: World, a: Action) {
    match a
    case Request(id, _) => id !in w.issued
    case Upload(_, freshId) => freshId !in w.issued
    case Tick(_) => true
    case ReadGeneration(_) => w.phase.Idle?
    case Call(_) => w.phase.Idle?
    case Begin(_) => w.phase.Ready?
    case Look => w.phase.Checking?
    case Measure => w.phase.Unregistered?
    case Register => w.phase.Measured?
    case Wake => w.phase.Registered? && w.phase.woken
    case Elapse => w.phase.Registered? && w.now >= w.phase.wakeAt
    case FinalLook => w.phase.LastLook?
  }

  function Next(w: World, a: Action): World
    requires Enabled(w, a)
  {
    match a
    case Request(id, question) => w.(broker := Requested(w.broker, id, question), issued := w.issued + {id})
    case Upload(bytes, freshId) => UploadStep(w, bytes, freshId)
    case Tick(d) => w.(now := w.now + d)
    case ReadGeneration(asked) => w.(phase := Ready(Max(w.broker.generation, asked)), base := |w.published|)
    case Call(argument) => w.(phase := Ready(argument), base := 0)
    case Begin(timeout) => w.(phase := Checking, after := w.phase.after, deadline := w.now + timeout)
    case Look => LookStep(w, Unregistered)
    case Measure =>
      w.(phase := if w.now >= w.deadline then GaveUp(false) else Measured(w.deadline - w.now))
    case Register => w.(phase := Registered(false, w.now + w.phase.remaining))
    case Wake => w.(phase := Checking)
    case Elapse => w.(phase := LastLook)
    case FinalLook => LookStep(w, GaveUp(true))
  }

  function Run(w: World, acts: seq<Action>): Option<World>
    decreases acts
  {
    if acts == [] then Some(w)
    else if Enabled(w, acts[0]) then Run(Next(w, acts[0]), acts[1..])
    else None
  }

  // ---- The invariant ----

  /** The counter counts uploads, the latest frame is the last one, and each frame carries its number. */
  ghost predicate CounterOk(w: World) {
    && |w.times| == |w.published|
    && w.broker.generation == Saturated(|w.published|)
    && (w.broker.latest == if w.published == [] then None else Some(w.published[|w.published| - 1]))
    && (forall i :: 0 <= i < |w.published| ==> w.published[i].generation == Saturated(i + 1))
  }

  ghost predicate IdsOk(w: World) {
    && (forall i :: 0 <= i < |w.published| ==> w.published[i].requestId in w.issued)
    && (forall i, j :: 0 <= i < j < |w.published| ==> w.published[i].requestId != w.published[j].requestId)
    && (w.broker.pending.Some? ==>
          && w.broker.pending.value.requestId in w.issued
          && forall i :: 0 <= i < |w.published| ==> w.published[i].requestId != w.broker.pending.value.requestId)
  }

  ghost predicate TimesOk(w: World) {
    && |w.times| == |w.published|
    && (forall i :: 0 <= i < |w.times| ==> w.times[i] <= w.now)
    && (w.looked <= |w.times| && w.lookedAt <= w.now)
    && (forall i :: w.looked <= i < |w.times| ==> w.times[i] >= w.lookedAt)
  }

  ghost predicate SawNothingNewer(w: World) {
    w.looked <= |w.published| && Saturated(w.looked) <= w.after
  }

  ghost predicate WaitOk(w: World) {
    && w.base <= |w.published|
    && match w.phase
       case Idle => true
       case Ready(after) => after >= Saturated(w.base)
       case Checking => w.after >= Saturated(w.base)
       case Unregistered => w.after >= Saturated(w.base) && SawNothingNewer(w)
       case Measured(remaining) =>
         w.after >= Saturated(w.base) && SawNothingNewer(w) && w.now + remaining >= w.deadline
       case Registered(_, wakeAt) => w.after >= Saturated(w.base) && SawNothingNewer(w) && wakeAt >= w.deadline
       case LastLook => w.after >= Saturated(w.base) && w.now >= w.deadline
       case Delivered(frame, index) =>
         w.base <= index < |w.published| && frame == w.published[index] && frame.generation > w.after
       case GaveUp(slept) => SawNothingNewer(w) && w.now >= w.deadline && (slept ==> w.lookedAt >= w.deadline)
  }

  ghost predicate Inv(w: World) {
    CounterOk(w) && IdsOk(w) && TimesOk(w) && WaitOk(w)
  }

  lemma UploadKeepsCounter(w: World, bytes: seq<byte>, freshId: nat)
    requires CounterOk(w)
    ensures CounterOk(UploadStep(w, bytes, freshId))
    ensures UploadStep(w, bytes, freshId).published[..|w.published|] == w.published
  {
  }

  lemma UploadKeepsIds(w: World, bytes: seq<byte>, freshId: nat)
    requires IdsOk(w) && freshId !in w.issued
    ensures IdsOk(UploadStep(w, bytes, freshId))
  {
  }

  lemma UploadKeepsWait(w: World, bytes: seq<byte>, freshId: nat)
    requires WaitOk(w) && TimesOk(w)
    ensures WaitOk(UploadStep(w, bytes, freshId)) && TimesOk(UploadStep(w, bytes, freshId))
  {
  }

  lemma LookKeepsInv(w: World, otherwise: Phase)
    requires Inv(w) && w.after >= Saturated(w.base)
    requires otherwise == Unregistered || (otherwise == GaveUp(true) && w.now >= w.deadline)
    ensures Inv(LookStep(w, otherwise))
  {
  }

  lemma InvStep(w: World, a: Action)
    requires Inv(w) && Enabled(w, a)
    ensures Inv(Next(w, a))
  {
    match a
    case Upload(bytes, freshId) =>
      UploadKeepsCounter(w, bytes, freshId);
      UploadKeepsIds(w, bytes, freshId);
      UploadKeepsWait(w, bytes, freshId);
    case Look => LookKeepsInv(w, Unregistered);
    case FinalLook => LookKeepsInv(w, GaveUp(true));
    case _ =>
  }

  lemma {:induction false} InvRun(w: World, acts: seq<Action>)
    requires Inv(w) && Run(w, acts).Some?
    ensures Inv(Run(w, acts).value)
    decreases acts
  {
    if acts != [] {
      InvStep(w, acts[0]);
      InvRun(Next(w, acts[0]), acts[1..]);
    }
  }

  // ---- What it gives ----

  /** In every run the counter is the number of uploads up to saturation, every upload below
      saturation raises it by one, and no request id names two frames. */
  lemma PublishesAreNumbered(acts: seq<Action>)
    requires Run(Init, acts).Some?
    ensures
      var w := Run(Init, acts).value;
      && w.broker.generation == Saturated(|w.published|)
      && (w.broker.latest.None? <==> w.broker.generation == 0)
      && (w.broker.latest.Some? ==> w.broker.latest.value.generation == w.broker.generation)
      && (forall i, j :: 0 <= i < j < |w.published| ==> w.published[i].requestId != w.published[j].requestId)
      && (forall i, j :: 0 <= i < j < |w.published| ==>
            (w.published[i].generation < w.published[j].generation <==> i + 1 < MAX_U64))
  {
    InvRun(Init, acts);
  }

  /** Steps that neither ask for a frame nor bring one. */
  ghost predicate Uneventful(acts: seq<Action>) {
    forall a | a in acts :: !a.Request? && !a.Upload?
  }

  lemma {:induction false} PendingStays(w: World, acts: seq<Action>)
    requires Uneventful(acts) && Run(w, acts).Some?
    ensures Run(w, acts).value.broker == w.broker
    decreases acts
  {
    if acts != [] {
      PendingStays(Next(w, acts[0]), acts[1..]);
    }
  }

  /** The first upload after a request answers it, with the uploaded bytes, and the one after that
      carries an id of its own. */
  lemma NextUploadAnswersRequest(w: World, id: nat, question: string, between: seq<Action>,
                                 bytes: seq<byte>, freshId: nat, more: seq<byte>, nextId: nat)
    requires Enabled(w, Request(id, question))
    requires Uneventful(between) && Run(Next(w, Request(id, question)), between).Some?
    ensures
      var asked := Run(Next(w, Request(id, question)), between).value;
      var answered := UploadStep(asked, bytes, freshId);
      var unasked := UploadStep(answered, more, nextId);
      && (var f := answered.published[|answered.published| - 1];
          f.requestId == id && f.question == question && f.bytes == bytes)
      && (var g := unasked.published[|unasked.published| - 1];
          g.requestId == nextId && g.question == "" && g.bytes == more)
  {
    PendingStays(Next(w, Request(id, question)), between);
  }

  /** A delivered frame is newer than the argument and was uploaded after the caller read the generation. */
  lemma DeliveredIsNew(acts: seq<Action>)
    requires Run(Init, acts).Some? && Run(Init, acts).value.phase.Delivered?
    ensures
      var w := Run(Init, acts).value;
      && w.phase.frame.generation > w.after
      && w.base <= w.phase.index < |w.published| && w.published[w.phase.index] == w.phase.frame
  {
    InvRun(Init, acts);
  }

  /** The generation a wait asks to exceed. */
  function Argument(w: World): nat {
    if w.phase.Ready? then w.phase.after else w.after
  }

  lemma {:induction false} ArgumentStays(w: World, acts: seq<Action>)
    requires !w.phase.Idle? && Run(w, acts).Some?
    ensures !Run(w, acts).value.phase.Idle? && Argument(Run(w, acts).value) == Argument(w)
    decreases acts
  {
    if acts != [] {
      ArgumentStays(Next(w, acts[0]), acts[1..]);
    }
  }

  /** A caller that reads the generation and waits gets a frame uploaded after that, newer than both
      the generation it read and the one it was asked for. */
  lemma WaitedFrameIsNew(before: seq<Action>, asked: nat, acts: seq<Action>)
    requires Run(Init, before).Some? && Run(Init, before).value.phase.Idle?
    requires Run(Next(Run(Init, before).value, ReadGeneration(asked)), acts).Some?
    requires Run(Next(Run(Init, before).value, ReadGeneration(asked)), acts).value.phase.Delivered?
    ensures
      var w := Run(Init, before).value;
      var e := Run(Next(w, ReadGeneration(asked)), acts).value;
      && e.phase.frame.generation > asked && e.phase.frame.generation > w.broker.generation
      && |w.published| <= e.phase.index < |e.published| && e.published[e.phase.index] == e.phase.frame
  {
    var w := Run(Init, before).value;
    var r := Next(w, ReadGeneration(asked));
    InvRun(Init, before);
    InvStep(w, ReadGeneration(asked));
    InvRun(r, acts);
    ArgumentStays(r, acts);
  }

  lemma {:induction false} DeadlineStays(w: World, acts: seq<Action>)
    requires !w.phase.Idle? && !w.phase.Ready? && Run(w, acts).Some?
    ensures
      var e := Run(w, acts).value;
      !e.phase.Idle? && !e.phase.Ready? && e.deadline == w.deadline
    decreases acts
  {
    if acts != [] {
      DeadlineStays(Next(w, acts[0]), acts[1..]);
    }
  }

  /** A wait gives up no sooner than its timeout after it began. */
  lemma GivesUpAfterTimeout(before: seq<Action>, timeout: nat, acts: seq<Action>)
    requires Run(Init, before).Some? && Run(Init, before).value.phase.Ready?
    requires Run(Next(Run(Init, before).value, Begin(timeout)), acts).Some?
    requires Run(Next(Run(Init, before).value, Begin(timeout)), acts).value.phase.GaveUp?
    ensures
      var w := Run(Init, before).value;
      Run(Next(w, Begin(timeout)), acts).value.now >= w.now + timeout
  {
    var w := Run(Init, before).value;
    InvRun(Init, before);
    InvStep(w, Begin(timeout));
    InvRun(Next(w, Begin(timeout)), acts);
    DeadlineStays(Next(w, Begin(timeout)), acts);
  }

  /** A wait gives up only if its last look saw no newer frame, and if it slept, no newer frame at
      all was uploaded before the deadline. */
  lemma GivingUpIsJustified(acts: seq<Action>)
    requires Run(Init, acts).Some? && Run(Init, acts).value.phase.GaveUp?
    ensures
      var w := Run(Init, acts).value;
      && |w.times| == |w.published|
      && w.looked <= |w.published|
      && (forall k :: 0 <= k < w.looked ==> w.published[k].generation <= w.after)
      && (w.phase.slept ==>
            forall k :: 0 <= k < |w.published| && w.times[k] < w.deadline ==> w.published[k].generation <= w.after)
  {
    InvRun(Init, acts);
    var w := Run(Init, acts).value;
    forall k | 0 <= k < w.looked ensures w.published[k].generation <= w.after {
      assert w.published[k].generation == Saturated(k + 1);
    }
  }

  /** The waiter cannot give up any more: a newer frame is there and another look is still to come. */
  ghost predicate Committed(w: World) {
    && CounterOk(w) && w.broker.generation > w.after
    && (w.phase.Checking? || w.phase.Measured? || w.phase.Registered? || w.phase.LastLook? || w.phase.Delivered?)
  }

  lemma CommittedStep(w: World, a: Action)
    requires Committed(w) && Enabled(w, a)
    ensures Committed(Next(w, a))
  {
    match a
    case Upload(bytes, freshId) => UploadKeepsCounter(w, bytes, freshId);
    case _ =>
  }

  /** A frame uploaded while the waiter is listening, or about to, is never lost, whether or not the
      notification reaches it. */
  lemma {:induction false} NewerFrameIsDelivered(w: World, acts: seq<Action>)
    requires Committed(w) && Run(w, acts).Some?
    ensures Committed(Run(w, acts).value)
    decreases acts
  {
    if acts != [] {
      CommittedStep(w, acts[0]);
      NewerFrameIsDelivered(Next(w, acts[0]), acts[1..]);
    }
  }

  /** Even with its notification lost, a listening waiter gets the newer frame at the deadline. */
  lemma LostNotificationIsRecovered(w: World, d: nat)
    requires Committed(w) && w.phase.Registered? && w.now + d >= w.phase.wakeAt
    ensures var end := Run(w, [Tick(d), Elapse, FinalLook]);
            end.Some? && end.value.phase.Delivered? && end.value.phase.frame == w.broker.latest.value
  {
    var acts := [Tick(d), Elapse, FinalLook];
    assert acts[1..] == [Elapse, FinalLook] && acts[1..][1..] == [FinalLook] && acts[1..][1..][1..] == [];
    var w1 := Next(w, Tick(d));
    var w2 := Next(w1, Elapse);
    assert Enabled(w2, FinalLook);
    assert Run(Next(w2, FinalLook), []) == Some(Next(w2, FinalLook));
    assert Run(w2, [FinalLook]) == Some(Next(w2, FinalLook));
    assert Run(w1, [Elapse, FinalLook]) == Run(w2, [FinalLook]);
  }

  /** The exit for no time left does not look again: a frame uploaded between the look and the
      deadline is missed although it is newer and in time. */
  lemma NoTimeLeftCanMiss(bytes: seq<byte>)
    ensures
      exists acts ::
        && Run(Init, acts).Some?
        && (var w := Run(Init, acts).value;
            && w.phase == GaveUp(false) && |w.published| == |w.times| == 1
            && w.times[0] < w.deadline && w.published[0].generation > w.after)
  {
    var w1 := Next(Init, ReadGeneration(0));
    var w2 := Next(w1, Begin(5));
    var w3 := Next(w2, Look);
    var w4 := Next(w3, Upload(bytes, 7));
    var w5 := Next(w4, Tick(5));
    var w6 := Next(w5, Measure);
    RunOn(w5, Measure, [], w6);
    RunOn(w4, Tick(5), [Measure], w6);
    RunOn(w3, Upload(bytes, 7), [Tick(5)] + [Measure], w6);
    var rest := [Upload(bytes, 7)] + ([Tick(5)] + [Measure]);
    RunOn(w2, Look, rest, w6);
    RunOn(w1, Begin(5), [Look] + rest, w6);
    RunOn(Init, ReadGeneration(0), [Begin(5)] + ([Look] + rest), w6);
  }

  lemma RunOn(w: World, a: Action, rest: seq<Action>, end: World)
    requires Enabled(w, a) && Run(Next(w, a), rest) == Some(end)
    ensures Run(w, [a] + rest) == Some(end)
  {
    assert ([a] + rest)[1..] == rest;
  }

  // ---- Exactly when a frame that comes in time can be missed ----

  /** A newer frame was uploaded before the deadline. */
  ghost predicate InTime(w: World) {
    exists k ::
      && 0 <= k < |w.published| && k < |w.times|
      && w.times[k] < w.deadline && w.published[k].generation > w.after
  }

  ghost predicate Missed(w: World) {
    w.phase.GaveUp? && InTime(w)
  }

  ghost predicate CanMiss(w: World) {
    exists acts :: Run(w, acts).Some? && Missed(Run(w, acts).value)
  }

  /**
   Where the danger lies.  Between its look and its reckoning of the time left
   the waiter misses whatever comes; before the look it must still be in time and
   have nothing to take; while it listens something must first wake it, an upload
   that is not yet newer than asked, so that it looks once more.
   */
  ghost predicate Exposed(w: World) {
    && w.after < MAX_U64
    && match w.phase
       case Checking => !HasNewer(w.broker, w.after) && w.now < w.deadline
       case Unregistered => w.now < w.deadline || InTime(w)
       case Measured(_) => w.broker.generation < w.after && w.now < w.deadline
       case Registered(woken, _) =>
         && !HasNewer(w.broker, w.after) && w.now < w.deadline
         && (woken || w.broker.generation < w.after)
       case GaveUp(_) => InTime(w)
       case _ => false
  }

  predicate Begun(w: World) {
    !w.phase.Idle? && !w.phase.Ready?
  }

  lemma NewerIff(w: World)
    requires CounterOk(w)
    ensures HasNewer(w.broker, w.after) <==> w.broker.generation > w.after
    ensures InTime(w) ==> w.broker.generation > w.after && w.after < MAX_U64
    ensures HasNewer(w.broker, w.after) <==>
              exists k :: 0 <= k < |w.published| && w.published[k].generation > w.after
  {
    if w.published != [] {
      assert w.published[|w.published| - 1].generation == w.broker.generation;
    }
  }

  lemma UploadInTimeIff(w: World, bytes: seq<byte>, freshId: nat)
    requires CounterOk(w)
    ensures InTime(UploadStep(w, bytes, freshId)) <==>
              InTime(w) || (w.now < w.deadline && Saturated(w.broker.generation + 1) > w.after)
  {
    var u := UploadStep(w, bytes, freshId);
    assert u.published[|w.published|].generation == Saturated(w.broker.generation + 1);
    assert u.times[|w.times|] == w.now;
    if k :| 0 <= k < |w.published| && w.times[k] < w.deadline && w.published[k].generation > w.after {
      assert u.times[k] == w.times[k] && u.published[k] == w.published[k];
    }
    if k :| 0 <= k < |u.published| && u.times[k] < w.deadline && u.published[k].generation > w.after {
      if k < |w.published| {
        assert w.times[k] == u.times[k] && w.published[k] == u.published[k];
      }
    }
  }

  lemma SafeUpload(w: World, bytes: seq<byte>, freshId: nat)
    requires Inv(w) && Begun(w) && !Exposed(w) && Enabled(w, Upload(bytes, freshId))
    ensures !Exposed(UploadStep(w, bytes, freshId))
  {
    UploadKeepsCounter(w, bytes, freshId);
    UploadInTimeIff(w, bytes, freshId);
    NewerIff(w);
    NewerIff(UploadStep(w, bytes, freshId));
  }

  lemma SafeStep(w: World, a: Action)
    requires Inv(w) && Begun(w) && !Exposed(w) && Enabled(w, a)
    ensures Begun(Next(w, a)) && !Exposed(Next(w, a))
  {
    NewerIff(w);
    if a.Upload? {
      SafeUpload(w, a.bytes, a.freshId);
    } else {
      SameInTime(w, Next(w, a));
    }
  }

  lemma SameInTime(w: World, u: World)
    requires u.published == w.published && u.times == w.times && u.deadline == w.deadline && u.after == w.after
    ensures InTime(u) <==> InTime(w)
  {
  }

  lemma {:induction false} SafeRun(w: World, acts: seq<Action>)
    requires Inv(w) && Begun(w) && !Exposed(w) && Run(w, acts).Some?
    ensures !Missed(Run(w, acts).value)
    decreases acts
  {
    if acts != [] {
      InvStep(w, acts[0]);
      SafeStep(w, acts[0]);
      SafeRun(Next(w, acts[0]), acts[1..]);
    } else if InTime(w) {
      NewerIff(w);
    }
  }

  lemma MissAfter(w: World, a: Action)
    requires Enabled(w, a) && CanMiss(Next(w, a))
    ensures CanMiss(w)
  {
    var acts :| Run(Next(w, a), acts).Some? && Missed(Run(Next(w, a), acts).value);
    RunOn(w, a, acts, Run(Next(w, a), acts).value);
    assert Missed(Run(w, [a] + acts).value);
  }

  /** A frame is already there in time: the waiter only has to run out of time. */
  lemma ThereAlready(w: World)
    requires Inv(w) && w.phase.Unregistered? && InTime(w)
    ensures CanMiss(w)
  {
    var d := if w.now < w.deadline then w.deadline - w.now else 0;
    var w1 := Next(w, Tick(d));
    var w2 := Next(w1, Measure);
    SameInTime(w, w2);
    assert Run(w2, []) == Some(w2) && Missed(w2);
    MissAfter(w1, Measure);
    MissAfter(w, Tick(d));
  }

  /** Enough uploads make a newer frame, in time, while the waiter is not listening. */
  lemma {:induction false} UploadsComeInTime(w: World)
    requires Inv(w) && w.phase.Unregistered? && w.now < w.deadline && w.after < MAX_U64
    ensures CanMiss(w)
    decreases if w.broker.generation <= w.after then w.after + 1 - w.broker.generation else 0
  {
    NewerIff(w);
    var id := Fresh.Above(w.issued);
    if InTime(w) {
      ThereAlready(w);
    } else {
      var a := Upload([], id);
      InvStep(w, a);
      UploadInTimeIff(w, [], id);
      if w.broker.generation >= w.after {
        ThereAlready(Next(w, a));
      } else {
        UploadsComeInTime(Next(w, a));
      }
      MissAfter(w, a);
    }
  }

  lemma LookThenMiss(w: World)
    requires Inv(w) && w.phase.Checking? && Exposed(w)
    ensures CanMiss(w)
  {
    InvStep(w, Look);
    UploadsComeInTime(Next(w, Look));
    MissAfter(w, Look);
  }

  lemma WakeThenMiss(w: World)
    requires Inv(w) && w.phase.Registered? && Exposed(w)
    ensures CanMiss(w)
  {
    if w.phase.woken {
      InvStep(w, Wake);
      LookThenMiss(Next(w, Wake));
      MissAfter(w, Wake);
    } else {
      var id := Fresh.Above(w.issued);
      var a := Upload([], id);
      InvStep(w, a);
      var u := Next(w, a);
      NewerIff(u);
      InvStep(u, Wake);
      LookThenMiss(Next(u, Wake));
      MissAfter(u, Wake);
      MissAfter(w, a);
    }
  }

  /**
   From any state of a wait, some schedule misses a newer frame that was uploaded
   before the deadline exactly when the waiter is exposed.
   */
  lemma CanMissIff(w: World)
    requires Inv(w) && Begun(w)
    ensures CanMiss(w) <==> Exposed(w)
  {
    NewerIff(w);
    if Exposed(w) {
      match w.phase
      case Checking => LookThenMiss(w);
      case Unregistered => if InTime(w) { ThereAlready(w); } else { UploadsComeInTime(w); }
      case Measured(_) =>
        InvStep(w, Register);
        WakeThenMiss(Next(w, Register));
        MissAfter(w, Register);
      case Registered(_, _) => WakeThenMiss(w);
      case GaveUp(_) => assert Run(w, []) == Some(w);
    } else if acts :| Run(w, acts).Some? && Missed(Run(w, acts).value) {
      SafeRun(w, acts);
    }
  }

  /** For the caller: a wait can miss such a frame exactly when it is given any time at all and asks for
      a generation that is not there yet but can still come. */
  lemma CallCanMissIff(w: World, timeout: nat)
    requires Inv(w) && w.phase.Ready?
    ensures CanMiss(Next(w, Begin(timeout))) <==>
              timeout > 0 && w.phase.after < MAX_U64 && !HasNewer(w.broker, w.phase.after)
  {
    InvStep(w, Begin(timeout));
    CanMissIff(Next(w, Begin(timeout)));
  }
}
