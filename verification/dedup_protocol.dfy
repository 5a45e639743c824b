/**
 Every interleaving of requests passing through the de-duplication middleware.

 A request is a small program whose atomic steps are the middleware's critical
 sections and await points.  `Next` performs one step, `Run` a whole schedule.
 A `Policy` restricts schedules: whether `clear()` may be called and whether
 the future of a running leader may be dropped.
 */
module DedupProtocol {
  import opened Options
  import opened DedupTable

  datatype Phase =
    | Waiting(chan: nat, from: nat)   // subscribed to a leader's channel
    | Orphan                          // recv() failed, about to take the lock again
    | Leading                         // about to call the handler
    | Running(version: nat)           // handler has read handler generation `version`
    | Collected(entry: Cached)        // response collected, about to publish
    | Finished(entry: Cached)         // response returned to the client
    | Dropped                         // future dropped by the client

  datatype Request = Request(key: Key, phase: Phase)

  /** `owner` is history: which request opened each channel. */
  datatype System = System(
    table: Table,
    requests: map<nat, Request>,
    now: nat,
    live: nat,
    owner: map<nat, nat>,
    ttls: map<string, nat>)

  datatype Action =
    | Arrive(r: nat, key: Key)
    | Receive(r: nat)
    | Retake(r: nat)
    | Dispatch(r: nat)
    | Collect(r: nat, content: Content)
    | Complete(r: nat)
    | Drop(r: nat)
    | ClearTable
    | Swap
    | Tick(d: nat)

  datatype Policy = Policy(clears: bool, leaderDrops: bool)

  const Quiet := Policy(false, false)
  const Clearing := Policy(true, false)
  const NoClears := Policy(false, true)
  const Anything := Policy(true, true)

  function Init(ttls: map<string, nat>): System {
    System(Empty, map[], 0, 0, map[], ttls)
  }

  predicate IsLeader(s: System, r: nat) {
    r in s.requests &&
    var p := s.requests[r].phase; p.Leading? || p.Running? || p.Collected?
  }

  /** A request for `k` that is executing the handler. */
  predicate LeadsOn(s: System, r: nat, k: Key) {
    IsLeader(s, r) && s.requests[r].key == k
  }

  function SetPhase(s: System, r: nat, p: Phase): System
    requires r in s.requests
  {
    s.(requests := s.requests[r := s.requests[r].(phase := p)])
  }

  /** Records `r` as the owner of any channel opened between `s.table` and `t`. */
  function SetTable(s: System, t: Table, r: nat): System {
    s.(table := t, owner := if t.next > s.table.next then s.owner[s.table.next := r] else s.owner)
  }

  function ArriveStep(s: System, r: nat, k: Key): Option<System> {
    if r in s.requests || k.path !in s.ttls then None else
    var (t, outcome) := Enter(s.table, k, s.ttls[k.path], s.now);
    var phase := match outcome
      case Hit(e) => Finished(e)
      case Join(c, from) => Waiting(c, from)
      case Lead => Leading;
    Some(SetTable(s, t, r).(requests := s.requests[r := Request(k, phase)]))
  }

  /** What `recv()` gives a follower; None while it has to wait. */
  function Reception(t: Table, chan: nat, from: nat): Option<Phase> {
    var sent := if chan in t.log then t.log[chan] else [];
    if |sent| > from + CHANNEL_CAPACITY then Some(Orphan)      // lagged
    else if |sent| > from then Some(Finished(sent[from]))
    else if !IsOpen(t, chan) then Some(Orphan)                 // closed
    else None
  }

  function ReceiveStep(s: System, r: nat): Option<System> {
    if r !in s.requests || !s.requests[r].phase.Waiting? then None else
    var w := s.requests[r].phase;
    var got := Reception(s.table, w.chan, w.from);
    if got.None? then None else Some(SetPhase(s, r, got.value))
  }

  function RetakeStep(s: System, r: nat): Option<System> {
    if r !in s.requests || !s.requests[r].phase.Orphan? then None else
    Some(SetPhase(SetTable(s, TakeOver(s.table, s.requests[r].key), r), r, Leading))
  }

  /** The handler reads the live handler tree. */
  function DispatchStep(s: System, r: nat): Option<System> {
    if r !in s.requests || !s.requests[r].phase.Leading? then None else
    Some(SetPhase(s, r, Running(s.live)))
  }

  function CollectStep(s: System, r: nat, content: Content): Option<System> {
    if r !in s.requests || !s.requests[r].phase.Running? then None else
    var q := s.requests[r];
    Some(SetPhase(s, r, Collected(Cached(content, s.now, q.key, r, q.phase.version))))
  }

  function CompleteStep(s: System, r: nat): Option<System> {
    if r !in s.requests || !s.requests[r].phase.Collected? then None else
    var q := s.requests[r];
    Some(SetPhase(s, r, Finished(q.phase.entry)).(table := Publish(s.table, q.key, q.phase.entry)))
  }

  function DropStep(s: System, r: nat): Option<System> {
    if r !in s.requests || s.requests[r].phase.Finished? then None else
    Some(SetPhase(s, r, Dropped))
  }

  function Next(s: System, a: Action): Option<System> {
    match a
    case Arrive(r, k) => ArriveStep(s, r, k)
    case Receive(r) => ReceiveStep(s, r)
    case Retake(r) => RetakeStep(s, r)
    case Dispatch(r) => DispatchStep(s, r)
    case Collect(r, content) => CollectStep(s, r, content)
    case Complete(r) => CompleteStep(s, r)
    case Drop(r) => DropStep(s, r)
    case ClearTable => Some(s.(table := Clear(s.table)))
    case Swap => Some(s.(live := s.live + 1))
    case Tick(d) => Some(s.(now := s.now + d))
  }

  predicate Permitted(p: Policy, s: System, a: Action) {
    (a.ClearTable? ==> p.clears) && (a.Drop? && IsLeader(s, a.r) ==> p.leaderDrops)
  }

  function Step(p: Policy, s: System, a: Action): Option<System> {
    if Permitted(p, s, a) then Next(s, a) else None
  }

  function Run(p: Policy, s: System, acts: seq<Action>): Option<System>
    decreases acts
  {
    if acts == [] then Some(s) else
    var n := Step(p, s, acts[0]);
    if n.None? then None else Run(p, n.value, acts[1..])
  }

  lemma {:induction false} RunConcat(p: Policy, s: System, a: seq<Action>, b: seq<Action>)
    ensures Run(p, s, a + b) ==
            (var m := Run(p, s, a); if m.None? then None else Run(p, m.value, b))
    decreases a
  {
    if a == [] {
      assert a + b == b;
    } else {
      assert (a + b)[1..] == a[1..] + b;
      var n := Step(p, s, a[0]);
      if n.Some? {
        RunConcat(p, n.value, a[1..], b);
      }
    }
  }

  // ---------------------------------------------------------------------------
  // What every schedule keeps
  // ---------------------------------------------------------------------------

  /** `e` is the response that some request for exactly `k` executed and returned itself. */
  ghost predicate ResultFor(s: System, e: Cached, k: Key) {
    && e.key == k
    && e.executor in s.requests && s.requests[e.executor] == Request(k, Finished(e))
    && e.created <= s.now && e.version <= s.live
  }

  ghost predicate ChannelsOk(s: System) {
    && (forall c: nat :: c in s.owner <==> c < s.table.next)
    && (forall c: nat :: c in s.table.log <==> c < s.table.next)
    && (forall c | c in s.owner :: s.owner[c] in s.requests)
  }

  /** At most one message per channel, and only a result for the channel's key. */
  ghost predicate MessagesOk(s: System)
    requires ChannelsOk(s)
  {
    forall c | c in s.table.log ::
      |s.table.log[c]| <= 1 &&
      (|s.table.log[c]| == 1 ==> ResultFor(s, s.table.log[c][0], s.requests[s.owner[c]].key))
  }

  /** An open channel belongs to its key and has carried nothing yet. */
  ghost predicate InflightOk(s: System)
    requires ChannelsOk(s)
  {
    forall k | k in s.table.inflight ::
      var c := s.table.inflight[k];
      c < s.table.next && s.requests[s.owner[c]].key == k && s.table.log[c] == []
  }

  ghost predicate RequestOk(s: System, r: nat)
    requires r in s.requests && ChannelsOk(s)
  {
    var k := s.requests[r].key;
    match s.requests[r].phase
    case Waiting(c, from) => c < s.table.next && from == 0 && s.requests[s.owner[c]].key == k
    case Running(v) => v <= s.live
    case Collected(e) => e.key == k && e.executor == r && e.created <= s.now && e.version <= s.live
    case Finished(e) => ResultFor(s, e, k)
    case _ => true
  }

  ghost predicate Inv(s: System) {
    && ChannelsOk(s) && MessagesOk(s) && InflightOk(s)
    && (forall r | r in s.requests :: RequestOk(s, r))
    && (forall k | k in s.table.cache :: ResultFor(s, s.table.cache[k], k))
  }

  /** Requests keep their keys and their answers; time and the handler generation only grow. */
  ghost predicate Grows(s: System, s': System) {
    && (forall r | r in s.requests :: r in s'.requests && s'.requests[r].key == s.requests[r].key)
    && (forall r | r in s.requests && s.requests[r].phase.Finished? :: s'.requests[r] == s.requests[r])
    && s.now <= s'.now && s.live <= s'.live
  }

  lemma CacheStable(s: System, s': System)
    requires Grows(s, s') && s'.table.cache == s.table.cache
    requires forall k | k in s.table.cache :: ResultFor(s, s.table.cache[k], k)
    ensures forall k | k in s'.table.cache :: ResultFor(s', s'.table.cache[k], k)
  {
  }

  lemma MessagesStable(s: System, s': System)
    requires ChannelsOk(s) && ChannelsOk(s') && MessagesOk(s) && Grows(s, s')
    requires s'.table.log == s.table.log && s'.owner == s.owner
    ensures MessagesOk(s')
  {
    forall c | c in s'.table.log
      ensures |s'.table.log[c]| <= 1
      ensures |s'.table.log[c]| == 1 ==> ResultFor(s', s'.table.log[c][0], s'.requests[s'.owner[c]].key)
    {
    }
  }

  lemma RequestStable(s: System, s': System, q: nat)
    requires ChannelsOk(s) && ChannelsOk(s') && Grows(s, s') && s.table.next <= s'.table.next
    requires forall c | c in s.owner :: c in s'.owner && s'.owner[c] == s.owner[c]
    requires q in s.requests && q in s'.requests && s'.requests[q] == s.requests[q]
    requires RequestOk(s, q)
    ensures RequestOk(s', q)
  {
  }

  lemma PhaseKeepsInv(s: System, r: nat, p: Phase)
    requires Inv(s) && r in s.requests && !s.requests[r].phase.Finished?
    requires RequestOk(SetPhase(s, r, p), r)
    ensures Inv(SetPhase(s, r, p))
  {
    var s' := SetPhase(s, r, p);
    assert Grows(s, s');
    assert ChannelsOk(s');
    assert InflightOk(s');
    MessagesStable(s, s');
    forall q | q in s'.requests ensures RequestOk(s', q) {
      if q != r { RequestStable(s, s', q); }
    }
    CacheStable(s, s');
  }

  lemma JoinKeepsInv(s: System, r: nat, k: Key, p: Phase)
    requires Inv(s) && r !in s.requests
    requires RequestOk(s.(requests := s.requests[r := Request(k, p)]), r)
    ensures Inv(s.(requests := s.requests[r := Request(k, p)]))
  {
    var s' := s.(requests := s.requests[r := Request(k, p)]);
    assert Grows(s, s');
    assert ChannelsOk(s') && MessagesOk(s') && InflightOk(s');
    forall q | q in s'.requests ensures RequestOk(s', q) {
      if q != r { assert RequestOk(s, q); }
    }
  }

  function OpenedBy(s: System, r: nat): System
    requires r in s.requests
  {
    SetTable(s, Open(s.table, s.requests[r].key), r)
  }

  lemma OpenedFrame(s: System, r: nat)
    requires ChannelsOk(s) && r in s.requests
    ensures ChannelsOk(OpenedBy(s, r)) && Grows(s, OpenedBy(s, r))
    ensures s.table.next !in s.owner && s.table.next !in s.table.log
    ensures forall c | c in s.owner :: c in OpenedBy(s, r).owner && OpenedBy(s, r).owner[c] == s.owner[c]
  {
  }

  lemma OpenedMessages(s: System, r: nat)
    requires ChannelsOk(s) && MessagesOk(s) && r in s.requests
    ensures ChannelsOk(OpenedBy(s, r)) && MessagesOk(OpenedBy(s, r))
  {
    OpenedFrame(s, r);
    var s' := OpenedBy(s, r);
    forall c | c in s'.table.log
      ensures |s'.table.log[c]| <= 1
      ensures |s'.table.log[c]| == 1 ==> ResultFor(s', s'.table.log[c][0], s'.requests[s'.owner[c]].key)
    {
      if c != s.table.next { assert s'.table.log[c] == s.table.log[c]; }
    }
  }

  lemma OpenedInflight(s: System, r: nat)
    requires ChannelsOk(s) && InflightOk(s) && r in s.requests
    ensures ChannelsOk(OpenedBy(s, r)) && InflightOk(OpenedBy(s, r))
  {
    OpenedFrame(s, r);
  }

  lemma OpenKeepsInv(s: System, r: nat)
    requires Inv(s) && r in s.requests
    ensures Inv(OpenedBy(s, r))
  {
    var s' := OpenedBy(s, r);
    OpenedFrame(s, r);
    OpenedMessages(s, r);
    OpenedInflight(s, r);
    forall q | q in s'.requests ensures RequestOk(s', q) {
      RequestStable(s, s', q);
    }
    CacheStable(s, s');
  }

  lemma ForgetKeepsInv(s: System, k: Key)
    requires Inv(s)
    ensures Inv(s.(table := s.table.(cache := s.table.cache - {k})))
  {
  }

  function Forgotten(s: System, k: Key): System {
    s.(table := s.table.(cache := s.table.cache - {k}))
  }

  lemma FollowerJoins(s: System, r: nat, k: Key)
    requires Inv(s) && r !in s.requests && k in s.table.inflight
    ensures Inv(s.(requests := s.requests[r := Request(k, Waiting(s.table.inflight[k], 0))]))
  {
    JoinKeepsInv(s, r, k, Waiting(s.table.inflight[k], 0));
  }

  lemma LeaderJoins(s: System, r: nat, k: Key)
    requires Inv(s) && r !in s.requests
    ensures Inv(OpenedBy(s.(requests := s.requests[r := Request(k, Leading)]), r))
  {
    JoinKeepsInv(s, r, k, Leading);
    OpenKeepsInv(s.(requests := s.requests[r := Request(k, Leading)]), r);
  }

  /** The three outcomes of the first section. */
  lemma ArriveIs(s: System, r: nat, k: Key)
    requires ChannelsOk(s) && InflightOk(s) && ArriveStep(s, r, k).Some?
    ensures
      var s' := ArriveStep(s, r, k).value;
      var f := Forgotten(s, k);
      || (k in s.table.cache && s' == s.(requests := s.requests[r := Request(k, Finished(s.table.cache[k]))]))
      || (k in s.table.inflight
          && s' == f.(requests := s.requests[r := Request(k, Waiting(s.table.inflight[k], 0))]))
      || (k !in s.table.inflight && s' == OpenedBy(f.(requests := s.requests[r := Request(k, Leading)]), r))
  {
  }

  lemma InvArrive(s: System, r: nat, k: Key)
    requires Inv(s) && ArriveStep(s, r, k).Some?
    ensures Inv(ArriveStep(s, r, k).value)
  {
    ArriveIs(s, r, k);
    ForgetKeepsInv(s, k);
    LeaderJoins(Forgotten(s, k), r, k);
    if k in s.table.inflight {
      FollowerJoins(Forgotten(s, k), r, k);
    }
    if k in s.table.cache {
      JoinKeepsInv(s, r, k, Finished(s.table.cache[k]));
    }
  }

  lemma InvReceive(s: System, r: nat)
    requires Inv(s) && ReceiveStep(s, r).Some?
    ensures Inv(ReceiveStep(s, r).value)
  {
    assert RequestOk(s, r);
    PhaseKeepsInv(s, r, Reception(s.table, s.requests[r].phase.chan, s.requests[r].phase.from).value);
  }

  lemma InvRetake(s: System, r: nat)
    requires Inv(s) && RetakeStep(s, r).Some?
    ensures Inv(RetakeStep(s, r).value)
  {
    if s.requests[r].key in s.table.inflight {
      PhaseKeepsInv(s, r, Leading);
    } else {
      OpenKeepsInv(s, r);
      PhaseKeepsInv(SetTable(s, Open(s.table, s.requests[r].key), r), r, Leading);
    }
  }

  lemma PublishKeepsInv(s: System, k: Key, e: Cached)
    requires Inv(s) && ResultFor(s, e, k)
    ensures Inv(s.(table := Publish(s.table, k, e)))
  {
    var s' := s.(table := Publish(s.table, k, e));
    assert ChannelsOk(s');
    assert MessagesOk(s');
    assert InflightOk(s') by {
      forall j | j in s'.table.inflight ensures s'.table.log[s'.table.inflight[j]] == [] {
        assert j in s.table.inflight;
      }
    }
    forall q | q in s'.requests ensures RequestOk(s', q) {
      assert RequestOk(s, q);
    }
  }

  lemma InvComplete(s: System, r: nat)
    requires Inv(s) && CompleteStep(s, r).Some?
    ensures Inv(CompleteStep(s, r).value)
  {
    assert RequestOk(s, r);
    var e := s.requests[r].phase.entry;
    PhaseKeepsInv(s, r, Finished(e));
    PublishKeepsInv(SetPhase(s, r, Finished(e)), s.requests[r].key, e);
  }

  lemma ClockKeepsInv(s: System, now: nat, live: nat)
    requires Inv(s) && s.now <= now && s.live <= live
    ensures Inv(s.(now := now, live := live))
  {
    forall q | q in s.requests ensures RequestOk(s.(now := now, live := live), q) {
      assert RequestOk(s, q);
    }
  }

  lemma InvCollect(s: System, r: nat, content: Content)
    requires Inv(s) && CollectStep(s, r, content).Some?
    ensures Inv(CollectStep(s, r, content).value)
  {
    assert RequestOk(s, r);
    PhaseKeepsInv(s, r, CollectStep(s, r, content).value.requests[r].phase);
  }

  lemma InvClear(s: System)
    requires Inv(s)
    ensures Inv(s.(table := Clear(s.table)))
  {
    forall q | q in s.requests ensures RequestOk(s.(table := Clear(s.table)), q) {
      assert RequestOk(s, q);
    }
  }

  lemma InvDispatch(s: System, r: nat)
    requires Inv(s) && DispatchStep(s, r).Some?
    ensures Inv(DispatchStep(s, r).value)
  {
    PhaseKeepsInv(s, r, Running(s.live));
  }

  lemma InvDrop(s: System, r: nat)
    requires Inv(s) && DropStep(s, r).Some?
    ensures Inv(DropStep(s, r).value)
  {
    PhaseKeepsInv(s, r, Dropped);
  }

  lemma InvStep(s: System, a: Action)
    requires Inv(s) && Next(s, a).Some?
    ensures Inv(Next(s, a).value)
  {
    match a
    case Arrive(r, k) => InvArrive(s, r, k);
    case Receive(r) => InvReceive(s, r);
    case Retake(r) => InvRetake(s, r);
    case Dispatch(r) => InvDispatch(s, r);
    case Collect(r, content) => InvCollect(s, r, content);
    case Complete(r) => InvComplete(s, r);
    case Drop(r) => InvDrop(s, r);
    case ClearTable => InvClear(s);
    case Swap => ClockKeepsInv(s, s.now, s.live + 1);
    case Tick(d) => ClockKeepsInv(s, s.now + d, s.live);
  }

  /** A key in flight keeps its channel and its owner until somebody publishes for it or calls `clear()`. */
  lemma SenderStays(s: System, a: Action, k: Key)
    requires ChannelsOk(s) && InflightOk(s) && k in s.table.inflight && Next(s, a).Some?
    requires !a.ClearTable? && (a.Complete? ==> s.requests[a.r].key != k)
    ensures
      var s', c := Next(s, a).value, s.table.inflight[k];
      && k in s'.table.inflight && s'.table.inflight[k] == c
      && c in s.owner && c in s'.owner && s'.owner[c] == s.owner[c]
  {
    assert s.table.inflight[k] < s.table.next;
  }

  /** A channel's messages change only when its key's response is published. */
  lemma MessagesStay(s: System, a: Action, c: nat)
    requires ChannelsOk(s) && c < s.table.next && Next(s, a).Some?
    ensures
      var s' := Next(s, a).value;
      && c in s.table.log && c in s'.table.log
      && (if a.Complete? && s.requests[a.r].key in s.table.inflight && s.table.inflight[s.requests[a.r].key] == c
          then s'.table.log[c] == s.table.log[c] + [s.requests[a.r].phase.entry]
          else s'.table.log[c] == s.table.log[c])
  {
  }

  /** A leader leads until it publishes or is dropped. */
  lemma LeaderStays(s: System, a: Action, r: nat)
    requires IsLeader(s, r) && Next(s, a).Some? && a != Complete(r) && a != Drop(r)
    ensures LeadsOn(Next(s, a).value, r, s.requests[r].key)
  {
  }

  lemma {:induction false} InvRun(p: Policy, s: System, acts: seq<Action>)
    requires Inv(s) && Run(p, s, acts).Some?
    ensures Inv(Run(p, s, acts).value)
    decreases acts
  {
    if acts != [] {
      InvStep(s, acts[0]);
      InvRun(p, Next(s, acts[0]).value, acts[1..]);
    }
  }

  /**
   In every interleaving whatsoever, a request is only ever answered with the
   result of executing its own path and body, and no channel carries more than
   one message, so the capacity is never exceeded.
   */
  lemma AnswersMatchTheirKey(p: Policy, ttls: map<string, nat>, acts: seq<Action>)
    requires Run(p, Init(ttls), acts).Some?
    ensures
      var s := Run(p, Init(ttls), acts).value;
      && (forall r | r in s.requests && s.requests[r].phase.Finished? ::
            ResultFor(s, s.requests[r].phase.entry, s.requests[r].key))
      && (forall c | c in s.table.log :: |s.table.log[c]| <= 1 < CHANNEL_CAPACITY)
  {
    InvRun(p, Init(ttls), acts);
    var s := Run(p, Init(ttls), acts).value;
    forall r | r in s.requests && s.requests[r].phase.Finished?
      ensures ResultFor(s, s.requests[r].phase.entry, s.requests[r].key)
    {
      assert RequestOk(s, r);
    }
  }
}
