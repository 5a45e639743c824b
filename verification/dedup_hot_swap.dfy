/**
 Which responses of replaced handlers can still be delivered.

 `Swap` replaces the live handler tree; `update_settings` follows it with
 `clear()`.  Everything below is about an arbitrary schedule: a state `s`, a
 swap, any steps, a `clear()`, and any steps after that.
 */
module DedupHotSwap {
  import opened Options
  import opened DedupTable
  import opened DedupProtocol
  import opened DedupStranding
  import Fresh

  /** The requests that have already read a handler tree. */
  function HoldingHandlers(s: System): set<nat> {
    set r | r in s.requests && (s.requests[r].phase.Running? || s.requests[r].phase.Collected?)
  }

  /** Made by handlers at least as new as `v`, or by one of the requests in `prior`. */
  predicate Accounted(e: Cached, v: nat, prior: set<nat>) {
    e.version >= v || e.executor in prior
  }

  /** Whoever runs handlers older than `v` is one of `prior`. */
  ghost predicate OldRunnersIn(s: System, v: nat, prior: set<nat>) {
    && v <= s.live
    && (forall r | r in s.requests && s.requests[r].phase.Running? ::
          s.requests[r].phase.version >= v || r in prior)
    && (forall r | r in s.requests && s.requests[r].phase.Collected? ::
          Accounted(s.requests[r].phase.entry, v, prior))
  }

  /** Channels that already carry an unaccounted message when the table is cleared. */
  function StaleChannels(s: System, v: nat, prior: set<nat>): set<nat> {
    set c | c in s.table.log && s.table.log[c] != [] && !Accounted(s.table.log[c][0], v, prior)
  }

  /** Requests answered by the time of the clear, or whose answer is already in their channel. */
  function Settled(s: System, stale: set<nat>): set<nat> {
    set r | r in s.requests &&
            (s.requests[r].phase.Finished? ||
             (s.requests[r].phase.Waiting? && s.requests[r].phase.chan in stale))
  }

  ghost predicate Cleaned(s: System, v: nat, prior: set<nat>, stale: set<nat>, settled: set<nat>) {
    && OldRunnersIn(s, v, prior)
    && (forall k | k in s.table.cache :: Accounted(s.table.cache[k], v, prior))
    && (forall c | c in s.table.log && s.table.log[c] != [] :: c in stale || Accounted(s.table.log[c][0], v, prior))
    && (forall c | c in stale :: c in s.table.log && s.table.log[c] != [])
    && (forall r | r in s.requests && s.requests[r].phase.Waiting? && s.requests[r].phase.chan in stale :: r in settled)
    && (forall r | r in s.requests && s.requests[r].phase.Finished? ::
          r in settled || Accounted(s.requests[r].phase.entry, v, prior))
  }

  lemma OldRunnersStep(s: System, a: Action, v: nat, prior: set<nat>)
    requires Inv(s) && OldRunnersIn(s, v, prior) && Next(s, a).Some?
    ensures OldRunnersIn(Next(s, a).value, v, prior)
  {
  }

  lemma {:induction false} OldRunnersRun(s: System, acts: seq<Action>, v: nat, prior: set<nat>)
    requires Inv(s) && OldRunnersIn(s, v, prior) && Run(Anything, s, acts).Some?
    ensures OldRunnersIn(Run(Anything, s, acts).value, v, prior)
    decreases acts
  {
    if acts != [] {
      OldRunnersStep(s, acts[0], v, prior);
      InvStep(s, acts[0]);
      OldRunnersRun(Next(s, acts[0]).value, acts[1..], v, prior);
    }
  }

  lemma CleanedByClear(s: System, v: nat, prior: set<nat>)
    requires Inv(s) && OldRunnersIn(s, v, prior)
    ensures var stale := StaleChannels(s, v, prior);
            Cleaned(Next(s, ClearTable).value, v, prior, stale, Settled(s, stale))
  {
  }

  lemma CleanedArrive(s: System, r: nat, k: Key, v: nat, prior: set<nat>, stale: set<nat>, settled: set<nat>)
    requires Inv(s) && Cleaned(s, v, prior, stale, settled) && ArriveStep(s, r, k).Some?
    ensures Cleaned(ArriveStep(s, r, k).value, v, prior, stale, settled)
  {
    OldRunnersStep(s, Arrive(r, k), v, prior);
    ArriveIs(s, r, k);
  }

  lemma CleanedComplete(s: System, r: nat, v: nat, prior: set<nat>, stale: set<nat>, settled: set<nat>)
    requires Inv(s) && Cleaned(s, v, prior, stale, settled) && CompleteStep(s, r).Some?
    ensures Cleaned(CompleteStep(s, r).value, v, prior, stale, settled)
  {
    OldRunnersStep(s, Complete(r), v, prior);
    assert RequestOk(s, r);
  }

  lemma CleanedRetake(s: System, r: nat, v: nat, prior: set<nat>, stale: set<nat>, settled: set<nat>)
    requires Inv(s) && Cleaned(s, v, prior, stale, settled) && RetakeStep(s, r).Some?
    ensures Cleaned(RetakeStep(s, r).value, v, prior, stale, settled)
  {
    OldRunnersStep(s, Retake(r), v, prior);
  }

  lemma CleanedReceive(s: System, r: nat, v: nat, prior: set<nat>, stale: set<nat>, settled: set<nat>)
    requires Inv(s) && Cleaned(s, v, prior, stale, settled) && ReceiveStep(s, r).Some?
    ensures Cleaned(ReceiveStep(s, r).value, v, prior, stale, settled)
  {
    OldRunnersStep(s, Receive(r), v, prior);
    assert RequestOk(s, r);
  }

  lemma CleanedStep(s: System, a: Action, v: nat, prior: set<nat>, stale: set<nat>, settled: set<nat>)
    requires Inv(s) && Cleaned(s, v, prior, stale, settled) && Next(s, a).Some?
    ensures Cleaned(Next(s, a).value, v, prior, stale, settled)
  {
    match a
    case Arrive(r, k) => CleanedArrive(s, r, k, v, prior, stale, settled);
    case Receive(r) => CleanedReceive(s, r, v, prior, stale, settled);
    case Retake(r) => CleanedRetake(s, r, v, prior, stale, settled);
    case Complete(r) => CleanedComplete(s, r, v, prior, stale, settled);
    case _ => OldRunnersStep(s, a, v, prior);
  }

  lemma {:induction false} CleanedRun(s: System, acts: seq<Action>, v: nat, prior: set<nat>, stale: set<nat>,
                                      settled: set<nat>)
    requires Inv(s) && Cleaned(s, v, prior, stale, settled) && Run(Anything, s, acts).Some?
    ensures Cleaned(Run(Anything, s, acts).value, v, prior, stale, settled)
    decreases acts
  {
    if acts != [] {
      CleanedStep(s, acts[0], v, prior, stale, settled);
      InvStep(s, acts[0]);
      CleanedRun(Next(s, acts[0]).value, acts[1..], v, prior, stale, settled);
    }
  }

  /** The state reached by: swap, the steps `before`, `clear()`, the steps `after`. */
  function AfterUpdate(s: System, before: seq<Action>, after: seq<Action>): Option<System> {
    Run(Anything, s, [Swap] + before + [ClearTable] + after)
  }

  /** The state in which the table is about to be cleared. */
  function AtClear(s: System, before: seq<Action>): Option<System> {
    Run(Anything, s, [Swap] + before)
  }

  lemma SplitUpdate(s: System, before: seq<Action>, after: seq<Action>)
    requires AfterUpdate(s, before, after).Some?
    ensures AtClear(s, before).Some?
    ensures Run(Anything, Next(s, Swap).value, before) == AtClear(s, before)
    ensures var m := Next(AtClear(s, before).value, ClearTable).value;
            Run(Anything, m, after) == AfterUpdate(s, before, after)
  {
    RunConcat(Anything, s, [Swap] + before + [ClearTable], after);
    RunConcat(Anything, s, [Swap] + before, [ClearTable]);
    assert ([Swap] + before)[1..] == before;
    if AtClear(s, before).Some? {
      var m := AtClear(s, before).value;
      assert Run(Anything, m, [ClearTable]) == Run(Anything, Next(m, ClearTable).value, [ClearTable][1..]);
    }
  }

  /**
   After a swap and a `clear()`, a request that had not been answered when the
   table was cleared, and whose answer was not already sitting in its channel,
   gets a response of the new handlers or of a leader that had already read the
   old handlers at the swap.
   */
  lemma OldHandlersOnlyThroughOldLeaders(s: System, before: seq<Action>, after: seq<Action>, r: nat)
    requires Inv(s) && AfterUpdate(s, before, after).Some?
    requires var prior := HoldingHandlers(s);
             var m := AtClear(s, before);
             m.Some? ==> r !in Settled(m.value, StaleChannels(m.value, s.live + 1, prior))
    requires var end := AfterUpdate(s, before, after).value;
             r in end.requests && end.requests[r].phase.Finished?
    ensures Accounted(AfterUpdate(s, before, after).value.requests[r].phase.entry, s.live + 1, HoldingHandlers(s))
  {
    var v, prior := s.live + 1, HoldingHandlers(s);
    SplitUpdate(s, before, after);
    var swapped, m := Next(s, Swap).value, AtClear(s, before).value;
    InvStep(s, Swap);
    assert OldRunnersIn(swapped, v, prior) by {
      forall q | q in swapped.requests && swapped.requests[q].phase.Collected?
        ensures Accounted(swapped.requests[q].phase.entry, v, prior)
      {
        assert RequestOk(s, q) && q in prior;
      }
    }
    OldRunnersRun(swapped, before, v, prior);
    InvRun(Anything, swapped, before);
    var stale := StaleChannels(m, v, prior);
    CleanedByClear(m, v, prior);
    InvStep(m, ClearTable);
    CleanedRun(Next(m, ClearTable).value, after, v, prior, stale, Settled(m, stale));
  }

  /**
   A request arriving once the table has been cleared that is answered from the
   cache by old handlers gets a response of a leader caught by the swap, and
   only while that response is younger than the method's TTL.
   */
  lemma StaleCacheHitsAreYoung(s: System, before: seq<Action>, after: seq<Action>, r: nat, k: Key)
    requires Inv(s) && AfterUpdate(s, before, after).Some?
    requires ArriveStep(AfterUpdate(s, before, after).value, r, k).Some?
    requires ArriveStep(AfterUpdate(s, before, after).value, r, k).value.requests[r].phase.Finished?
    ensures
      var end := AfterUpdate(s, before, after).value;
      var e := ArriveStep(end, r, k).value.requests[r].phase.entry;
      && Accounted(e, s.live + 1, HoldingHandlers(s))
      && k.path in end.ttls && end.now - e.created < end.ttls[k.path]
  {
    var v, prior := s.live + 1, HoldingHandlers(s);
    var acts := after + [Arrive(r, k)];
    var end := AfterUpdate(s, before, after).value;
    assert [Swap] + before + [ClearTable] + acts == ([Swap] + before + [ClearTable] + after) + [Arrive(r, k)];
    RunConcat(Anything, s, [Swap] + before + [ClearTable] + after, [Arrive(r, k)]);
    assert Run(Anything, end, [Arrive(r, k)]) == Run(Anything, ArriveStep(end, r, k).value, [Arrive(r, k)][1..]);
    SplitUpdate(s, before, after);
    if r in AtClear(s, before).value.requests {
      RequestsPersist(Next(AtClear(s, before).value, ClearTable).value, after, r);
    }
    OldHandlersOnlyThroughOldLeaders(s, before, acts, r);
  }

  lemma {:induction false} RequestsPersist(s: System, acts: seq<Action>, r: nat)
    requires r in s.requests && Run(Anything, s, acts).Some?
    ensures r in Run(Anything, s, acts).value.requests
    ensures Run(Anything, s, acts).value.requests[r].key == s.requests[r].key
    decreases acts
  {
    if acts != [] {
      RequestsPersist(Next(s, acts[0]).value, acts[1..], r);
    }
  }

  // ---------------------------------------------------------------------------
  // Exactly when an old response can still reach a newcomer
  // ---------------------------------------------------------------------------

  lemma RunOn(s: System, a: Action, rest: seq<Action>)
    requires Next(s, a).Some?
    ensures Run(Anything, s, [a] + rest) == Run(Anything, Next(s, a).value, rest)
  {
    assert ([a] + rest)[1..] == rest;
  }

  /** Request `n`, which arrives only after the clear, is answered for `k` by handlers older than the swap. */
  ghost predicate LateOldAnswer(s: System, before: seq<Action>, after: seq<Action>, n: nat, k: Key) {
    && AtClear(s, before).Some? && n !in AtClear(s, before).value.requests
    && AfterUpdate(s, before, after).Some?
    && var end := AfterUpdate(s, before, after).value;
       && n in end.requests && end.requests[n].key == k && end.requests[n].phase.Finished?
       && end.requests[n].phase.entry.version <= s.live
  }

  /** Some request for `k` has read the old handlers and not yet published. */
  predicate HoldsFor(s: System, r: nat, k: Key) {
    r in HoldingHandlers(s) && s.requests[r].key == k
  }

  lemma LateOldAnswerNeedsHolder(s: System, before: seq<Action>, after: seq<Action>, n: nat, k: Key)
    requires Inv(s) && LateOldAnswer(s, before, after, n, k)
    ensures exists r :: HoldsFor(s, r, k)
  {
    OldHandlersOnlyThroughOldLeaders(s, before, after, n);
    var whole := [Swap] + before + [ClearTable] + after;
    InvRun(Anything, s, whole);
    var end := AfterUpdate(s, before, after).value;
    assert RequestOk(end, n);
    var r := end.requests[n].phase.entry.executor;
    RequestsPersist(s, whole, r);
    assert HoldsFor(s, r, k);
  }

  /** With an empty table, a new leader's follower is answered by whoever publishes first. */
  lemma FollowerGetsOldResponse(s: System, r: nat, k: Key, lead: nat, n: nat)
    requires ChannelsOk(s) && k.path in s.ttls && s.table.inflight == map[] && s.table.cache == map[]
    requires r in s.requests && s.requests[r].key == k && s.requests[r].phase.Collected?
    requires lead !in s.requests && n !in s.requests && lead != n
    ensures
      var end := Run(Anything, s, [Arrive(lead, k)] + ([Arrive(n, k)] + ([Complete(r)] + [Receive(n)])));
      end.Some? && n in end.value.requests
      && end.value.requests[n] == Request(k, Finished(s.requests[r].phase.entry))
  {
    var s1 := Next(s, Arrive(lead, k)).value;
    var s2 := Next(s1, Arrive(n, k)).value;
    assert s2.requests[n] == Request(k, Waiting(s.table.next, 0));
    var s3 := Next(s2, Complete(r)).value;
    assert s3.table.log[s.table.next] == [s.requests[r].phase.entry];
    var s4 := Next(s3, Receive(n)).value;
    RunOn(s3, Receive(n), []);
    assert [Receive(n)] + [] == [Receive(n)];
    RunOn(s2, Complete(r), [Receive(n)]);
    RunOn(s1, Arrive(n, k), [Complete(r)] + [Receive(n)]);
    RunOn(s, Arrive(lead, k), [Arrive(n, k)] + ([Complete(r)] + [Receive(n)]));
  }

  lemma AfterUpdateAtOnce(s: System, after: seq<Action>)
    ensures AtClear(s, []) == Next(s, Swap)
    ensures AfterUpdate(s, [], after) == Run(Anything, Next(Next(s, Swap).value, ClearTable).value, after)
  {
    var m := Next(s, Swap).value;
    assert [Swap] + [] == [Swap] && [Swap][1..] == [];
    assert Run(Anything, m, []) == Some(m);
    assert [Swap] + [] + [ClearTable] + after == [Swap] + ([ClearTable] + after);
    RunOn(s, Swap, [ClearTable] + after);
    RunOn(m, ClearTable, after);
  }

  lemma HolderAnswersLate(s: System, r: nat, k: Key) returns (after: seq<Action>, n: nat)
    requires Inv(s) && HoldsFor(s, r, k) && k.path in s.ttls
    ensures LateOldAnswer(s, [], after, n, k)
  {
    n := Fresh.Above(s.requests.Keys);
    var lead := n + 1;
    assert RequestOk(s, r) && n !in s.requests && lead !in s.requests;
    InvStep(s, Swap);
    var swapped := Next(s, Swap).value;
    InvStep(swapped, ClearTable);
    var cleared := Next(swapped, ClearTable).value;
    var tail := [Arrive(lead, k)] + ([Arrive(n, k)] + ([Complete(r)] + [Receive(n)]));
    if s.requests[r].phase.Collected? {
      after := tail;
      FollowerGetsOldResponse(cleared, r, k, lead, n);
    } else {
      after := [Collect(r, AnyContent)] + tail;
      var collected := Next(cleared, Collect(r, AnyContent)).value;
      RunOn(cleared, Collect(r, AnyContent), tail);
      FollowerGetsOldResponse(collected, r, k, lead, n);
    }
    AfterUpdateAtOnce(s, after);
  }

  /**
   From any state, some schedule of swap and clear answers a request for `k` that
   arrives after the clear with an old response if and only if, at the swap, some
   request for `k` has read the old handlers and not yet published.
   */
  lemma OldResponseReachesNewcomerIff(s: System, k: Key)
    requires Inv(s) && k.path in s.ttls
    ensures (exists before, after, n :: LateOldAnswer(s, before, after, n, k)) <==> exists r :: HoldsFor(s, r, k)
  {
    if before, after, n :| LateOldAnswer(s, before, after, n, k) {
      LateOldAnswerNeedsHolder(s, before, after, n, k);
    }
    if r :| HoldsFor(s, r, k) {
      var after, n := HolderAnswersLate(s, r, k);
    }
  }

  /**
   From any state, the old response of a request that is running the handler at
   the swap is served out of the cache to a request that arrives after `clear()`.
   */
  lemma OldLeaderReachesNewRequest(s: System, r: nat, k: Key, content: Content, n: nat)
    requires Inv(s) && r in s.requests && s.requests[r].key == k && s.requests[r].phase.Running?
    requires k.path in s.ttls && s.ttls[k.path] > 0 && n !in s.requests
    ensures
      var end := AfterUpdate(s, [], [Collect(r, content)] + ([Complete(r)] + [Arrive(n, k)]));
      && end.Some? && n in end.value.requests && end.value.requests[n].phase.Finished?
      && end.value.requests[n].phase.entry.version < end.value.live
      && k in end.value.table.cache && end.value.table.cache[k] == end.value.requests[n].phase.entry
  {
    assert RequestOk(s, r);
    var s2 := Next(Next(s, Swap).value, ClearTable).value;
    var s3 := Next(s2, Collect(r, content)).value;
    var s4 := Next(s3, Complete(r)).value;
    var s5 := Next(s4, Arrive(n, k)).value;
    RunOn(s4, Arrive(n, k), []);
    assert [Arrive(n, k)] + [] == [Arrive(n, k)];
    RunOn(s3, Complete(r), [Arrive(n, k)]);
    RunOn(s2, Collect(r, content), [Complete(r)] + [Arrive(n, k)]);
    AfterUpdateAtOnce(s, [Collect(r, content)] + ([Complete(r)] + [Arrive(n, k)]));
  }

  /**
   Without the clear, as when an update is dropped after its swap, a request that
   arrives is served an old response at once exactly when its key has a cache
   entry younger than the method's TTL.
   */
  lemma UnclearedCacheServesOldIff(s: System, n: nat, k: Key)
    requires Inv(s) && n !in s.requests && k.path in s.ttls
    ensures
      var swapped := Next(s, Swap).value;
      var arrived := ArriveStep(swapped, n, k).value;
      (arrived.requests[n].phase.Finished? && arrived.requests[n].phase.entry.version < arrived.live) <==>
        k in s.table.cache && s.now - s.table.cache[k].created < s.ttls[k.path]
  {
    if k in s.table.cache {
      assert ResultFor(s, s.table.cache[k], k);
    }
  }
}
