/**
 What the middleware guarantees when `clear()` is never called and no running
 leader is dropped, and what survives once `clear()` is allowed.
 */
module DedupExclusion {
  import opened Options
  import opened DedupTable
  import opened DedupProtocol

  /** The request whose sender the in-flight map holds for `k`. */
  function OwnerOf(s: System, k: Key): Option<nat> {
    if k in s.table.inflight && s.table.inflight[k] in s.owner
    then Some(s.owner[s.table.inflight[k]]) else None
  }

  /** Every sender in the map belongs to a request still running the handler for that key. */
  ghost predicate SendersLive(s: System) {
    forall k | k in s.table.inflight ::
      OwnerOf(s, k).Some? && LeadsOn(s, OwnerOf(s, k).value, k)
  }

  /** Every running request is the one whose sender is in the map. */
  ghost predicate LeadersRegistered(s: System) {
    forall r | r in s.requests && IsLeader(s, r) :: OwnerOf(s, s.requests[r].key) == Some(r)
  }

  /** A follower's channel has its message, or is still the key's open channel. */
  predicate Attached(s: System, r: nat)
    requires r in s.requests
  {
    var q := s.requests[r];
    !q.phase.Orphan? &&
    (q.phase.Waiting? ==>
      q.phase.chan in s.table.log &&
      (s.table.log[q.phase.chan] != [] ||
       (q.key in s.table.inflight && s.table.inflight[q.key] == q.phase.chan)))
  }

  ghost predicate FollowersAttached(s: System) {
    forall r | r in s.requests :: Attached(s, r)
  }

  // ---------------------------------------------------------------------------
  // Senders stay live under Clearing
  // ---------------------------------------------------------------------------

  lemma SendersLiveStep(s: System, a: Action)
    requires Inv(s) && SendersLive(s) && Step(Clearing, s, a).Some?
    ensures SendersLive(Next(s, a).value)
  {
    var s' := Next(s, a).value;
    forall k | k in s'.table.inflight
      ensures OwnerOf(s', k).Some? && LeadsOn(s', OwnerOf(s', k).value, k)
    {
      if k in s.table.inflight {
        OldSenderLives(s, a, k);
      } else {
        NewSenderLives(s, a, k);
      }
    }
  }

  lemma OldSenderLives(s: System, a: Action, k: Key)
    requires Inv(s) && SendersLive(s) && Step(Clearing, s, a).Some?
    requires k in s.table.inflight && k in Next(s, a).value.table.inflight
    ensures OwnerOf(Next(s, a).value, k) == OwnerOf(s, k) && OwnerOf(s, k).Some?
    ensures LeadsOn(Next(s, a).value, OwnerOf(s, k).value, k)
  {
    var owner := OwnerOf(s, k);
    assert owner.Some? && LeadsOn(s, owner.value, k);
    if !(a.Complete? && s.requests[a.r].key == k) && !a.ClearTable? {
      SenderStays(s, a, k);
      LeaderStays(s, a, owner.value);
    }
  }

  lemma NewSenderLives(s: System, a: Action, k: Key)
    requires Inv(s) && Step(Clearing, s, a).Some?
    requires k !in s.table.inflight && k in Next(s, a).value.table.inflight
    ensures OwnerOf(Next(s, a).value, k).Some?
    ensures LeadsOn(Next(s, a).value, OwnerOf(Next(s, a).value, k).value, k)
  {
  }

  lemma {:induction false} SendersLiveRun(s: System, acts: seq<Action>)
    requires Inv(s) && SendersLive(s) && Run(Clearing, s, acts).Some?
    ensures SendersLive(Run(Clearing, s, acts).value)
    decreases acts
  {
    if acts != [] {
      SendersLiveStep(s, acts[0]);
      InvStep(s, acts[0]);
      SendersLiveRun(Next(s, acts[0]).value, acts[1..]);
    }
  }

  // ---------------------------------------------------------------------------
  // Exclusive execution under Quiet
  // ---------------------------------------------------------------------------

  /** A registered leader that is still running stays registered. */
  lemma OwnerStays(s: System, a: Action, r: nat)
    requires Inv(s) && LeadersRegistered(s) && Step(Quiet, s, a).Some?
    requires IsLeader(s, r) && IsLeader(Next(s, a).value, r)
    ensures OwnerOf(Next(s, a).value, s.requests[r].key) == Some(r)
  {
    var k := s.requests[r].key;
    assert OwnerOf(s, k) == Some(r);
    if a.Complete? && s.requests[a.r].key == k {
      LeaderUnique(s, a.r, r);
    } else {
      SenderStays(s, a, k);
    }
  }

  /** A request starts to lead only by opening its key's channel. */
  lemma NewLeaderOwns(s: System, a: Action, r: nat)
    requires Inv(s) && Step(Quiet, s, a).Some?
    requires r in s.requests ==> Attached(s, r)
    requires !IsLeader(s, r) && IsLeader(Next(s, a).value, r)
    ensures OwnerOf(Next(s, a).value, Next(s, a).value.requests[r].key) == Some(r)
  {
  }

  lemma LeadersRegisteredStep(s: System, a: Action)
    requires Inv(s) && SendersLive(s) && LeadersRegistered(s) && FollowersAttached(s)
    requires Step(Quiet, s, a).Some?
    ensures LeadersRegistered(Next(s, a).value)
  {
    var s' := Next(s, a).value;
    forall r | r in s'.requests && IsLeader(s', r)
      ensures OwnerOf(s', s'.requests[r].key) == Some(r)
    {
      if IsLeader(s, r) {
        OwnerStays(s, a, r);
        KeysStay(s, a, r);
      } else {
        assert r in s.requests ==> Attached(s, r);
        NewLeaderOwns(s, a, r);
      }
    }
  }

  lemma KeysStay(s: System, a: Action, r: nat)
    requires r in s.requests && Next(s, a).Some?
    ensures r in Next(s, a).value.requests && Next(s, a).value.requests[r].key == s.requests[r].key
  {
  }

  lemma FollowersAttachedStep(s: System, a: Action)
    requires Inv(s) && SendersLive(s) && LeadersRegistered(s) && FollowersAttached(s)
    requires Step(Quiet, s, a).Some?
    ensures FollowersAttached(Next(s, a).value)
  {
    var s' := Next(s, a).value;
    forall r | r in s'.requests ensures Attached(s', r) {
      if r in s.requests {
        assert Attached(s, r);
        assert RequestOk(s, r);
        StaysAttached(s, a, r);
      } else {
        ArriveIs(s, a.r, a.key);
      }
    }
  }

  lemma StaysAttached(s: System, a: Action, r: nat)
    requires Inv(s) && Step(Quiet, s, a).Some?
    requires r in s.requests && Attached(s, r)
    ensures r in Next(s, a).value.requests && Attached(Next(s, a).value, r)
  {
    assert RequestOk(s, r);
    KeysStay(s, a, r);
    var q := s.requests[r];
    if q.phase.Waiting? {
      MessagesStay(s, a, q.phase.chan);
      if q.key in s.table.inflight && !(a.Complete? && s.requests[a.r].key == q.key) {
        SenderStays(s, a, q.key);
      }
    }
  }

  lemma {:induction false} QuietRun(s: System, acts: seq<Action>)
    requires Inv(s) && SendersLive(s) && LeadersRegistered(s) && FollowersAttached(s) && Spaced(s)
    requires Run(Quiet, s, acts).Some?
    ensures var s' := Run(Quiet, s, acts).value;
            Inv(s') && SendersLive(s') && LeadersRegistered(s') && FollowersAttached(s') && Spaced(s')
    decreases acts
  {
    if acts != [] {
      assert Step(Clearing, s, acts[0]) == Step(Quiet, s, acts[0]);
      InvStep(s, acts[0]);
      SendersLiveStep(s, acts[0]);
      LeadersRegisteredStep(s, acts[0]);
      FollowersAttachedStep(s, acts[0]);
      SpacedStep(s, acts[0]);
      QuietRun(Next(s, acts[0]).value, acts[1..]);
    }
  }

  /**
   With no `clear()` and no dropped leader the in-flight map holds a key exactly
   when one request is running the handler for it, and never two.
   */
  lemma ExecutionsNeverOverlap(ttls: map<string, nat>, acts: seq<Action>, k: Key)
    requires Run(Quiet, Init(ttls), acts).Some?
    ensures
      var s := Run(Quiet, Init(ttls), acts).value;
      && (k in s.table.inflight <==> exists r :: r in s.requests && LeadsOn(s, r, k))
      && (forall r: nat, q: nat | LeadsOn(s, r, k) && LeadsOn(s, q, k) :: r == q)
  {
    QuietRun(Init(ttls), acts);
    var s := Run(Quiet, Init(ttls), acts).value;
    forall r: nat | LeadsOn(s, r, k) ensures OwnerOf(s, k) == Some(r) {
      assert r in s.requests && IsLeader(s, r);
    }
    if k in s.table.inflight {
      assert LeadsOn(s, OwnerOf(s, k).value, k);
    }
  }

  /** With `clear()` allowed, every sender in the map still has a running leader. */
  lemma EverySenderHasALiveLeader(ttls: map<string, nat>, acts: seq<Action>, k: Key)
    requires Run(Clearing, Init(ttls), acts).Some?
    ensures
      var s := Run(Clearing, Init(ttls), acts).value;
      k in s.table.inflight ==>
        s.table.inflight[k] in s.owner && LeadsOn(s, s.owner[s.table.inflight[k]], k)
  {
    SendersLiveRun(Init(ttls), acts);
  }

  // ---------------------------------------------------------------------------
  // Executions of one key are at least a TTL apart
  // ---------------------------------------------------------------------------

  /** Request `q` executed `k` itself and has published its response. */
  predicate Executed(s: System, q: nat, k: Key) {
    && q in s.requests && s.requests[q].key == k
    && s.requests[q].phase.Finished? && s.requests[q].phase.entry.executor == q
  }

  /** The cache entry for `k` is at least as recent as `created`, or that instant has expired. */
  predicate Remembered(s: System, k: Key, created: nat) {
    || (k in s.table.cache && s.table.cache[k].created >= created)
    || (k.path in s.ttls && s.now - created >= s.ttls[k.path])
  }

  ghost predicate Spaced(s: System) {
    && (forall q | q in s.requests && Executed(s, q, s.requests[q].key) ::
          Remembered(s, s.requests[q].key, s.requests[q].phase.entry.created))
    && (forall q, r | q in s.requests && r in s.requests && Executed(s, q, s.requests[q].key)
                      && s.requests[r].phase.Collected? && s.requests[r].key == s.requests[q].key ::
          s.requests[q].phase.entry.created <= s.requests[r].phase.entry.created)
  }

  /** Only publishing makes a request an executor of its key. */
  lemma ExecutedBefore(s: System, a: Action, q: nat, k: Key)
    requires Inv(s) && Step(Quiet, s, a).Some? && Executed(Next(s, a).value, q, k)
    ensures a == Complete(q) || (Executed(s, q, k) && s.requests[q] == Next(s, a).value.requests[q])
  {
    if q in s.requests {
      assert RequestOk(s, q);
    }
  }

  lemma RememberedStep(s: System, a: Action, q: nat, k: Key)
    requires Inv(s) && SendersLive(s) && LeadersRegistered(s) && FollowersAttached(s) && Spaced(s)
    requires Step(Quiet, s, a).Some? && Executed(Next(s, a).value, q, k)
    ensures Remembered(Next(s, a).value, k, Next(s, a).value.requests[q].phase.entry.created)
  {
    ExecutedBefore(s, a, q, k);
    if a == Complete(q) {
      assert RequestOk(s, q);
    } else {
      assert Remembered(s, k, s.requests[q].phase.entry.created);
      if a.Complete? {
        assert s.requests[a.r].phase.Collected?;
      }
    }
  }

  /** The single running leader of a key collects no earlier than any published execution. */
  lemma OrderedStep(s: System, a: Action, q: nat, r: nat)
    requires Inv(s) && SendersLive(s) && LeadersRegistered(s) && FollowersAttached(s) && Spaced(s)
    requires Step(Quiet, s, a).Some?
    requires var s' := Next(s, a).value;
             r in s'.requests && s'.requests[r].phase.Collected? && Executed(s', q, s'.requests[r].key)
    ensures var s' := Next(s, a).value;
            s'.requests[q].phase.entry.created <= s'.requests[r].phase.entry.created
  {
    var k := Next(s, a).value.requests[r].key;
    ExecutedBefore(s, a, q, k);
    CollectedBefore(s, a, r);
    if a == Complete(q) {
      LeaderUnique(s, q, r);
    } else if a.Collect? && a.r == r {
      assert RequestOk(s, q);
    } else {
      assert s.requests[r].phase.Collected?;
    }
  }

  lemma LeaderUnique(s: System, q: nat, r: nat)
    requires LeadersRegistered(s) && IsLeader(s, q) && IsLeader(s, r)
    requires s.requests[q].key == s.requests[r].key
    ensures q == r
  {
    assert OwnerOf(s, s.requests[q].key) == Some(q);
    assert OwnerOf(s, s.requests[r].key) == Some(r);
  }

  lemma CollectedBefore(s: System, a: Action, r: nat)
    requires Step(Quiet, s, a).Some?
    requires r in Next(s, a).value.requests && Next(s, a).value.requests[r].phase.Collected?
    ensures IsLeader(s, r) && s.requests[r].key == Next(s, a).value.requests[r].key
    ensures (a.Collect? && a.r == r && Next(s, a).value.requests[r].phase.entry.created == s.now)
         || s.requests[r] == Next(s, a).value.requests[r]
  {
  }

  lemma SpacedStep(s: System, a: Action)
    requires Inv(s) && SendersLive(s) && LeadersRegistered(s) && FollowersAttached(s) && Spaced(s)
    requires Step(Quiet, s, a).Some?
    ensures Spaced(Next(s, a).value)
  {
    var s' := Next(s, a).value;
    forall q | q in s'.requests && Executed(s', q, s'.requests[q].key)
      ensures Remembered(s', s'.requests[q].key, s'.requests[q].phase.entry.created)
    {
      RememberedStep(s, a, q, s'.requests[q].key);
    }
    forall q, r | q in s'.requests && r in s'.requests && Executed(s', q, s'.requests[q].key)
                  && s'.requests[r].phase.Collected? && s'.requests[r].key == s'.requests[q].key
      ensures s'.requests[q].phase.entry.created <= s'.requests[r].phase.entry.created
    {
      OrderedStep(s, a, q, r);
    }
  }

  /**
   With no `clear()` and no dropped leader, a new execution of a key starts no
   sooner than the method's TTL after the result of any earlier execution of the
   same key was collected.
   */
  lemma ExecutionsAreATtlApart(ttls: map<string, nat>, acts: seq<Action>, r: nat, k: Key, q: nat)
    requires Run(Quiet, Init(ttls), acts).Some?
    requires ArriveStep(Run(Quiet, Init(ttls), acts).value, r, k).Some?
    requires LeadsOn(ArriveStep(Run(Quiet, Init(ttls), acts).value, r, k).value, r, k)
    requires Executed(Run(Quiet, Init(ttls), acts).value, q, k)
    ensures
      var s := Run(Quiet, Init(ttls), acts).value;
      k.path in ttls && s.now - s.requests[q].phase.entry.created >= ttls[k.path]
  {
    QuietRun(Init(ttls), acts);
    TtlsFixed(Quiet, Init(ttls), acts);
  }

  lemma {:induction false} TtlsFixed(p: Policy, s: System, acts: seq<Action>)
    requires Run(p, s, acts).Some?
    ensures Run(p, s, acts).value.ttls == s.ttls
    decreases acts
  {
    if acts != [] {
      TtlsFixed(p, Next(s, acts[0]).value, acts[1..]);
    }
  }
}
