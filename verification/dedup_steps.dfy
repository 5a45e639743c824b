/**
 What each step of the middleware does to the table, said field by field and
 without the functions that compute it, and what a take-over means for every
 request that comes after it.
 */
module DedupSteps {
  import opened Options
  import opened DedupTable
  import opened DedupProtocol

  /** The two tables agree about every key but `k`. */
  ghost predicate SameButFor(t: Table, t': Table, k: Key) {
    && (forall j | j != k :: (j in t'.inflight <==> j in t.inflight) && (j in t'.cache <==> j in t.cache))
    && (forall j | j != k && j in t.inflight :: t'.inflight[j] == t.inflight[j])
    && (forall j | j != k && j in t.cache :: t'.cache[j] == t.cache[j])
  }

  /** `k` is in flight on a channel that did not exist before, carries nothing and belongs to `r`. */
  ghost predicate NewlyRegistered(s: System, s': System, k: Key, r: nat) {
    && k in s'.table.inflight
    && var c := s'.table.inflight[k];
    && c == s.table.next && s'.table.next == s.table.next + 1
    && c !in s.owner && c !in s.table.log && c !in s.table.inflight.Values
    && c in s'.table.log && s'.table.log[c] == []
    && c in s'.owner && s'.owner[c] == r
    && (forall d | d in s.table.log :: d in s'.table.log && s'.table.log[d] == s.table.log[d])
    && (forall d | d in s.owner :: d in s'.owner && s'.owner[d] == s.owner[d])
  }

  /** Only request `r` differs, and it is now `q`. */
  predicate OnlyRequest(s: System, s': System, r: nat, q: Request) {
    s'.requests == s.requests[r := q] && s'.now == s.now && s'.live == s.live && s'.ttls == s.ttls
  }

  /**
   A take-over leaves the key in flight.  If it was not, the sender is new, has
   sent nothing and is the request's own; if it was, the table is as before and
   the request leads all the same.
   */
  lemma RetakeRegisters(s: System, r: nat)
    requires Inv(s) && RetakeStep(s, r).Some?
    ensures
      var s', k := RetakeStep(s, r).value, s.requests[r].key;
      && OnlyRequest(s, s', r, Request(k, Leading))
      && k in s'.table.inflight
      && (k in s.table.inflight ==> s'.table == s.table && s'.owner == s.owner)
      && (k !in s.table.inflight ==>
            NewlyRegistered(s, s', k, r) && SameButFor(s.table, s'.table, k) && s'.table.cache == s.table.cache)
  {
    ChannelsAreOld(s);
  }

  /**
   An arrival is answered from a cache entry younger than the TTL, joins the
   open channel of its key from that channel's next message on, or registers
   itself and leads.  An entry that is too old is forgotten.
   */
  lemma ArriveDoes(s: System, r: nat, k: Key)
    requires Inv(s) && ArriveStep(s, r, k).Some?
    ensures
      var s' := ArriveStep(s, r, k).value;
      if k in s.table.cache && s.now - s.table.cache[k].created < s.ttls[k.path] then
        OnlyRequest(s, s', r, Request(k, Finished(s.table.cache[k]))) && s'.table == s.table && s'.owner == s.owner
      else
        && k !in s'.table.cache && SameButFor(s.table, s'.table, k)
        && if k in s.table.inflight then
             && OnlyRequest(s, s', r, Request(k, Waiting(s.table.inflight[k], 0)))
             && s'.table.inflight == s.table.inflight && s'.table.log == s.table.log && s'.owner == s.owner
           else
             OnlyRequest(s, s', r, Request(k, Leading)) && NewlyRegistered(s, s', k, r)
  {
    var s' := ArriveStep(s, r, k).value;
    if k in s.table.cache && s.now - s.table.cache[k].created < s.ttls[k.path] {
    } else if k in s.table.inflight {
      assert s.table.log[s.table.inflight[k]] == [];
    } else {
      ChannelsAreOld(s);
      assert s'.table.next == s.table.next + 1 && s'.owner == s.owner[s.table.next := r];
    }
  }

  /** No key is in flight on a channel yet to be opened. */
  lemma ChannelsAreOld(s: System)
    requires Inv(s)
    ensures s.table.next !in s.owner && s.table.next !in s.table.log && s.table.next !in s.table.inflight.Values
  {
    forall j | j in s.table.inflight ensures s.table.inflight[j] < s.table.next {
      assert s.table.log[s.table.inflight[j]] == [];
    }
  }

  /**
   Publishing takes the key out of flight, caches the leader's own response for
   it and, if the key was in flight, makes that response the one message of its
   channel.  The leader answers its client with the same response.
   */
  lemma CompleteDoes(s: System, r: nat)
    requires Inv(s) && CompleteStep(s, r).Some?
    ensures
      var s', k, e := CompleteStep(s, r).value, s.requests[r].key, s.requests[r].phase.entry;
      && OnlyRequest(s, s', r, Request(k, Finished(e))) && e.executor == r
      && k !in s'.table.inflight && k in s'.table.cache && s'.table.cache[k] == e
      && SameButFor(s.table, s'.table, k) && s'.owner == s.owner && s'.table.next == s.table.next
      && s'.table.log.Keys == s.table.log.Keys
      && (forall c | c in s.table.log ::
            s'.table.log[c] == if k in s.table.inflight && c == s.table.inflight[k] then [e] else s.table.log[c])
  {
    assert RequestOk(s, r);
  }

  /** The handler's result is stamped with the clock, its request, its key and the handlers it had read. */
  lemma RunningDoes(s: System, r: nat, content: Content)
    requires Inv(s) && DispatchStep(s, r).Some?
    ensures
      var d := DispatchStep(s, r).value;
      && OnlyRequest(s, d, r, Request(s.requests[r].key, Running(s.live)))
      && d.table == s.table && d.owner == s.owner
      && CollectStep(d, r, content).Some?
      && var e := CollectStep(d, r, content).value;
      && var k := s.requests[r].key;
      && OnlyRequest(d, e, r, Request(k, Collected(Cached(content, s.now, k, r, s.live))))
      && e.table == s.table && e.owner == s.owner
  {
  }

  /** `clear()` forgets every sender and every cached response, and nothing else. */
  lemma ClearDoes(s: System)
    requires Inv(s)
    ensures
      && Next(s, ClearTable).Some?
      && var s' := Next(s, ClearTable).value;
      && (forall k: Key :: k !in s'.table.inflight && k !in s'.table.cache)
      && (forall c: nat :: !IsOpen(s'.table, c))
      && s'.table.log == s.table.log && s'.table.next == s.table.next && s'.owner == s.owner
      && s'.requests == s.requests && s'.now == s.now && s'.live == s.live
  {
  }

  /** What happens around the middleware: a client goes away, the handlers are swapped, time passes. */
  lemma SurroundingsDo(s: System, r: nat, d: nat)
    requires r in s.requests
    ensures
      && (DropStep(s, r).Some? <==> !s.requests[r].phase.Finished?)
      && (DropStep(s, r).Some? ==>
            var dropped := DropStep(s, r).value;
            && OnlyRequest(s, dropped, r, Request(s.requests[r].key, Dropped))
            && dropped.table == s.table && dropped.owner == s.owner)
      && Next(s, Swap) == Some(System(s.table, s.requests, s.now, s.live + 1, s.owner, s.ttls))
      && Next(s, Tick(d)) == Some(System(s.table, s.requests, s.now + d, s.live, s.owner, s.ttls))
  {
  }

  /** A follower gets the message of its channel; without one it waits exactly while the channel is open. */
  lemma ReceiveDoes(s: System, r: nat)
    requires Inv(s) && r in s.requests && s.requests[r].phase.Waiting?
    ensures
      var c, k, next := s.requests[r].phase.chan, s.requests[r].key, ReceiveStep(s, r);
      && c in s.table.log
      && (s.table.log[c] != [] ==> next.Some? && OnlyRequest(s, next.value, r, Request(k, Finished(s.table.log[c][0]))))
      && (s.table.log[c] == [] && c !in s.table.inflight.Values ==>
            next.Some? && OnlyRequest(s, next.value, r, Request(k, Orphan)))
      && (s.table.log[c] == [] && c in s.table.inflight.Values ==> next == None)
      && (next.Some? ==> next.value.table == s.table && next.value.owner == s.owner)
  {
    assert RequestOk(s, r);
  }

  // ---------------------------------------------------------------------------
  // After a take-over
  // ---------------------------------------------------------------------------

  lemma {:induction false} KeysStayRun(p: Policy, s: System, acts: seq<Action>, r: nat)
    requires r in s.requests && Run(p, s, acts).Some?
    ensures r in Run(p, s, acts).value.requests && Run(p, s, acts).value.requests[r].key == s.requests[r].key
    decreases acts
  {
    if acts != [] {
      KeysStayRun(p, Next(s, acts[0]).value, acts[1..], r);
    }
  }

  /** No action of the run clears the table or publishes a response for `k`. */
  predicate LeavesInFlight(t: System, acts: seq<Action>, k: Key) {
    forall a | a in acts ::
      !a.ClearTable? && (a.Complete? ==> a.r in t.requests ==> t.requests[a.r].key != k)
  }

  lemma {:induction false} SenderStaysRun(p: Policy, s: System, acts: seq<Action>, k: Key)
    requires Inv(s) && k in s.table.inflight && Run(p, s, acts).Some?
    requires LeavesInFlight(Run(p, s, acts).value, acts, k)
    ensures
      var t := Run(p, s, acts).value;
      Inv(t) && k in t.table.inflight && t.table.inflight[k] == s.table.inflight[k]
    decreases acts
  {
    if acts != [] {
      var s', t := Next(s, acts[0]).value, Run(p, s, acts).value;
      assert acts[0] in acts;
      if acts[0].Complete? {
        KeysStayRun(p, s, acts, acts[0].r);
      }
      SenderStays(s, acts[0], k);
      InvStep(s, acts[0]);
      SenderStaysRun(p, s', acts[1..], k);
    }
  }

  lemma ArrivalDoesNotLead(s: System, q: nat, k: Key)
    requires Inv(s) && k in s.table.inflight && ArriveStep(s, q, k).Some?
    ensures
      var t := ArriveStep(s, q, k).value;
      && !IsLeader(t, q)
      && (t.requests[q].phase.Finished? || t.requests[q].phase == Waiting(s.table.inflight[k], 0))
  {
    ArriveIs(s, q, k);
  }

  /**
   Once a request has taken a key over, no request arriving for the key leads
   until somebody publishes for it or calls `clear()`: it is answered from the
   cache or waits on the channel the key had after the take-over.
   */
  lemma TakenOverKeyIsNotLedAgain(p: Policy, s: System, r: nat, acts: seq<Action>, q: nat)
    requires Inv(s) && RetakeStep(s, r).Some? && Run(p, RetakeStep(s, r).value, acts).Some?
    requires LeavesInFlight(Run(p, RetakeStep(s, r).value, acts).value, acts, s.requests[r].key)
    requires ArriveStep(Run(p, RetakeStep(s, r).value, acts).value, q, s.requests[r].key).Some?
    ensures
      var k, m := s.requests[r].key, RetakeStep(s, r).value;
      var t := ArriveStep(Run(p, m, acts).value, q, k).value;
      && !IsLeader(t, q)
      && k in m.table.inflight
      && (t.requests[q].phase.Finished? || t.requests[q].phase == Waiting(m.table.inflight[k], 0))
  {
    var k, m := s.requests[r].key, RetakeStep(s, r).value;
    RetakeRegisters(s, r);
    InvStep(s, Retake(r));
    SenderStaysRun(p, m, acts, k);
    ArrivalDoesNotLead(Run(p, m, acts).value, q, k);
  }

  /** A take-over runs the handler beside another leader of its key exactly when there already is one. */
  lemma RetakeOverlapsIff(s: System, r: nat)
    requires Inv(s) && RetakeStep(s, r).Some?
    ensures
      var t, k := RetakeStep(s, r).value, s.requests[r].key;
      && LeadsOn(t, r, k)
      && ((exists q: nat :: q != r && LeadsOn(t, q, k)) <==> exists q: nat :: LeadsOn(s, q, k))
  {
    RetakeRegisters(s, r);
    var t, k := RetakeStep(s, r).value, s.requests[r].key;
    assert forall q: nat | q != r :: LeadsOn(t, q, k) == LeadsOn(s, q, k);
    assert !LeadsOn(s, r, k);
  }

  /** A take-over never waits: two followers that lost the same leader both run the handler. */
  lemma OrphansLeadTogether(s: System, r: nat, q: nat)
    requires Inv(s) && r != q && r in s.requests && q in s.requests
    requires s.requests[r].phase.Orphan? && s.requests[q].phase.Orphan? && s.requests[r].key == s.requests[q].key
    ensures
      && Run(Quiet, s, [Retake(r), Retake(q)]).Some?
      && var t, k := Run(Quiet, s, [Retake(r), Retake(q)]).value, s.requests[r].key;
      && LeadsOn(t, r, k) && LeadsOn(t, q, k)
      && k in t.table.inflight
  {
    var m := RetakeStep(s, r).value;
    assert [Retake(r), Retake(q)][1..] == [Retake(q)];
    assert Run(Quiet, m, [Retake(q)]) == Some(RetakeStep(m, q).value);
  }
}
