/** The map of eSIM request records: an hour's TTL and a cap of 256, enforced on every message. */
module EsimStore {
  import opened Options
  import opened TopK
  import opened EsimRecord
  import R = Recency

  const TTL_MS := 60 * 60 * 1000
  const MAX_REQUESTS := 256
  const WAITING := "waiting_accept"

  type Requests = map<string, Record>

  function Stamps(requests: Requests): map<string, int> {
    map id | id in requests :: requests[id].updatedAt
  }

  /** `now.saturating_sub(TTL)`. */
  function Cutoff(now: nat): nat {
    if now >= TTL_MS then now - TTL_MS else 0
  }

  function Restrict(requests: Requests, kept: set<string>): Requests {
    map id | id in requests && id in kept :: requests[id]
  }

  function Handle(requests: Requests, kept: set<string>, id: string, m: Message, now: nat): Requests {
    var pruned := Restrict(requests, kept);
    if id in pruned then pruned[id := Receive(pruned[id], m, now)] else pruned
  }

  function Sent(r: Record): Record {
    r.(status := WAITING)
  }

  function Marked(requests: Requests, id: string): Requests {
    if id in requests then requests[id := Sent(requests[id])] else requests
  }

  class RequestTable {
    var requests: Requests

    constructor ()
      ensures requests == map[]
    {
      requests := map[];
    }

    /** First lock section of an enqueue: creating a record prunes nothing. */
    method Insert(id: string, action: string, now: nat)
      modifies this
      ensures requests == old(requests)[id := Created(action, now)]
    {
      requests := requests[id := Created(action, now)];
    }

    /** Second lock section, once the command is on its way: an error if the record has been pruned since. */
    method MarkSent(id: string) returns (r: Result<(), string>)
      modifies this
      ensures r.Ok? <==> id in old(requests)
      ensures requests == Marked(old(requests), id)
    {
      if id !in requests {
        return Err("request record missing after enqueue");
      }
      requests := requests[id := Sent(requests[id])];
      return Ok(());
    }

    method HandleIncoming(m: Message, now: nat) returns (ghost kept: set<string>)
      modifies this
      ensures m.requestId.None? ==> requests == old(requests)
      ensures m.requestId.Some? ==>
                Pruned(Stamps(old(requests)), Cutoff(now), MAX_REQUESTS, kept) &&
                requests == Handle(old(requests), kept, m.requestId.value, m, now)
    {
      kept := {};
      if m.requestId.None? { return; }
      var survivors := Prune(Stamps(requests), Cutoff(now), MAX_REQUESTS);
      kept := survivors;
      requests := Restrict(requests, survivors);
      var id := m.requestId.value;
      if id in requests {
        requests := requests[id := Receive(requests[id], m, now)];
      }
    }
  }

  lemma SurvivorsAreUnchanged(requests: Requests, kept: set<string>, id: string, m: Message, now: nat)
    requires Pruned(Stamps(requests), Cutoff(now), MAX_REQUESTS, kept)
    ensures
      var after := Handle(requests, kept, id, m, now);
      && after.Keys == kept
      && (forall k | k in after && k != id ::
            k in requests && after[k] == requests[k] && after[k].updatedAt >= Cutoff(now))
      && (id in after ==> id in requests && after[id] == Receive(requests[id], m, now))
  {
  }

  /**
   After any message with a request id, at most 256 records remain, all of them
   updated within the TTL, every survivor but the addressed one is unchanged, and
   nothing younger than the TTL was dropped while an older record was kept.
   */
  lemma HandlingBoundsTheTable(requests: Requests, kept: set<string>, id: string, m: Message, now: nat)
    requires Pruned(Stamps(requests), Cutoff(now), MAX_REQUESTS, kept)
    ensures
      var after := Handle(requests, kept, id, m, now);
      && after.Keys == kept && |after| <= MAX_REQUESTS
      && (forall k | k in after && k != id ::
            k in requests && after[k] == requests[k] && after[k].updatedAt >= Cutoff(now))
      && (id in after ==> id in requests && after[id] == Receive(requests[id], m, now))
      && (forall k, d | k in after && d in requests && d !in after && requests[d].updatedAt >= Cutoff(now) ::
            k in requests && requests[k].updatedAt >= requests[d].updatedAt)
  {
    var after := Handle(requests, kept, id, m, now);
    var stamps := Stamps(requests);
    SurvivorsAreUnchanged(requests, kept, id, m, now);
    forall k, d | k in after && d in requests && d !in after && requests[d].updatedAt >= Cutoff(now)
      ensures k in requests && requests[k].updatedAt >= requests[d].updatedAt
    {
      assert d in Live(stamps, Cutoff(now)) && stamps[k] >= stamps[d];
    }
  }

  /** A record is lost only to the TTL, or to 256 others updated no earlier. */
  lemma LostOnlyToTtlOrNewer(requests: Requests, kept: set<string>, id: string, now: nat)
    requires Pruned(Stamps(requests), Cutoff(now), MAX_REQUESTS, kept)
    requires id in requests && id !in kept
    ensures
      requests[id].updatedAt < Cutoff(now) ||
      (kept <= requests.Keys && |kept| == MAX_REQUESTS &&
       forall k | k in kept :: requests[k].updatedAt >= requests[id].updatedAt)
  {
    var stamps := Stamps(requests);
    if requests[id].updatedAt >= Cutoff(now) {
      assert id in Live(stamps, Cutoff(now));
      if |Live(stamps, Cutoff(now))| <= MAX_REQUESTS {
        PrunedWithinCap(stamps, Cutoff(now), MAX_REQUESTS, kept);
      }
      forall k | k in kept ensures k in requests && requests[k].updatedAt >= requests[id].updatedAt {
        assert stamps[k] >= stamps[id];
      }
    }
  }

  // ---- Messages between the two sections of an enqueue ----

  /** A message that would move a request on from waiting for acceptance. */
  predicate MovesOn(action: string, m: Message) {
    IsAccept(m) || IsBridgeError(m) || Decides(action, m)
  }

  ghost predicate Uneventful(action: string, h: History) {
    forall i :: 0 <= i < |h| ==> !MovesOn(action, h[i].0)
  }

  lemma {:induction false} WaitsWhileUneventful(action: string, created: nat, h: History)
    ensures var r := Replay(Sent(Created(action, created)), h);
            && r.action == action && r.status != "pending"
            && (r.status == WAITING <==> Uneventful(action, h))
            && (Uneventful(action, h) ==> r.final.None?)
    decreases h
  {
    if h != [] {
      var front, m, now := h[..|h| - 1], h[|h| - 1].0, h[|h| - 1].1;
      assert h == front + [(m, now)];
      WaitsWhileUneventful(action, created, front);
      ReplayAppend(Sent(Created(action, created)), front, m, now);
    }
  }

  /**
   The second section overwrites the status.  Messages handled between the two
   leave the status they would have left after both exactly when none of them was
   an acceptance, an error or an event final for the action.
   */
  lemma LateMarkHarmlessIff(action: string, created: nat, h: History)
    ensures Sent(Replay(Created(action, created), h)).status == Replay(Sent(Created(action, created)), h).status <==>
              Uneventful(action, h)
  {
    WaitsWhileUneventful(action, created, h);
  }

  // ---- Runs of the table ----

  /** `touched` is the last update of every record there ever was; `since` counts the creations after
      the latest pruning. */
  datatype System = System(requests: Requests, now: nat, touched: map<string, nat>, since: nat)

  const Nothing := System(map[], 0, map[], 0)

  datatype Action =
    | Create(id: string, action: string)
    | Mark(id: string)
    | Incoming(kept: set<string>, id: string, m: Message)   // a message with a request id
    | Tick(d: nat)

  ghost predicate Legal(s: System, a: Action) {
    match a
    case Create(id, _) => id !in s.touched
    case Incoming(kept, _, _) => Pruned(Stamps(s.requests), Cutoff(s.now), MAX_REQUESTS, kept)
    case _ => true
  }

  function Next(s: System, a: Action): System {
    match a
    case Create(id, action) =>
      System(s.requests[id := Created(action, s.now)], s.now, s.touched[id := s.now], s.since + 1)
    case Mark(id) => s.(requests := Marked(s.requests, id))
    case Incoming(kept, id, m) =>
      var after := Handle(s.requests, kept, id, m, s.now);
      System(after, s.now, if id in after then s.touched[id := s.now] else s.touched, 0)
    case Tick(d) => s.(now := s.now + d)
  }

  /** Creating a request adds a pending record, marking it sent changes its status and nothing else. */
  lemma EnqueueDoes(s: System, id: string, action: string, d: nat)
    ensures
      var created := Next(s, Create(id, action));
      && created.requests == s.requests[id := Record(action, "pending", false, [], None, s.now)]
      && created.now == s.now && created.touched == s.touched[id := s.now] && created.since == s.since + 1
    ensures
      var marked := Next(s, Mark(id));
      && marked.requests.Keys == s.requests.Keys
      && (forall k | k in s.requests && k != id :: marked.requests[k] == s.requests[k])
      && (id in s.requests ==>
            var r := s.requests[id];
            marked.requests[id] == Record(r.action, "waiting_accept", r.accepted, r.events, r.final, r.updatedAt))
      && marked.now == s.now && marked.touched == s.touched && marked.since == s.since
    ensures Next(s, Tick(d)) == System(s.requests, s.now + d, s.touched, s.since)
  {
  }

  ghost predicate Reaches(s: System, acts: seq<Action>, e: System)
    decreases acts
  {
    if acts == [] then e == s else Legal(s, acts[0]) && Reaches(Next(s, acts[0]), acts[1..], e)
  }

  ghost predicate Inv(s: System) {
    && |s.requests| <= MAX_REQUESTS + s.since
    && (forall k | k in s.touched :: s.touched[k] <= s.now)
    && (forall k | k in s.requests :: k in s.touched && s.requests[k].updatedAt == s.touched[k])
    && R.MissingOk(s.touched, s.requests.Keys, Cutoff(s.now), MAX_REQUESTS)
  }

  lemma IncomingEntries(s: System, kept: set<string>, id: string, m: Message)
    requires Inv(s) && Legal(s, Incoming(kept, id, m))
    ensures var t := Next(s, Incoming(kept, id, m));
            && t.requests.Keys == kept
            && forall k | k in t.requests :: k in t.touched && t.requests[k].updatedAt == t.touched[k]
  {
    SurvivorsAreUnchanged(s.requests, kept, id, m, s.now);
    var after := Handle(s.requests, kept, id, m, s.now);
    if id in after {
      ReceiveStamps(s.requests[id], m, s.now);
    }
  }

  lemma ReceiveStamps(r: Record, m: Message, now: nat)
    ensures Receive(r, m, now).updatedAt == now
  {
  }

  lemma IncomingMissing(s: System, kept: set<string>, id: string)
    requires Inv(s) && Pruned(Stamps(s.requests), Cutoff(s.now), MAX_REQUESTS, kept)
    ensures kept <= s.requests.Keys && |kept| <= MAX_REQUESTS
    ensures var touched := if id in kept then s.touched[id := s.now] else s.touched;
            R.MissingOk(touched, kept, Cutoff(s.now), MAX_REQUESTS)
  {
    assert Stamps(s.requests) == R.Stamps(s.touched, s.requests.Keys);
    R.PruneKeepsMissing(s.touched, s.requests.Keys, Cutoff(s.now), MAX_REQUESTS, kept);
    if id in kept {
      R.TouchKeepsMissing(s.touched, kept, Cutoff(s.now), MAX_REQUESTS, id, s.now);
      assert kept + {id} == kept;
    }
  }

  lemma InvIncoming(s: System, kept: set<string>, id: string, m: Message)
    requires Inv(s) && Legal(s, Incoming(kept, id, m))
    ensures Inv(Next(s, Incoming(kept, id, m)))
  {
    IncomingEntries(s, kept, id, m);
    IncomingMissing(s, kept, id);
  }

  lemma InvCreate(s: System, id: string, action: string)
    requires Inv(s)
    ensures Inv(Next(s, Create(id, action)))
  {
    R.TouchKeepsMissing(s.touched, s.requests.Keys, Cutoff(s.now), MAX_REQUESTS, id, s.now);
    assert Next(s, Create(id, action)).requests.Keys == s.requests.Keys + {id};
  }

  lemma InvStep(s: System, a: Action)
    requires Inv(s) && Legal(s, a)
    ensures Inv(Next(s, a))
  {
    match a
    case Create(id, action) => InvCreate(s, id, action);
    case Mark(id) => assert Next(s, a).requests.Keys == s.requests.Keys;
    case Incoming(kept, id, m) => InvIncoming(s, kept, id, m);
    case Tick(d) => R.TimeKeepsMissing(s.touched, s.requests.Keys, Cutoff(s.now), Cutoff(s.now + d), MAX_REQUESTS);
  }

  lemma {:induction false} InvRun(s: System, acts: seq<Action>, e: System)
    requires Inv(s) && Reaches(s, acts, e)
    ensures Inv(e)
    decreases acts
  {
    if acts != [] {
      InvStep(s, acts[0]);
      InvRun(Next(s, acts[0]), acts[1..], e);
    }
  }

  /**
   In every run the table holds at most 256 records and those created since the
   latest pruning; a record that was ever created is missing only if it has not
   been updated within the TTL, or at least 256 others were updated no earlier.
   */
  lemma MissingOnlyWhenStaleOrCrowdedOut(acts: seq<Action>, s: System, id: string)
    requires Reaches(Nothing, acts, s)
    ensures |s.requests| <= MAX_REQUESTS + s.since
    ensures id in s.touched && id !in s.requests ==>
              s.touched[id] < Cutoff(s.now) || |R.NoOlder(s.touched, id)| >= MAX_REQUESTS
  {
    InvRun(Nothing, acts, s);
  }
}
