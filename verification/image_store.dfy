/** The store of captured images: 300 s since the last access, 16 entries after pruning. */
module ImageStore {
  import opened Options
  import opened TopK
  import R = Recency

  const TTL := 300_000_000_000        // nanoseconds
  const MAX_IMAGES := 16

  datatype Entry = Entry(bytes: seq<byte>, lastAccess: nat)

  /**
   `touched` and `latest` are history: for every run id ever stored, its last
   access and the bytes last put under it.
   */
  datatype Store = Store(
    images: map<string, Entry>, now: nat, touched: map<string, nat>, latest: map<string, seq<byte>>)

  const Nothing := Store(map[], 0, map[], map[])

  function Stamps(images: map<string, Entry>): map<string, int> {
    map k | k in images :: images[k].lastAccess
  }

  /** Entries whose age is below the TTL have at least this stamp. */
  function Cutoff(now: nat): int {
    now - TTL + 1
  }

  function Restrict(images: map<string, Entry>, kept: set<string>): map<string, Entry> {
    map k | k in images && k in kept :: images[k]
  }

  /** `kept` is a possible outcome of pruning the store now. */
  ghost predicate LegalPrune(s: Store, kept: set<string>) {
    Pruned(Stamps(s.images), Cutoff(s.now), MAX_IMAGES, kept)
  }

  function Put(s: Store, kept: set<string>, id: string, bytes: seq<byte>): Store {
    Store(Restrict(s.images, kept)[id := Entry(bytes, s.now)], s.now, s.touched[id := s.now], s.latest[id := bytes])
  }

  function Get(s: Store, kept: set<string>, id: string): (Store, Option<seq<byte>>) {
    var images := Restrict(s.images, kept);
    if id in images then
      (s.(images := images[id := images[id].(lastAccess := s.now)], touched := s.touched[id := s.now]),
       Some(images[id].bytes))
    else (s.(images := images), None)
  }

  class LiveImageStore {
    var images: map<string, Entry>
    ghost var now: nat
    ghost var touched: map<string, nat>
    ghost var latest: map<string, seq<byte>>

    ghost function View(): Store
      reads this
    {
      Store(images, now, touched, latest)
    }

    constructor ()
      ensures View() == Nothing
    {
      images, now, touched, latest := map[], 0, map[], map[];
    }

    method PruneImages(clock: nat) returns (ghost kept: set<string>)
      requires clock == now
      modifies this`images
      ensures LegalPrune(old(View()), kept) && images == Restrict(old(images), kept)
    {
      var survivors := Prune(Stamps(images), Cutoff(clock), MAX_IMAGES);
      kept := survivors;
      images := Restrict(images, survivors);
    }

    method PutImage(clock: nat, id: string, bytes: seq<byte>) returns (ghost kept: set<string>)
      requires clock == now
      modifies this
      ensures LegalPrune(old(View()), kept) && View() == Put(old(View()), kept, id, bytes)
    {
      kept := PruneImages(clock);
      images := images[id := Entry(bytes, clock)];
      touched := touched[id := now];
      latest := latest[id := bytes];
    }

    method GetRefresh(clock: nat, id: string) returns (bytes: Option<seq<byte>>, ghost kept: set<string>)
      requires clock == now
      modifies this
      ensures LegalPrune(old(View()), kept) && (View(), bytes) == Get(old(View()), kept, id)
    {
      kept := PruneImages(clock);
      if id !in images {
        return None, kept;
      }
      images := images[id := images[id].(lastAccess := clock)];
      touched := touched[id := now];
      bytes := Some(images[id].bytes);
    }
  }

  // ---------------------------------------------------------------------------
  // Runs
  // ---------------------------------------------------------------------------

  /** Each store operation carries the outcome of the prune it starts with. */
  datatype Action =
    | PutAt(kept: set<string>, id: string, bytes: seq<byte>)
    | GetAt(kept: set<string>, id: string)
    | Tick(d: nat)

  ghost predicate Legal(s: Store, a: Action) {
    !a.Tick? ==> LegalPrune(s, a.kept)
  }

  function Next(s: Store, a: Action): Store {
    match a
    case PutAt(kept, id, bytes) => Put(s, kept, id, bytes)
    case GetAt(kept, id) => Get(s, kept, id).0
    case Tick(d) => s.(now := s.now + d)
  }

  ghost predicate Reaches(s: Store, acts: seq<Action>, e: Store)
    decreases acts
  {
    if acts == [] then e == s else Legal(s, acts[0]) && Reaches(Next(s, acts[0]), acts[1..], e)
  }

  /** `id` may be missing: it has been idle for the TTL, or 16 others are at least as recent. */
  predicate MayBeMissing(s: Store, id: string)
    requires id in s.touched
  {
    R.MayBeMissing(s.touched, Cutoff(s.now), MAX_IMAGES, id)
  }

  ghost predicate TimesOk(s: Store) {
    s.latest.Keys == s.touched.Keys && forall k | k in s.touched :: s.touched[k] <= s.now
  }

  ghost predicate EntriesOk(s: Store) {
    forall k | k in s.images :: k in s.touched && k in s.latest && s.images[k] == Entry(s.latest[k], s.touched[k])
  }

  ghost predicate Inv(s: Store) {
    && |s.images| <= MAX_IMAGES + 1 && TimesOk(s) && EntriesOk(s)
    && R.MissingOk(s.touched, s.images.Keys, Cutoff(s.now), MAX_IMAGES)
  }

  /** What a prune alone leaves behind. */
  function AfterPrune(s: Store, kept: set<string>): Store {
    s.(images := Restrict(s.images, kept))
  }

  lemma PruneKeepsInv(s: Store, kept: set<string>)
    requires Inv(s) && LegalPrune(s, kept)
    ensures Inv(AfterPrune(s, kept)) && |AfterPrune(s, kept).images| <= MAX_IMAGES
  {
    assert Stamps(s.images) == R.Stamps(s.touched, s.images.Keys);
    R.PruneKeepsMissing(s.touched, s.images.Keys, Cutoff(s.now), MAX_IMAGES, kept);
    assert AfterPrune(s, kept).images.Keys == kept;
  }

  /** The store after an entry for `id` has been written or refreshed. */
  function Accessed(p: Store, id: string, bytes: seq<byte>): Store {
    Store(p.images[id := Entry(bytes, p.now)], p.now, p.touched[id := p.now], p.latest[id := bytes])
  }

  lemma AccessKeepsEntries(p: Store, id: string, bytes: seq<byte>)
    requires EntriesOk(p) && TimesOk(p)
    ensures EntriesOk(Accessed(p, id, bytes)) && TimesOk(Accessed(p, id, bytes))
  {
  }

  lemma InvAccess(p: Store, id: string, bytes: seq<byte>)
    requires Inv(p) && |p.images| <= MAX_IMAGES
    ensures Inv(Accessed(p, id, bytes))
  {
    AccessKeepsEntries(p, id, bytes);
    R.TouchKeepsMissing(p.touched, p.images.Keys, Cutoff(p.now), MAX_IMAGES, id, p.now);
    assert Accessed(p, id, bytes).images.Keys == p.images.Keys + {id};
  }

  lemma InvStep(s: Store, a: Action)
    requires Inv(s) && Legal(s, a)
    ensures Inv(Next(s, a))
  {
    match a
    case PutAt(kept, id, bytes) =>
      PruneKeepsInv(s, kept);
      InvAccess(AfterPrune(s, kept), id, bytes);
    case GetAt(kept, id) =>
      PruneKeepsInv(s, kept);
      var p := AfterPrune(s, kept);
      if id in p.images {
        InvAccess(p, id, p.images[id].bytes);
        assert p.latest[id := p.images[id].bytes] == p.latest;
      }
    case Tick(d) =>
      R.TimeKeepsMissing(s.touched, s.images.Keys, Cutoff(s.now), Cutoff(s.now + d), MAX_IMAGES);
  }

  lemma {:induction false} InvRun(s: Store, acts: seq<Action>, e: Store)
    requires Inv(s) && Reaches(s, acts, e)
    ensures Inv(e)
    decreases acts
  {
    if acts != [] {
      InvStep(s, acts[0]);
      InvRun(Next(s, acts[0]), acts[1..], e);
    }
  }

  /**
   In every run the store holds at most 17 images; one that was ever put is
   either still there with the bytes last put under its id, or has been idle for
   the TTL, or at least 16 other ids were accessed no earlier than it.
   */
  lemma MissingOnlyWhenStaleOrCrowdedOut(acts: seq<Action>, s: Store, id: string)
    requires Reaches(Nothing, acts, s)
    ensures |s.images| <= MAX_IMAGES + 1
    ensures id in s.touched ==>
              id in s.latest &&
              ((id in s.images && s.images[id].bytes == s.latest[id]) || MayBeMissing(s, id))
  {
    InvRun(Nothing, acts, s);
  }

  /**
   A lookup in a reachable store returns exactly the bytes last put under the
   id, and misses only ids that were never put, are idle for the TTL, or were
   crowded out by 16 others.
   */
  lemma LookupIsFaithful(acts: seq<Action>, s: Store, kept: set<string>, id: string)
    requires Reaches(Nothing, acts, s) && LegalPrune(s, kept)
    ensures
      match Get(s, kept, id).1
      case Some(bytes) => id in s.latest && bytes == s.latest[id]
      case None => id in s.touched ==> MayBeMissing(s, id)
  {
    InvRun(Nothing, acts, s);
    PruneKeepsInv(s, kept);
  }

  // ---------------------------------------------------------------------------
  // An image in use stays
  // ---------------------------------------------------------------------------

  /** The action stores `bytes` under `id`, or finds them there. */
  ghost predicate Uses(s: Store, a: Action, id: string, bytes: seq<byte>) {
    || (a.PutAt? && a.id == id && a.bytes == bytes)
    || (a.GetAt? && a.id == id && Get(s, a.kept, id).1 == Some(bytes))
  }

  function OtherIds(acts: seq<Action>, id: string): set<string> {
    set a | a in acts && !a.Tick? && a.id != id :: a.id
  }

  /** No other id but these was accessed at `t` or later, and `id` was. */
  predicate UsedSince(s: Store, id: string, t: nat, others: set<string>) {
    && id in s.touched && t <= s.touched[id]
    && forall k | k in s.touched && k != id && t <= s.touched[k] :: k in others
  }

  lemma {:induction false} UseLasts(s: Store, acts: seq<Action>, e: Store, id: string, t: nat, others: set<string>)
    requires UsedSince(s, id, t, others) && id in s.latest && t <= s.now && Reaches(s, acts, e)
    requires forall a | a in acts :: !(a.PutAt? && a.id == id)
    requires OtherIds(acts, id) <= others
    ensures UsedSince(e, id, t, others) && id in e.latest && e.latest[id] == s.latest[id]
    decreases acts
  {
    if acts != [] {
      var a, rest := acts[0], acts[1..];
      assert a in acts && forall b | b in rest :: b in acts;
      if !a.Tick? && a.id != id {
        assert a.id in OtherIds(acts, id);
      }
      assert OtherIds(rest, id) <= OtherIds(acts, id);
      UseLasts(Next(s, a), rest, e, id, t, others);
    }
  }

  /** After an access the id is the only one accessed at this instant or later. */
  lemma UseTouches(s: Store, a: Action, id: string, bytes: seq<byte>)
    requires Inv(s) && Legal(s, a) && Uses(s, a, id, bytes)
    requires forall k | k in s.touched && k != id :: s.touched[k] < s.now
    ensures UsedSince(Next(s, a), id, s.now, {}) && Next(s, a).now == s.now
    ensures id in Next(s, a).latest && Next(s, a).latest[id] == bytes
  {
  }

  lemma UsedIsPresent(e: Store, kept: set<string>, id: string, t: nat, others: set<string>)
    requires Inv(e) && LegalPrune(e, kept) && UsedSince(e, id, t, others)
    requires e.now - t < 300_000_000_000 && |others| < 16
    ensures id in e.latest && Get(e, kept, id).1 == Some(e.latest[id])
  {
    PruneKeepsInv(e, kept);
    SmallerSubset(R.NoOlder(e.touched, id), others);
    assert !MayBeMissing(e, id);
  }

  /**
   An image that is stored, or looked up and found, is found again with the same
   bytes as long as less than 300 seconds have passed and fewer than 16 other ids
   have been asked for, whatever else was done with the store.
   */
  lemma ImageInUseIsFound(
    before: seq<Action>, s: Store, a: Action, acts: seq<Action>, e: Store, kept: set<string>, id: string,
    bytes: seq<byte>)
    requires Reaches(Nothing, before, s) && Legal(s, a) && Uses(s, a, id, bytes)
    requires forall k | k in s.touched && k != id :: s.touched[k] < s.now
    requires Reaches(Next(s, a), acts, e) && LegalPrune(e, kept)
    requires forall b | b in acts :: !(b.PutAt? && b.id == id)
    requires e.now - s.now < 300_000_000_000 && |OtherIds(acts, id)| < 16
    ensures Get(e, kept, id).1 == Some(bytes)
  {
    InvRun(Nothing, before, s);
    InvStep(s, a);
    UseTouches(s, a, id, bytes);
    InvRun(Next(s, a), acts, e);
    UseLasts(Next(s, a), acts, e, id, s.now, OtherIds(acts, id));
    UsedIsPresent(e, kept, id, s.now, OtherIds(acts, id));
  }

  /** Storing keeps what the prune keeps and adds the bytes with the current time; time only passes. */
  lemma StoringAdds(s: Store, kept: set<string>, id: string, bytes: seq<byte>, d: nat)
    requires LegalPrune(s, kept)
    ensures
      var e := Put(s, kept, id, bytes);
      && e.now == s.now && id in e.images && e.images[id] == Entry(bytes, s.now)
      && (forall k | k != id :: (k in e.images <==> k in s.images && k in kept))
      && (forall k | k in e.images && k != id :: e.images[k] == s.images[k])
    ensures Next(s, Tick(d)) == Store(s.images, s.now + d, s.touched, s.latest)
  {
  }

  /** A lookup changes nothing but the time of the entry it finds and what the prune removes. */
  lemma LookupChangesOnlyTheTime(s: Store, kept: set<string>, id: string)
    requires LegalPrune(s, kept)
    ensures
      var (e, found) := Get(s, kept, id);
      && e.now == s.now && e.latest == s.latest
      && (found.Some? <==> id in s.images && id in kept)
      && (found.Some? ==> found.value == s.images[id].bytes && e.images[id] == Entry(s.images[id].bytes, s.now))
      && (forall k :: k in e.images <==> k in s.images && k in kept)
      && (forall k | k in e.images && k != id :: e.images[k] == s.images[k])
  {
  }
}
