/**
 Delta synchronisation of the contact list with a client: everything modified
 after a cursor, split into pages.
 */
module ContactSync {
  import opened Options
  import opened Contacts
  import opened ContactImport

  // ---------------------------------------------------------------------------
  // The cursor
  // ---------------------------------------------------------------------------

  datatype Timestamp = Timestamp(seconds: int, nanos: int)

  const I64_MIN := -0x8000_0000_0000_0000
  const I64_MAX := 0x7FFF_FFFF_FFFF_FFFF

  function Saturate(x: int): int {
    if x < I64_MIN then I64_MIN else if x > I64_MAX then I64_MAX else x
  }

  /** Rust's `/` on integers, which truncates toward zero. */
  function TruncDiv(a: int, b: int): int
    requires b > 0
  {
    if a >= 0 then a / b else -(-a / b)
  }

  function ToMillis(ts: Timestamp): int {
    Saturate(ts.seconds * 1000) + TruncDiv(ts.nanos, 1_000_000)
  }

  /** Nanoseconds count as whole milliseconds toward zero, whatever their sign. */
  lemma NanosTruncate(ts: Timestamp)
    requires I64_MIN <= ts.seconds * 1000 <= I64_MAX
    ensures
      var ms := ToMillis(ts) - ts.seconds * 1000;
      && (ts.nanos >= 0 ==> ms * 1_000_000 <= ts.nanos < (ms + 1) * 1_000_000)
      && (ts.nanos < 0 ==> (ms - 1) * 1_000_000 < ts.nanos <= ms * 1_000_000)
  {
  }

  /** `div_euclid` and `rem_euclid`. */
  function FromMillis(ms: int): Timestamp {
    Timestamp(ms / 1000, ms % 1000 * 1_000_000)
  }

  const LEAST_EXACT_MS := -9_223_372_036_854_775_000

  /** The cursor survives the wire exactly from -9223372036854775000 ms on; below that it moves. */
  lemma CursorRoundTrip(ms: int)
    requires I64_MIN <= ms <= I64_MAX
    ensures ToMillis(FromMillis(ms)) == ms <==> ms >= LEAST_EXACT_MS
    ensures 0 <= FromMillis(ms).nanos < 1_000_000_000
  {
    var q, r := ms / 1000, ms % 1000;
    assert ms == 1000 * q + r && 0 <= r < 1000;
    assert TruncDiv(r * 1_000_000, 1_000_000) == r;
    assert q * 1000 >= I64_MIN <==> q >= -9_223_372_036_854_775;
  }

  // ---------------------------------------------------------------------------
  // Pages
  // ---------------------------------------------------------------------------

  datatype Response = Upserted(contact: Contact) | Deleted(id: string)

  datatype Page = Page(content: seq<Response>, number: int, total: int)

  const I32_MAX := 0x7FFF_FFFF

  /** Page numbers and totals travel as 32-bit integers. */
  function AsI32(n: nat): int {
    if n % 0x1_0000_0000 <= I32_MAX then n % 0x1_0000_0000 else n % 0x1_0000_0000 - 0x1_0000_0000
  }

  function PageSize(requested: int): nat {
    if requested > 0 then requested else 100
  }

  /** A page size that is not positive means one hundred. */
  lemma PageSizeIs(requested: int)
    ensures PageSize(requested) == requested || (requested <= 0 && PageSize(requested) == 100)
    ensures PageSize(requested) > 0
  {
  }

  /** max(1, ceil(n / size)). */
  function TotalPages(n: nat, size: nat): nat
    requires size > 0
  {
    if n == 0 then 1 else (n + size - 1) / size
  }

  function ChunksFrom(xs: seq<Response>, size: nat, number: nat, total: nat): seq<Page>
    requires size > 0
    decreases |xs|
  {
    if |xs| == 0 then []
    else if |xs| <= size then [Page(xs, AsI32(number), AsI32(total))]
    else [Page(xs[..size], AsI32(number), AsI32(total))] + ChunksFrom(xs[size..], size, number + 1, total)
  }

  function Paginate(xs: seq<Response>, size: nat): seq<Page>
    requires size > 0
  {
    var total := TotalPages(|xs|, size);
    if xs == [] then [Page([], 1, AsI32(total))] else ChunksFrom(xs, size, 1, total)
  }

  function Contents(pages: seq<Page>): seq<Response> {
    if pages == [] then [] else pages[0].content + Contents(pages[1..])
  }

  lemma QuotientIsUnique(x: int, d: int, q: int, r: int)
    requires d > 0 && x == q * d + r && 0 <= r < d
    ensures x / d == q
  {
    var p := x / d - q;
    assert x == (x / d) * d + x % d;
    assert p * d == r - x % d;
    MultipleIsFar(p, d);
  }

  lemma MultipleIsFar(p: int, d: int)
    requires d > 0
    ensures p >= 1 ==> p * d >= d
    ensures p <= -1 ==> p * d <= -d
  {
    if p >= 1 {
      assert (p - 1) * d >= 0;
    } else if p <= -1 {
      assert (-p - 1) * d >= 0;
    }
  }

  lemma CeilStep(n: nat, size: nat)
    requires size > 0 && n > size
    ensures TotalPages(n, size) == 1 + TotalPages(n - size, size)
  {
    var x := n - 1;
    var q := x / size;
    assert x + size == (q + 1) * size + x % size;
    QuotientIsUnique(x + size, size, q + 1, x % size);
  }

  lemma CeilOne(n: nat, size: nat)
    requires 0 < n <= size
    ensures TotalPages(n, size) == 1
  {
    QuotientIsUnique(n + size - 1, size, 1, n - 1);
  }

  lemma {:induction false} ChunksAreExact(xs: seq<Response>, size: nat, number: nat, total: nat)
    requires size > 0 && xs != []
    ensures
      var ps := ChunksFrom(xs, size, number, total);
      && Contents(ps) == xs && |ps| == TotalPages(|xs|, size)
      && (forall i | 0 <= i < |ps| :: ps[i].number == AsI32(number + i) && ps[i].total == AsI32(total))
      && (forall i | 0 <= i < |ps| :: 0 < |ps[i].content| <= size)
      && (forall i | 0 <= i < |ps| - 1 :: |ps[i].content| == size)
    decreases |xs|
  {
    if |xs| <= size {
      CeilOne(|xs|, size);
      var ps := [Page(xs, AsI32(number), AsI32(total))];
      assert Contents(ps[1..]) == [];
    } else {
      CeilStep(|xs|, size);
      ChunksAreExact(xs[size..], size, number + 1, total);
      var rest := ChunksFrom(xs[size..], size, number + 1, total);
      var ps := [Page(xs[..size], AsI32(number), AsI32(total))] + rest;
      assert ps[1..] == rest;
      assert xs[..size] + xs[size..] == xs;
    }
  }

  lemma NumbersFitIff(ps: seq<Page>)
    requires ps != [] && forall i | 0 <= i < |ps| :: ps[i].number == AsI32(i + 1) && ps[i].total == AsI32(|ps|)
    ensures (forall i | 0 <= i < |ps| :: ps[i].number == i + 1 && ps[i].total == |ps|) <==> |ps| <= I32_MAX
  {
    assert ps[0].total == AsI32(|ps|);
  }

  /**
   The pages concatenate to the response list and only the last may be short;
   they are numbered from 1 and announce how many there are exactly when that
   number fits into 32 bits.
   */
  lemma PagesAreExact(xs: seq<Response>, size: nat)
    requires size > 0
    ensures
      var ps := Paginate(xs, size);
      && Contents(ps) == xs && |ps| == TotalPages(|xs|, size) >= 1
      && ((forall i | 0 <= i < |ps| :: ps[i].number == i + 1 && ps[i].total == |ps|) <==> |ps| <= I32_MAX)
      && (forall i | 0 <= i < |ps| - 1 :: |ps[i].content| == size)
  {
    if xs == [] {
      var ps := Paginate(xs, size);
      assert Contents(ps[1..]) == [];
    } else {
      ChunksAreExact(xs, size, 1, TotalPages(|xs|, size));
    }
    NumbersFitIff(Paginate(xs, size));
  }

  // ---------------------------------------------------------------------------
  // What the server answers
  // ---------------------------------------------------------------------------

  type Client = map<string, Contact>

  /** The live set as a client should see it. */
  function ViewOf(s: Store): Client {
    map id | id in LiveIds(s) :: Read(s, id).value
  }

  predicate ChangedSince(s: Store, id: string, since: int) {
    id in s.rows && s.rows[id].modifiedAt > since
  }

  predicate TombstoneSince(s: Store, id: string, since: int) {
    ChangedSince(s, id, since) && s.rows[id].deletedAt.Some?
  }

  /** A live contact, modified after `since` if there is one. */
  predicate Listed(s: Store, since: Option<int>, id: string) {
    IsLive(s, id) && (since.Some? ==> ChangedSince(s, id, since.value))
  }

  predicate About(x: Response, id: string) {
    match x
    case Upserted(contact) => contact.id == id
    case Deleted(d) => d == id
  }

  ghost predicate Mentions(xs: seq<Response>, id: string) {
    exists i :: 0 <= i < |xs| && About(xs[i], id)
  }

  function IdOf(x: Response): string {
    match x
    case Upserted(contact) => contact.id
    case Deleted(id) => id
  }

  ghost predicate DistinctIds(xs: seq<Response>) {
    forall i, j | 0 <= i < j < |xs| :: IdOf(xs[i]) != IdOf(xs[j])
  }

  /** `xs` gives every listed contact of `s` as it reads there, once, in any order. */
  ghost predicate ListsContacts(s: Store, since: Option<int>, xs: seq<Response>) {
    && DistinctIds(xs)
    && (forall i | 0 <= i < |xs| ::
          xs[i].Upserted? && Listed(s, since, xs[i].contact.id) && Read(s, xs[i].contact.id) == Some(xs[i].contact))
    && (forall id | Listed(s, since, id) :: Mentions(xs, id))
  }

  /** `xs` gives every id deleted after `since`, once, in any order. */
  ghost predicate ListsDeleted(s: Store, since: int, xs: seq<Response>) {
    && DistinctIds(xs)
    && (forall i | 0 <= i < |xs| :: xs[i].Deleted? && TombstoneSince(s, xs[i].id, since))
    && (forall id | TombstoneSince(s, id, since) :: Mentions(xs, id))
  }

  /** The answer to a sync from `since`: both queries under one lock. */
  ghost predicate Delta(s: Store, since: int, xs: seq<Response>) {
    exists a, b :: ListsContacts(s, Some(since), a) && ListsDeleted(s, since, b) && xs == a + b
  }

  /** The answer to a full sync: the contacts of the store at the first query, then the deletions of
      the store at the second, with the lock released in between. */
  ghost predicate FullList(first: Store, second: Store, xs: seq<Response>) {
    exists a, b :: ListsContacts(first, None, a) && ListsDeleted(second, -1, b) && xs == a + b
  }

  /** `xs` is about exactly the ids in `ids`, each once. */
  ghost predicate Covers(xs: seq<Response>, ids: set<string>) {
    && DistinctIds(xs)
    && (forall i | 0 <= i < |xs| :: IdOf(xs[i]) in ids)
    && (forall id | id in ids :: Mentions(xs, id))
  }

  lemma CoversOneMore(xs: seq<Response>, ids: set<string>, x: Response)
    requires Covers(xs, ids) && IdOf(x) !in ids
    ensures Covers(xs + [x], ids + {IdOf(x)})
  {
    var ys := xs + [x];
    assert About(ys[|xs|], IdOf(x));
    forall id | id in ids ensures Mentions(ys, id) {
      var i :| 0 <= i < |xs| && About(xs[i], id);
      assert About(ys[i], id);
    }
  }

  /** Contacts, each as it reads in `s`. */
  ghost predicate AsRead(s: Store, xs: seq<Response>) {
    forall i | 0 <= i < |xs| :: xs[i].Upserted? && Read(s, xs[i].contact.id) == Some(xs[i].contact)
  }

  lemma AsReadOneMore(s: Store, xs: seq<Response>, id: string)
    requires AsRead(s, xs) && IsLive(s, id)
    ensures Read(s, id).Some? && Read(s, id).value.id == id
    ensures AsRead(s, xs + [Upserted(Read(s, id).value)])
  {
  }

  lemma OneFewerLeft(all: set<string>, left: set<string>, id: string)
    requires left <= all && id in left
    ensures all - (left - {id}) == all - left + {id}
  {
  }

  method ListContacts(s: Store, since: Option<int>) returns (xs: seq<Response>)
    ensures ListsContacts(s, since, xs)
  {
    xs := [];
    var live := set id | id in s.rows && Listed(s, since, id);
    var left := live;
    while left != {}
      invariant left <= live && Covers(xs, live - left) && AsRead(s, xs)
      decreases left
    {
      var id :| id in left;
      var x := Upserted(Read(s, id).value);
      CoversOneMore(xs, live - left, x);
      AsReadOneMore(s, xs, id);
      OneFewerLeft(live, left, id);
      xs := xs + [x];
      left := left - {id};
    }
    assert live - left == live;
    CoveredContacts(s, since, xs, live);
  }

  lemma CoveredContacts(s: Store, since: Option<int>, xs: seq<Response>, live: set<string>)
    requires Covers(xs, live) && AsRead(s, xs) && forall id :: id in live <==> Listed(s, since, id)
    ensures ListsContacts(s, since, xs)
  {
    assert forall i | 0 <= i < |xs| :: IdOf(xs[i]) in live;
  }

  ghost predicate Deletes(xs: seq<Response>, ids: set<string>) {
    Covers(xs, ids) && forall i | 0 <= i < |xs| :: xs[i].Deleted?
  }

  lemma DeletesOneMore(xs: seq<Response>, ids: set<string>, x: Response)
    requires Deletes(xs, ids) && x.Deleted? && IdOf(x) !in ids
    ensures Deletes(xs + [x], ids + {IdOf(x)})
  {
    CoversOneMore(xs, ids, x);
  }

  lemma CoveredDeletions(s: Store, since: int, xs: seq<Response>, gone: set<string>)
    requires Deletes(xs, gone) && forall id :: id in gone <==> TombstoneSince(s, id, since)
    ensures ListsDeleted(s, since, xs)
  {
    assert forall i | 0 <= i < |xs| :: IdOf(xs[i]) in gone;
  }

  method ListDeleted(s: Store, since: int) returns (xs: seq<Response>)
    ensures ListsDeleted(s, since, xs)
  {
    xs := [];
    var gone := set id | id in s.rows && TombstoneSince(s, id, since);
    var left := gone;
    while left != {}
      invariant left <= gone && Deletes(xs, gone - left)
      decreases left
    {
      var id :| id in left;
      var x := Deleted(id);
      DeletesOneMore(xs, gone - left, x);
      OneFewerLeft(gone, left, id);
      xs := xs + [x];
      left := left - {id};
    }
    assert gone - left == gone;
    CoveredDeletions(s, since, xs, gone);
  }

  /** The server's list for a sync, in whatever order the queries return. */
  method ListChangesSince(s: Store, since: int) returns (xs: seq<Response>)
    ensures Delta(s, since, xs)
  {
    var contacts := ListContacts(s, Some(since));
    var deleted := ListDeleted(s, since);
    xs := contacts + deleted;
  }

  /** The server's list for a full sync; the store may have changed between the two queries. */
  method ListEverything(first: Store, second: Store) returns (xs: seq<Response>)
    ensures FullList(first, second, xs)
  {
    var contacts := ListContacts(first, None);
    var deleted := ListDeleted(second, -1);
    xs := contacts + deleted;
  }

  // ---------------------------------------------------------------------------
  // What the client does with it
  // ---------------------------------------------------------------------------

  function ApplyOne(c: Client, x: Response): Client {
    match x
    case Upserted(contact) => c[contact.id := contact]
    case Deleted(id) => c - {id}
  }

  function Apply(c: Client, xs: seq<Response>): Client
    decreases xs
  {
    if xs == [] then c else Apply(ApplyOne(c, xs[0]), xs[1..])
  }

  function ApplyPages(c: Client, ps: seq<Page>): Client
    decreases ps
  {
    if ps == [] then c else ApplyPages(Apply(c, ps[0].content), ps[1..])
  }

  lemma {:induction false} ApplyConcat(c: Client, a: seq<Response>, b: seq<Response>)
    ensures Apply(c, a + b) == Apply(Apply(c, a), b)
    decreases a
  {
    if a == [] {
      assert a + b == b;
    } else {
      assert (a + b)[1..] == a[1..] + b;
      ApplyConcat(ApplyOne(c, a[0]), a[1..], b);
    }
  }

  /** Applying page by page is applying the concatenated list. */
  lemma {:induction false} ApplyPagesIsApply(c: Client, ps: seq<Page>)
    ensures ApplyPages(c, ps) == Apply(c, Contents(ps))
    decreases ps
  {
    if ps != [] {
      ApplyPagesIsApply(Apply(c, ps[0].content), ps[1..]);
      ApplyConcat(c, ps[0].content, Contents(ps[1..]));
    }
  }

  function At(c: Client, id: string): Option<Contact> {
    if id in c then Some(c[id]) else None
  }

  lemma ViewReads(s: Store, id: string)
    ensures At(ViewOf(s), id) == Read(s, id)
  {
  }

  /** Every response about `id` says it is `final`, so that is what the client ends with. */
  lemma {:induction false} ApplyAgreed(c: Client, xs: seq<Response>, id: string, final: Option<Contact>)
    requires forall i | 0 <= i < |xs| && About(xs[i], id) ::
               final == (if xs[i].Upserted? then Some(xs[i].contact) else None)
    ensures At(Apply(c, xs), id) == if Mentions(xs, id) then final else At(c, id)
    decreases xs
  {
    if xs != [] {
      var c' := ApplyOne(c, xs[0]);
      assert forall i | 0 <= i < |xs[1..]| :: xs[1..][i] == xs[i + 1];
      ApplyAgreed(c', xs[1..], id, final);
      assert At(c', id) == if About(xs[0], id) then final else At(c, id);
      if i :| 0 <= i < |xs| && About(xs[i], id) {
        if i > 0 { assert About(xs[1..][i - 1], id); }
      }
      if i :| 0 <= i < |xs[1..]| && About(xs[1..][i], id) {
        assert About(xs[i + 1], id);
      }
    }
  }

  lemma ContactsFix(c: Client, s: Store, since: Option<int>, xs: seq<Response>, id: string)
    requires ListsContacts(s, since, xs)
    ensures At(Apply(c, xs), id) == if Listed(s, since, id) then Read(s, id) else At(c, id)
  {
    ApplyAgreed(c, xs, id, Read(s, id));
  }

  lemma DeletedFix(c: Client, s: Store, since: int, xs: seq<Response>, id: string)
    requires ListsDeleted(s, since, xs)
    ensures At(Apply(c, xs), id) == if TombstoneSince(s, id, since) then None else At(c, id)
  {
    ApplyAgreed(c, xs, id, None);
  }

  lemma PartsFix(c: Client, first: Store, second: Store, since: Option<int>, deletedSince: int,
                 a: seq<Response>, b: seq<Response>, id: string)
    requires ListsContacts(first, since, a) && ListsDeleted(second, deletedSince, b)
    ensures At(Apply(c, a + b), id) ==
            if TombstoneSince(second, id, deletedSince) then None
            else if Listed(first, since, id) then Read(first, id) else At(c, id)
  {
    ContactsFix(c, first, since, a, id);
    DeletedFix(Apply(c, a), second, deletedSince, b, id);
    ApplyConcat(c, a, b);
  }

  /** The delta fixes exactly the ids modified after the cursor. */
  lemma DeltaFixes(c: Client, s: Store, since: int, xs: seq<Response>, id: string)
    requires Delta(s, since, xs)
    ensures At(Apply(c, xs), id) == if ChangedSince(s, id, since) then Read(s, id) else At(c, id)
  {
    var a, b :| ListsContacts(s, Some(since), a) && ListsDeleted(s, since, b) && xs == a + b;
    PartsFix(c, s, s, Some(since), since, a, b, id);
  }

  lemma SameClient(a: Client, b: Client)
    requires forall id :: At(a, id) == At(b, id)
    ensures a == b
  {
    forall id ensures id in a <==> id in b {
      assert At(a, id) == At(b, id);
    }
    forall id | id in a ensures a[id] == b[id] {
      assert At(a, id) == At(b, id);
    }
  }

  /** A client holds the live set of `s` exactly when it is right about every id. */
  lemma IsViewIff(e: Client, s: Store)
    ensures e == ViewOf(s) <==> forall id :: At(e, id) == Read(s, id)
  {
    forall id ensures At(ViewOf(s), id) == Read(s, id) {
      ViewReads(s, id);
    }
    if forall id :: At(e, id) == Read(s, id) {
      SameClient(e, ViewOf(s));
    }
  }

  /**
   Whatever a client holds, a sync from `since` brings it to the server's live
   set if and only if it was already right about every id not modified since.
   */
  lemma SyncConvergesIff(c: Client, s: Store, since: int, xs: seq<Response>, size: nat)
    requires Delta(s, since, xs) && size > 0
    ensures ApplyPages(c, Paginate(xs, size)) == ViewOf(s) <==>
            forall id | !ChangedSince(s, id, since) :: At(c, id) == Read(s, id)
  {
    PagesAreExact(xs, size);
    ApplyPagesIsApply(c, Paginate(xs, size));
    var e := Apply(c, xs);
    forall id ensures At(e, id) == if ChangedSince(s, id, since) then Read(s, id) else At(c, id) {
      DeltaFixes(c, s, since, xs, id);
    }
    IsViewIff(e, s);
  }

  // ---------------------------------------------------------------------------
  // Runs of the store
  // ---------------------------------------------------------------------------

  datatype Operation =
    | Upsert(contact: Contact, ts: int)
    | Remove(id: string, ts: int)
    | Import(contacts: seq<Contact>, ids: seq<string>, ts: int)

  function Perform(s: Store, op: Operation): Store {
    match op
    case Upsert(c, ts) => Save(s, c, ts)
    case Remove(id, ts) => Delete(s, id, ts)
    case Import(cs, ids, ts) => if |cs| == |ids| then SaveAll(s, cs, ids, ts) else s
  }

  function PerformAll(s: Store, ops: seq<Operation>): Store
    decreases ops
  {
    if ops == [] then s else PerformAll(Perform(s, ops[0]), ops[1..])
  }

  /** An id is either as it was in `s`, or stamped after `since`. */
  predicate Settled(s: Store, t: Store, since: int, id: string) {
    || ChangedSince(t, id, since)
    || (Read(t, id) == Read(s, id) && (id in t.rows <==> id in s.rows))
  }

  lemma {:induction false} SaveAllSettled(s: Store, t: Store, cs: seq<Contact>, ids: seq<string>, ts: int, since: int,
                                          id: string)
    requires |cs| == |ids| && ts > since && Settled(s, t, since, id)
    ensures Settled(s, SaveAll(t, cs, ids, ts), since, id)
    decreases |cs|
  {
    if cs != [] {
      var n := |cs| - 1;
      SaveAllSettled(s, t, cs[..n], ids[..n], ts, since, id);
      SaveThenRead(SaveAll(t, cs[..n], ids[..n], ts), WithId(cs[n], ids[n]), ts, id);
    }
  }

  lemma {:induction false} RunSettled(s: Store, t: Store, ops: seq<Operation>, since: int, id: string)
    requires Settled(s, t, since, id) && forall op | op in ops :: op.ts > since
    ensures Settled(s, PerformAll(t, ops), since, id)
    decreases ops
  {
    if ops != [] {
      var op := ops[0];
      match op {
        case Upsert(c, ts) => SaveThenRead(t, c, ts, id);
        case Remove(gone, ts) => DeleteThenRead(t, gone, ts, id);
        case Import(cs, ids, ts) => if |cs| == |ids| { SaveAllSettled(s, t, cs, ids, ts, since, id); }
      }
      RunSettled(s, Perform(t, op), ops[1..], since, id);
    }
  }

  /**
   After any sequence of upserts, deletions, resurrections and imports stamped
   later than the cursor, a client that held the live set at the cursor and
   applies every page of the delta holds the server's live set again.
   */
  lemma SyncConverges(s: Store, ops: seq<Operation>, cursor: int, xs: seq<Response>, requestedSize: int)
    requires LEAST_EXACT_MS <= cursor <= I64_MAX
    requires forall op | op in ops :: op.ts > cursor
    requires Delta(PerformAll(s, ops), ToMillis(FromMillis(cursor)), xs)
    ensures ApplyPages(ViewOf(s), Paginate(xs, PageSize(requestedSize))) == ViewOf(PerformAll(s, ops))
  {
    CursorRoundTrip(cursor);
    var t := PerformAll(s, ops);
    forall id | !ChangedSince(t, id, cursor) ensures At(ViewOf(s), id) == Read(t, id) {
      ViewReads(s, id);
      RunSettled(s, s, ops, cursor, id);
    }
    SyncConvergesIff(ViewOf(s), t, cursor, xs, PageSize(requestedSize));
  }

  lemma {:induction false} SaveAllStamps(s: Store, cs: seq<Contact>, ids: seq<string>, ts: int, id: string)
    requires |cs| == |ids|
    ensures var t := SaveAll(s, cs, ids, ts);
            Read(t, id) == Read(s, id) || (id in t.rows && t.rows[id].modifiedAt == ts)
    decreases |cs|
  {
    if cs != [] {
      var n := |cs| - 1;
      SaveAllStamps(s, cs[..n], ids[..n], ts, id);
      SaveThenRead(SaveAll(s, cs[..n], ids[..n], ts), WithId(cs[n], ids[n]), ts, id);
    }
  }

  /** Whatever an operation changes carries its time stamp. */
  lemma ChangesAreStamped(s: Store, op: Operation, id: string)
    ensures var t := Perform(s, op);
            Read(t, id) == Read(s, id) || (id in t.rows && t.rows[id].modifiedAt == op.ts)
  {
    match op
    case Upsert(c, ts) => SaveThenRead(s, c, ts, id);
    case Remove(gone, ts) => DeleteThenRead(s, gone, ts, id);
    case Import(cs, ids, ts) => if |cs| == |ids| { SaveAllStamps(s, cs, ids, ts, id); }
  }

  /** An upsert, deletion or import stamped exactly at the cursor is never sent: a client that held
      the live set before it keeps its old copy of everything the operation changed. */
  lemma ChangeAtCursorIsMissed(s: Store, op: Operation, xs: seq<Response>, size: nat)
    requires size > 0 && Delta(Perform(s, op), op.ts, xs)
    ensures ApplyPages(ViewOf(s), Paginate(xs, size)) == ViewOf(Perform(s, op)) <==>
            forall id :: Read(Perform(s, op), id) == Read(s, id)
  {
    var t := Perform(s, op);
    SyncConvergesIff(ViewOf(s), t, op.ts, xs, size);
    forall id
      ensures At(ViewOf(s), id) == Read(s, id) && (Read(t, id) == Read(s, id) || !ChangedSince(t, id, op.ts))
    {
      ViewReads(s, id);
      ChangesAreStamped(s, op, id);
    }
  }

  // ---------------------------------------------------------------------------
  // Full synchronisation
  // ---------------------------------------------------------------------------

  lemma FullListFixes(c: Client, first: Store, second: Store, xs: seq<Response>, id: string)
    requires FullList(first, second, xs)
    ensures At(Apply(c, xs), id) ==
            if TombstoneSince(second, id, -1) then None
            else if IsLive(first, id) then Read(first, id) else At(c, id)
  {
    var a, b :| ListsContacts(first, None, a) && ListsDeleted(second, -1, b) && xs == a + b;
    PartsFix(c, first, second, None, -1, a, b, id);
  }

  /** The first query, or else the client itself, is right about `id` as of the second query. */
  predicate KnownAtSecond(c: Client, first: Store, second: Store, id: string) {
    (if IsLive(first, id) then Read(first, id) else At(c, id)) == Read(second, id)
  }

  /**
   A full sync whose second query sees the store `second` brings a client to that
   store's live set exactly when every id without a listed tombstone reads there
   as it did at the first query or, if it was not live then, as the client has it.
   */
  lemma FullSyncConvergesIff(c: Client, first: Store, second: Store, xs: seq<Response>, size: nat)
    requires size > 0 && FullList(first, second, xs)
    ensures ApplyPages(c, Paginate(xs, size)) == ViewOf(second) <==>
            forall id | !TombstoneSince(second, id, -1) :: KnownAtSecond(c, first, second, id)
  {
    PagesAreExact(xs, size);
    ApplyPagesIsApply(c, Paginate(xs, size));
    var e := Apply(c, xs);
    forall id
      ensures At(e, id) == Read(second, id) <==> TombstoneSince(second, id, -1) || KnownAtSecond(c, first, second, id)
    {
      FullListFixes(c, first, second, xs, id);
    }
    IsViewIff(e, second);
  }

  /**
   With nothing happening in between, it converges exactly when every id the
   client holds is live or was deleted at a non-negative time.
   */
  lemma UndisturbedFullSyncIff(c: Client, s: Store, xs: seq<Response>, size: nat)
    requires size > 0 && FullList(s, s, xs)
    ensures ApplyPages(c, Paginate(xs, size)) == ViewOf(s) <==>
            forall id | id in c :: IsLive(s, id) || TombstoneSince(s, id, -1)
  {
    FullSyncConvergesIff(c, s, s, xs, size);
    if forall id | id in c :: IsLive(s, id) || TombstoneSince(s, id, -1) {
      forall id | !TombstoneSince(s, id, -1) ensures KnownAtSecond(c, s, s, id) {
      }
    } else {
      var id :| id in c && !IsLive(s, id) && !TombstoneSince(s, id, -1);
      assert !KnownAtSecond(c, s, s, id);
    }
  }

  /**
   With any operations in between, stamped at non-negative times, it converges
   exactly when besides that every contact live at the second query was the same
   at the first, or was not live then and the client happens to hold it.
   */
  lemma DisturbedFullSyncIff(c: Client, first: Store, ops: seq<Operation>, xs: seq<Response>, size: nat)
    requires size > 0 && FullList(first, PerformAll(first, ops), xs)
    requires forall op | op in ops :: op.ts >= 0
    ensures
      var second := PerformAll(first, ops);
      ApplyPages(c, Paginate(xs, size)) == ViewOf(second) <==>
        && (forall id | id in c :: IsLive(second, id) || TombstoneSince(second, id, -1))
        && (forall id | IsLive(second, id) ::
              Read(first, id) == Read(second, id) || (!IsLive(first, id) && At(c, id) == Read(second, id)))
  {
    var second := PerformAll(first, ops);
    FullSyncConvergesIff(c, first, second, xs, size);
    forall id
      ensures IsLive(first, id) ==> IsLive(second, id) || TombstoneSince(second, id, -1)
      ensures IsLive(second, id) ==>
                (KnownAtSecond(c, first, second, id) <==>
                   Read(first, id) == Read(second, id) || (!IsLive(first, id) && At(c, id) == Read(second, id)))
      ensures !IsLive(second, id) && !TombstoneSince(second, id, -1) ==>
                (KnownAtSecond(c, first, second, id) <==> id !in c)
    {
      RunSettled(first, first, ops, -1, id);
    }
    if forall id | !TombstoneSince(second, id, -1) :: KnownAtSecond(c, first, second, id) {
      forall id | IsLive(second, id)
        ensures Read(first, id) == Read(second, id) || (!IsLive(first, id) && At(c, id) == Read(second, id))
      {
        assert KnownAtSecond(c, first, second, id);
      }
      forall id | id in c ensures IsLive(second, id) || TombstoneSince(second, id, -1) {
        assert TombstoneSince(second, id, -1) || KnownAtSecond(c, first, second, id);
      }
    }
  }

  /** A contact that is created or resurrected between the two queries is missed by every client that
      does not already hold it. */
  lemma SavedBetweenIsMissed(c: Client, first: Store, contact: Contact, ts: int, xs: seq<Response>, size: nat)
    requires size > 0 && !IsLive(first, contact.id)
    requires FullList(first, Save(first, contact, ts), xs)
    ensures ApplyPages(c, Paginate(xs, size)) == ViewOf(Save(first, contact, ts)) ==>
              At(c, contact.id) == Some(contact.(modifiedAt := ts))
  {
    var second := Save(first, contact, ts);
    SaveThenRead(first, contact, ts, contact.id);
    FullSyncConvergesIff(c, first, second, xs, size);
    assert IsLive(second, contact.id) && !TombstoneSince(second, contact.id, -1);
    if forall id | !TombstoneSince(second, id, -1) :: KnownAtSecond(c, first, second, id) {
      assert KnownAtSecond(c, first, second, contact.id);
    }
  }
}
