/**
 The eviction both bounded stores share: drop what has expired, then keep the
 most recently stamped entries up to a cap.  Entries with equal stamps may be
 kept in any choice, because the maps iterate in no particular order.
 */
module TopK {
  /** Key and stamp. */
  type Stamped<K> = (K, int)

  predicate Descending<K>(xs: seq<Stamped<K>>) {
    forall i, j | 0 <= i < j < |xs| :: xs[i].1 >= xs[j].1
  }

  predicate Distinct<K(==)>(xs: seq<Stamped<K>>) {
    forall i, j | 0 <= i < j < |xs| :: xs[i].0 != xs[j].0
  }

  /** `xs` lists every key of `m` once, with its stamp. */
  ghost predicate Lists<K>(xs: seq<Stamped<K>>, m: map<K, int>) {
    && Distinct(xs)
    && (forall i | 0 <= i < |xs| :: xs[i].0 in m && m[xs[i].0] == xs[i].1)
    && (forall k | k in m :: exists i :: 0 <= i < |xs| && xs[i].0 == k)
  }

  /** Entries that have not expired. */
  function Live<K>(m: map<K, int>, cutoff: int): map<K, int> {
    map k | k in m && m[k] >= cutoff :: m[k]
  }

  /**
   `kept` is a legal result of pruning `m`: every kept key is unexpired, at most
   `cap` remain (all of them, if there are no more than `cap`), and no dropped
   unexpired key is more recent than a kept one.
   */
  ghost predicate Pruned<K(!new)>(m: map<K, int>, cutoff: int, cap: nat, kept: set<K>) {
    var live := Live(m, cutoff);
    && kept <= live.Keys
    && |kept| == (if |live| <= cap then |live| else cap)
    && (forall a, b | a in kept && b in live && b !in kept :: m[a] >= m[b])
  }

  /** Within the cap only expired entries go. */
  lemma PrunedWithinCap<K(!new)>(m: map<K, int>, cutoff: int, cap: nat, kept: set<K>)
    requires Pruned(m, cutoff, cap, kept) && |Live(m, cutoff)| <= cap
    ensures kept == Live(m, cutoff).Keys
  {
    var live := Live(m, cutoff);
    if kept != live.Keys {
      SmallerSubset(kept, live.Keys);
    }
  }

  lemma SmallerSubset<T>(a: set<T>, b: set<T>)
    requires a <= b
    ensures |a| <= |b| && (a != b ==> |a| < |b|)
  {
    assert b == a + (b - a);
    if a != b {
      var x :| x in b - a;
    }
  }

  method InsertSorted<K>(xs: seq<Stamped<K>>, x: Stamped<K>) returns (ys: seq<Stamped<K>>, at: nat)
    requires Descending(xs)
    ensures Descending(ys) && at <= |xs| && ys == InsertAt(xs, x, at)
  {
    at := 0;
    while at < |xs| && xs[at].1 >= x.1
      invariant at <= |xs| && forall i | 0 <= i < at :: xs[i].1 >= x.1
    {
      at := at + 1;
    }
    ys := InsertAt(xs, x, at);
  }

  /** `xs` with `x` put in at position `at`. */
  function InsertAt<T>(xs: seq<T>, x: T, at: nat): seq<T>
    requires at <= |xs|
  {
    xs[..at] + [x] + xs[at..]
  }

  /** Where element `i` of the longer sequence comes from. */
  function Origin(i: nat, at: nat): int {
    if i < at then i else i - 1
  }

  lemma DistinctInsert<K>(xs: seq<Stamped<K>>, k: K, v: int, at: nat)
    requires Distinct(xs) && at <= |xs| && forall i | 0 <= i < |xs| :: xs[i].0 != k
    ensures Distinct(InsertAt(xs, (k, v), at))
  {
    var ys := InsertAt(xs, (k, v), at);
    forall i, j | 0 <= i < j < |ys| ensures ys[i].0 != ys[j].0 {
      assert i == at || ys[i] == xs[Origin(i, at)];
      assert j == at || ys[j] == xs[Origin(j, at)];
    }
  }

  lemma CoversInsert<K>(xs: seq<Stamped<K>>, k: K, v: int, at: nat, j: K)
    requires at <= |xs|
    requires j == k || exists i :: 0 <= i < |xs| && xs[i].0 == j
    ensures exists i :: 0 <= i < |InsertAt(xs, (k, v), at)| && InsertAt(xs, (k, v), at)[i].0 == j
  {
    var ys := InsertAt(xs, (k, v), at);
    if j == k {
      assert ys[at].0 == j;
    } else {
      var i :| 0 <= i < |xs| && xs[i].0 == j;
      assert ys[if i < at then i else i + 1].0 == j;
    }
  }

  lemma ListsInsert<K>(xs: seq<Stamped<K>>, m: map<K, int>, k: K, v: int, at: nat)
    requires Lists(xs, m) && k !in m && at <= |xs|
    ensures Lists(InsertAt(xs, (k, v), at), m[k := v])
  {
    DistinctInsert(xs, k, v, at);
    var m', ys := m[k := v], InsertAt(xs, (k, v), at);
    forall i | 0 <= i < |ys| ensures ys[i].0 in m' && m'[ys[i].0] == ys[i].1 {
      assert i == at || ys[i] == xs[Origin(i, at)];
    }
    forall j | j in m' ensures exists i :: 0 <= i < |ys| && ys[i].0 == j {
      CoversInsert(xs, k, v, at, j);
    }
  }

  /** Collects the entries of `m` in whatever order they come, most recent first. */
  method Ordered<K(!new)>(m: map<K, int>) returns (xs: seq<Stamped<K>>)
    ensures Lists(xs, m) && Descending(xs)
  {
    xs := [];
    var left := m.Keys;
    while left != {}
      invariant left <= m.Keys
      invariant Lists(xs, map k | k in m && k !in left :: m[k])
      invariant Descending(xs)
      decreases left
    {
      var k :| k in left;
      ghost var done := map j | j in m && j !in left :: m[j];
      left := left - {k};
      var at;
      ghost var before := xs;
      xs, at := InsertSorted(xs, (k, m[k]));
      ListsInsert(before, done, k, m[k], at);
      assert done[k := m[k]] == map j | j in m && j !in left :: m[j];
    }
    assert m == map k | k in m && k !in left :: m[k];
  }

  function KeysOf<K>(xs: seq<Stamped<K>>): set<K> {
    set i | 0 <= i < |xs| :: xs[i].0
  }

  lemma {:induction false} KeysOfCount<K>(xs: seq<Stamped<K>>)
    requires Distinct(xs)
    ensures |KeysOf(xs)| == |xs|
  {
    if xs != [] {
      var front, last := xs[..|xs| - 1], xs[|xs| - 1];
      KeysOfCount(front);
      assert KeysOf(xs) == KeysOf(front) + {last.0} by {
        assert forall i | 0 <= i < |front| :: front[i] == xs[i];
      }
      assert last.0 !in KeysOf(front);
    }
  }

  lemma ListsCount<K>(xs: seq<Stamped<K>>, m: map<K, int>)
    requires Lists(xs, m)
    ensures |xs| == |m| && KeysOf(xs) == m.Keys
  {
    KeysOfCount(xs);
    assert KeysOf(xs) == m.Keys;
  }

  lemma TakenKey<K>(xs: seq<Stamped<K>>, cap: nat, j: nat)
    requires j < |xs| && cap <= |xs|
    ensures j < cap ==> xs[j].0 in KeysOf(xs[..cap])
  {
    if j < cap {
      assert xs[..cap][j] == xs[j];
    }
  }

  lemma TakeIsPruned<K(!new)>(m: map<K, int>, cutoff: int, cap: nat, xs: seq<Stamped<K>>)
    requires Lists(xs, Live(m, cutoff)) && Descending(xs) && |Live(m, cutoff)| > cap
    ensures cap < |xs| && Pruned(m, cutoff, cap, KeysOf(xs[..cap]))
  {
    var live := Live(m, cutoff);
    ListsCount(xs, live);
    var kept := KeysOf(xs[..cap]);
    KeysOfCount(xs[..cap]);
    forall a, b | a in kept && b in live && b !in kept ensures m[a] >= m[b] {
      TakenIsMoreRecent(live, cap, xs, a, b);
    }
    forall a | a in kept ensures a in live {
      var i :| 0 <= i < cap && xs[..cap][i].0 == a;
      assert xs[i].0 == a;
    }
  }

  lemma TakenIsMoreRecent<K(!new)>(live: map<K, int>, cap: nat, xs: seq<Stamped<K>>, a: K, b: K)
    requires Lists(xs, live) && Descending(xs) && cap < |xs|
    requires a in KeysOf(xs[..cap]) && b in live && b !in KeysOf(xs[..cap])
    ensures a in live && live[a] >= live[b]
  {
    var i :| 0 <= i < cap && xs[..cap][i].0 == a;
    var j :| 0 <= j < |xs| && xs[j].0 == b;
    assert xs[i].0 == a;
    TakenKey(xs, cap, j);
  }

  /** Retain the unexpired; above the cap, sort by stamp and keep the first `cap`. */
  method Prune<K(!new)>(m: map<K, int>, cutoff: int, cap: nat) returns (kept: set<K>)
    ensures Pruned(m, cutoff, cap, kept)
  {
    var live := Live(m, cutoff);
    if |live| <= cap {
      kept := live.Keys;
      return;
    }
    var ordered := Ordered(live);
    ListsCount(ordered, live);
    TakeIsPruned(m, cutoff, cap, ordered);
    kept := KeysOf(ordered[..cap]);
  }
}
