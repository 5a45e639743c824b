/** Laying `config.local.toml` over the main configuration: tables merge key by key, anything else replaces. */
module TomlOverlay {

  /** Scalars and arrays are leaves: the overlay never looks inside them. */
  datatype Toml = Table(entries: map<string, Toml>) | Leaf(value: string)

  function Merge(base: Toml, overlay: Toml): Toml
    decreases overlay
  {
    if base.Table? && overlay.Table? then
      Table(map k | k in base.entries.Keys + overlay.entries.Keys ::
              if k !in overlay.entries then base.entries[k]
              else if k in base.entries then Merge(base.entries[k], overlay.entries[k])
              else overlay.entries[k])
    else overlay
  }

  method MergeToml(base: Toml, overlay: Toml) returns (merged: Toml)
    ensures merged == Merge(base, overlay)
    decreases overlay
  {
    if base.Leaf? || overlay.Leaf? {
      return overlay;
    }
    var entries := base.entries;
    var left := overlay.entries.Keys;
    while left != {}
      invariant left <= overlay.entries.Keys
      invariant entries.Keys == base.entries.Keys + (overlay.entries.Keys - left)
      invariant forall k :: k in entries ==>
                  entries[k] == if k in left || k !in overlay.entries then base.entries[k]
                                else Merge(base, overlay).entries[k]
      decreases left
    {
      var key :| key in left;
      left := left - {key};
      if key in entries {
        var value := MergeToml(entries[key], overlay.entries[key]);
        entries := entries[key := value];
      } else {
        entries := entries[key := overlay.entries[key]];
      }
    }
    merged := Table(entries);
    assert merged.entries == Merge(base, overlay).entries;
  }

  // ---- Looking along a path ----

  datatype Node = Missing | IsTable | IsLeaf(value: string)

  function At(t: Toml, path: seq<string>): Node
    decreases path
  {
    if path == [] then (if t.Table? then IsTable else IsLeaf(t.value))
    else if t.Table? && path[0] in t.entries then At(t.entries[path[0]], path[1..])
    else Missing
  }

  /** Some proper prefix of the path ends at a leaf. */
  predicate Blocked(t: Toml, path: seq<string>)
    decreases path
  {
    path != [] && (t.Leaf? || (path[0] in t.entries && Blocked(t.entries[path[0]], path[1..])))
  }

  lemma {:induction false} BlockedIff(t: Toml, path: seq<string>)
    ensures Blocked(t, path) <==> exists n: nat :: n < |path| && At(t, path[..n]).IsLeaf?
    decreases path
  {
    if path != [] {
      if t.Leaf? {
        assert At(t, path[..0]).IsLeaf?;
      } else if path[0] in t.entries {
        var child, rest := t.entries[path[0]], path[1..];
        BlockedIff(child, rest);
        if n: nat :| n < |rest| && At(child, rest[..n]).IsLeaf? {
          assert path[..n + 1][1..] == rest[..n];
          assert At(t, path[..n + 1]).IsLeaf?;
        }
        if n: nat :| n < |path| && At(t, path[..n]).IsLeaf? {
          assert n > 0;
          assert path[..n][1..] == rest[..n - 1];
        }
      } else {
        forall n: nat | n < |path| ensures !At(t, path[..n]).IsLeaf? {
          if n > 0 { assert path[..n][0] == path[0]; }
        }
      }
    }
  }

  /** The path law: the overlay decides wherever it says something, its leaves hide what the base had
      below them, every other base path survives, and nothing else appears. */
  lemma {:induction false} PathLaw(base: Toml, overlay: Toml, path: seq<string>)
    ensures At(Merge(base, overlay), path) ==
            if At(overlay, path) != Missing then At(overlay, path)
            else if Blocked(overlay, path) then Missing
            else At(base, path)
    decreases path
  {
    if path != [] && base.Table? && overlay.Table? && path[0] in base.entries && path[0] in overlay.entries {
      PathLaw(base.entries[path[0]], overlay.entries[path[0]], path[1..]);
    }
  }

  ghost predicate SameEverywhere(a: Toml, b: Toml) {
    forall path :: At(a, path) == At(b, path)
  }

  /** A configuration is determined by what is at its paths. */
  lemma {:induction false} SameEverywhereIsEqual(a: Toml, b: Toml)
    requires SameEverywhere(a, b)
    ensures a == b
    decreases a
  {
    assert At(a, []) == At(b, []);
    if a.Table? {
      assert b.Table?;
      forall k ensures k in a.entries <==> k in b.entries {
        SameKeys(a, b, k);
      }
      forall k | k in a.entries ensures a.entries[k] == b.entries[k] {
        SameBelow(a, b, k);
        SameEverywhereIsEqual(a.entries[k], b.entries[k]);
      }
      assert a.entries == b.entries;
    }
  }

  lemma AtKey(t: Toml, k: string, path: seq<string>)
    requires t.Table?
    ensures At(t, [k] + path) == if k in t.entries then At(t.entries[k], path) else Missing
  {
    assert ([k] + path)[1..] == path;
  }

  lemma SameKeys(a: Toml, b: Toml, k: string)
    requires SameEverywhere(a, b) && a.Table? && b.Table?
    ensures k in a.entries <==> k in b.entries
  {
    AtKey(a, k, []);
    AtKey(b, k, []);
    assert At(a, [k] + []) == At(b, [k] + []);
  }

  lemma SameBelow(a: Toml, b: Toml, k: string)
    requires SameEverywhere(a, b) && a.Table? && b.Table? && k in a.entries && k in b.entries
    ensures SameEverywhere(a.entries[k], b.entries[k])
  {
    forall path ensures At(a.entries[k], path) == At(b.entries[k], path) {
      AtKey(a, k, path);
      AtKey(b, k, path);
      assert At(a, [k] + path) == At(b, [k] + path);
    }
  }

  // ---- Laws of the overlay ----

  lemma MergeWithItself(a: Toml)
    ensures Merge(a, a) == a
  {
    forall path ensures At(Merge(a, a), path) == At(a, path) {
      PathLaw(a, a, path);
    }
    SameEverywhereIsEqual(Merge(a, a), a);
  }

  /** Laying the same overlay a second time changes nothing. */
  lemma MergeTwice(a: Toml, b: Toml)
    ensures Merge(Merge(a, b), b) == Merge(a, b)
  {
    forall path ensures At(Merge(Merge(a, b), b), path) == At(Merge(a, b), path) {
      PathLaw(Merge(a, b), b, path);
      PathLaw(a, b, path);
    }
    SameEverywhereIsEqual(Merge(Merge(a, b), b), Merge(a, b));
  }

  /** A leaf of `b` hides a path of `a`, a table of `c` takes the leaf's place, and neither it nor a
      leaf of `c` says anything at the path. */
  ghost predicate Clash(a: Toml, b: Toml, c: Toml, path: seq<string>, n: nat) {
    && n < |path|
    && At(a, path) != Missing && At(b, path[..n]).IsLeaf? && At(c, path[..n]) == IsTable
    && At(c, path) == Missing && !Blocked(c, path)
  }

  lemma BlockedBelow(t: Toml, path: seq<string>, n: nat)
    requires n <= |path| && Blocked(t, path[..n])
    ensures Blocked(t, path)
  {
    BlockedIff(t, path[..n]);
    BlockedIff(t, path);
    var k: nat :| k < n && At(t, path[..n][..k]).IsLeaf?;
    assert path[..n][..k] == path[..k];
  }

  /** Where an overlay says nothing and blocks nothing, the merge is blocked by those base leaves
      that the overlay does not speak about. */
  lemma MergeBlockedIff(b: Toml, c: Toml, path: seq<string>)
    requires !Blocked(c, path)
    ensures Blocked(Merge(b, c), path) <==>
              exists n: nat :: n < |path| && At(b, path[..n]).IsLeaf? && At(c, path[..n]) == Missing
  {
    BlockedIff(Merge(b, c), path);
    BlockedIff(c, path);
    forall n: nat | n < |path|
      ensures At(Merge(b, c), path[..n]).IsLeaf? <==> At(b, path[..n]).IsLeaf? && At(c, path[..n]) == Missing
    {
      PathLaw(b, c, path[..n]);
      if Blocked(c, path[..n]) {
        BlockedBelow(c, path, n);
        assert false;
      }
    }
  }

  /** Below a leaf there is nothing. */
  lemma {:induction false} BlockedIsMissing(t: Toml, path: seq<string>)
    requires Blocked(t, path)
    ensures At(t, path) == Missing
    decreases path
  {
    if t.Table? {
      BlockedIsMissing(t.entries[path[0]], path[1..]);
    }
  }

  lemma {:induction false} OneLeafOnPath(t: Toml, path: seq<string>, n: nat, m: nat)
    requires n < |path| && m < |path| && At(t, path[..n]).IsLeaf? && At(t, path[..m]).IsLeaf?
    ensures n == m
  {
    if n < m {
      assert path[..m][..n] == path[..n];
      BlockedIff(t, path[..m]);
      BlockedIsMissing(t, path[..m]);
    } else if m < n {
      assert path[..n][..m] == path[..m];
      BlockedIff(t, path[..n]);
      BlockedIsMissing(t, path[..n]);
    }
  }

  /** At one path the two groupings differ exactly when there is a clash there. */
  lemma GroupingsDifferIff(a: Toml, b: Toml, c: Toml, path: seq<string>)
    ensures At(Merge(Merge(a, b), c), path) != At(Merge(a, Merge(b, c)), path)
       <==> exists n: nat :: Clash(a, b, c, path, n)
  {
    PathLaw(Merge(a, b), c, path);
    PathLaw(a, b, path);
    PathLaw(a, Merge(b, c), path);
    PathLaw(b, c, path);
    if At(c, path) == Missing {
      if Blocked(c, path) {
        BlockedIff(c, path);
        BlockedIff(Merge(b, c), path);
        var n: nat :| n < |path| && At(c, path[..n]).IsLeaf?;
        PathLaw(b, c, path[..n]);
        assert At(Merge(b, c), path[..n]).IsLeaf?;
      } else {
        QuietOverlay(a, b, c, path);
        if Blocked(b, path) {
          BlockedIsMissing(b, path);
        }
      }
    }
  }

  lemma QuietOverlay(a: Toml, b: Toml, c: Toml, path: seq<string>)
    requires At(c, path) == Missing && !Blocked(c, path)
    ensures Blocked(Merge(b, c), path) ==> Blocked(b, path)
    ensures (exists n: nat :: Clash(a, b, c, path, n))
       <==> At(a, path) != Missing && Blocked(b, path) && !Blocked(Merge(b, c), path)
  {
    MergeBlockedIff(b, c, path);
    BlockedIff(b, path);
    BlockedIff(c, path);
    if n: nat :| Clash(a, b, c, path, n) {
      if m: nat :| m < |path| && At(b, path[..m]).IsLeaf? && At(c, path[..m]) == Missing {
        OneLeafOnPath(b, path, n, m);
        assert false;
      }
    }
    if At(a, path) != Missing && Blocked(b, path) && !Blocked(Merge(b, c), path) {
      var n: nat :| n < |path| && At(b, path[..n]).IsLeaf?;
      assert At(c, path[..n]) == IsTable;
      assert Clash(a, b, c, path, n);
    }
  }

  /** Overlays may be combined first exactly when no leaf of the middle one separates a path of the
      first from a table of the last. */
  lemma AssociativeIff(a: Toml, b: Toml, c: Toml)
    ensures Merge(Merge(a, b), c) == Merge(a, Merge(b, c))
       <==> !exists path, n: nat :: Clash(a, b, c, path, n)
  {
    var left, right := Merge(Merge(a, b), c), Merge(a, Merge(b, c));
    if path, n: nat :| Clash(a, b, c, path, n) {
      GroupingsDifferIff(a, b, c, path);
    } else {
      forall path ensures At(left, path) == At(right, path) {
        GroupingsDifferIff(a, b, c, path);
      }
      SameEverywhereIsEqual(left, right);
    }
  }

  /** In particular when no path is a table in one file and a leaf in another. */
  lemma AssociativeWhenShapesAgree(a: Toml, b: Toml, c: Toml)
    requires forall path :: !(At(b, path).IsLeaf? && At(c, path) == IsTable)
    ensures Merge(Merge(a, b), c) == Merge(a, Merge(b, c))
  {
    AssociativeIff(a, b, c);
  }
}
