/**
 What can have gone from a bounded store: `touched` remembers the last access to
 every key there ever was, `present` are the keys still stored.
 */
module Recency {
  import opened TopK

  /** Other keys accessed no earlier than `id`. */
  function NoOlder(touched: map<string, nat>, id: string): set<string>
    requires id in touched
  {
    set k | k in touched && k != id && touched[k] >= touched[id]
  }

  /** `id` has expired, or `cap` others are at least as recent. */
  predicate MayBeMissing(touched: map<string, nat>, cutoff: int, cap: nat, id: string)
    requires id in touched
  {
    touched[id] < cutoff || |NoOlder(touched, id)| >= cap
  }

  ghost predicate MissingOk(touched: map<string, nat>, present: set<string>, cutoff: int, cap: nat) {
    && present <= touched.Keys
    && forall k | k in touched && k !in present :: MayBeMissing(touched, cutoff, cap, k)
  }

  function Stamps(touched: map<string, nat>, present: set<string>): map<string, int> {
    map k | k in touched && k in present :: touched[k]
  }

  lemma DroppedMayBeMissing(touched: map<string, nat>, present: set<string>, cutoff: int, cap: nat, kept: set<string>,
                            id: string)
    requires Pruned(Stamps(touched, present), cutoff, cap, kept)
    requires id in touched && id in present && id !in kept
    ensures MayBeMissing(touched, cutoff, cap, id)
  {
    var stamps := Stamps(touched, present);
    var live := Live(stamps, cutoff);
    if id in live {
      if |live| <= cap {
        PrunedWithinCap(stamps, cutoff, cap, kept);
      } else {
        forall k | k in kept ensures k in NoOlder(touched, id) {
          assert stamps[k] >= stamps[id];
        }
        SmallerSubset(kept, NoOlder(touched, id));
      }
    }
  }

  lemma PruneKeepsMissing(touched: map<string, nat>, present: set<string>, cutoff: int, cap: nat, kept: set<string>)
    requires MissingOk(touched, present, cutoff, cap) && Pruned(Stamps(touched, present), cutoff, cap, kept)
    ensures MissingOk(touched, kept, cutoff, cap) && kept <= present && |kept| <= cap
  {
    forall k | k in touched && k !in kept ensures MayBeMissing(touched, cutoff, cap, k) {
      if k in present {
        DroppedMayBeMissing(touched, present, cutoff, cap, kept, k);
      }
    }
  }

  /** An access can only add to the keys at least as recent as a missing one. */
  lemma TouchKeepsMissing(touched: map<string, nat>, present: set<string>, cutoff: int, cap: nat, id: string, now: nat)
    requires MissingOk(touched, present, cutoff, cap)
    requires forall k | k in touched :: touched[k] <= now
    ensures MissingOk(touched[id := now], present + {id}, cutoff, cap)
  {
    var after := touched[id := now];
    forall k | k in after && k !in present + {id} ensures MayBeMissing(after, cutoff, cap, k) {
      assert MayBeMissing(touched, cutoff, cap, k);
      SmallerSubset(NoOlder(touched, k), NoOlder(after, k));
    }
  }

  lemma TimeKeepsMissing(touched: map<string, nat>, present: set<string>, cutoff: int, later: int, cap: nat)
    requires MissingOk(touched, present, cutoff, cap) && cutoff <= later
    ensures MissingOk(touched, present, later, cap)
  {
    forall k | k in touched && k !in present ensures MayBeMissing(touched, later, cap, k) {
      assert MayBeMissing(touched, cutoff, cap, k);
    }
  }
}
