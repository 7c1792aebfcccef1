/** The ascending key order in which an ordered map keyed by unsigned
    numbers (the processor slot table) is iterated. */
module OrderedKeys {

  /** Strictly increasing, hence also free of duplicates. */
  ghost predicate Ascending(q: seq<nat>)
  {
    forall i, j :: 0 <= i < j < |q| ==> q[i] < q[j]
  }

  /** `m` is the least element of `s`. */
  predicate IsMin(m: nat, s: set<nat>)
  {
    m in s && forall x :: x in s ==> m <= x
  }

  /** Every non-empty set of numbers has a least element. */
  lemma {:induction false} MinExists(s: set<nat>)
    requires s != {}
    ensures exists m :: IsMin(m, s)
  {
    var y :| y in s;
    if s == {y} {
      assert IsMin(y, s);
    } else {
      MinExists(s - {y});
      var m :| IsMin(m, s - {y});
      var w := if y < m then y else m;
      forall x | x in s
        ensures w <= x
      {
        if x != y {
          assert x in s - {y};
        }
      }
      assert IsMin(w, s);
    }
  }

  /** The least key of a non-empty key set. */
  ghost function Min(s: set<nat>): (m: nat)
    requires s != {}
    ensures IsMin(m, s)
  {
    MinExists(s);
    var m :| IsMin(m, s); m
  }

  /** The keys of `s` in the order an ordered map visits them. */
  ghost function SortedKeys(s: set<nat>): seq<nat>
    decreases s
  {
    if s == {} then [] else [Min(s)] + SortedKeys(s - {Min(s)})
  }

  /** Sorted order starts with the least key, then the rest in sorted order. */
  lemma SortedKeysStep(s: set<nat>, k: nat)
    requires IsMin(k, s)
    ensures SortedKeys(s) == [k] + SortedKeys(s - {k})
  {
    assert k == Min(s);
  }

  /** Visiting the keys in sorted order meets every key exactly once, smallest first. */
  lemma {:induction false} SortedKeysSpec(s: set<nat>)
    ensures Ascending(SortedKeys(s))
    ensures forall k :: k in SortedKeys(s) <==> k in s
    ensures |SortedKeys(s)| == |s|
  {
    if s != {} {
      var m := Min(s);
      var rest := SortedKeys(s - {m});
      SortedKeysSpec(s - {m});
      assert SortedKeys(s) == [m] + rest;
      forall i, j | 0 <= i < j < |[m] + rest|
        ensures ([m] + rest)[i] < ([m] + rest)[j]
      {
        if i == 0 {
          assert rest[j - 1] in s - {m};
        } else {
          assert rest[i - 1] < rest[j - 1];
        }
      }
    }
  }
}
