/**
  The Python list operations the scheduler relies on, over `seq<int>`:
  `reversed(xs)`, `xs.sort()`, `xs.remove(x)` and `min(xs, key=...)` with the
  seek distance as key.
*/
module Lists {
  import opened Paths

  /** `reversed(s)`: the elements of `s` from last to first. */
  function Reverse(s: seq<int>): (r: seq<int>)
    ensures |r| == |s|
  {
    if s == [] then [] else Reverse(s[1..]) + [s[0]]
  }

  /** Position `i` of `reversed(s)` holds position `|s| - 1 - i` of `s`. */
  lemma {:induction false} ReverseIndex(s: seq<int>)
    ensures forall i :: 0 <= i < |s| ==> Reverse(s)[i] == s[|s| - 1 - i]
  {
    if s != [] {
      ReverseIndex(s[1..]);
      forall i | 0 <= i < |s|
        ensures Reverse(s)[i] == s[|s| - 1 - i]
      {
        if i < |s| - 1 {
          assert Reverse(s)[i] == Reverse(s[1..])[i];
        }
      }
    }
  }

  /** Reversing keeps every element, duplicates included. */
  lemma {:induction false} ReverseMultiset(s: seq<int>)
    ensures multiset(Reverse(s)) == multiset(s)
  {
    if s != [] {
      assert s == [s[0]] + s[1..];
      ReverseMultiset(s[1..]);
    }
  }

  /** Concatenation regroups freely. */
  lemma AppendAssoc(a: seq<int>, b: seq<int>, c: seq<int>)
    ensures a + (b + c) == (a + b) + c
  {
  }

  /** Ascending order, duplicates allowed. */
  ghost predicate Sorted(s: seq<int>)
  {
    forall i, j :: 0 <= i < j < |s| ==> s[i] <= s[j]
  }

  /** Inserts `x` into the ascending sequence `s`. */
  function Insert(x: int, s: seq<int>): (r: seq<int>)
    requires Sorted(s)
    ensures Sorted(r)
    ensures |r| == |s| + 1
    ensures r[0] == x || (s != [] && r[0] == s[0])
  {
    if s == [] || x <= s[0] then [x] + s
    else [s[0]] + Insert(x, s[1..])
  }

  /** Insertion adds exactly one occurrence of `x`. */
  lemma {:induction false} InsertMultiset(x: int, s: seq<int>)
    requires Sorted(s)
    ensures multiset(Insert(x, s)) == multiset(s) + multiset{x}
  {
    if s != [] && x > s[0] {
      assert s == [s[0]] + s[1..];
      InsertMultiset(x, s[1..]);
    }
  }

  /** `list.sort()` on integers: the same elements, ascending. */
  function Sort(s: seq<int>): (r: seq<int>)
    ensures Sorted(r)
    ensures |r| == |s|
  {
    if s == [] then [] else Insert(s[0], Sort(s[1..]))
  }

  /** Sorting keeps every element, duplicates included: `Sort(s)` is a permutation of `s`. */
  lemma {:induction false} SortPermutation(s: seq<int>)
    ensures multiset(Sort(s)) == multiset(s)
  {
    if s != [] {
      assert s == [s[0]] + s[1..];
      SortPermutation(s[1..]);
      InsertMultiset(s[0], Sort(s[1..]));
    }
  }

  /**
    Two ascending sequences with the same elements are equal, so any correct
    sort (Python's Timsort included) produces exactly `Sort(s)`.
  */
  lemma {:induction false} SortedUnique(a: seq<int>, b: seq<int>)
    requires Sorted(a) && Sorted(b)
    requires multiset(a) == multiset(b)
    ensures a == b
    decreases |a|
  {
    assert |a| == |multiset(a)| == |multiset(b)| == |b|;
    if a != [] {
      assert a[0] in multiset(b) && b[0] in multiset(a);
      SortedHeadIsLeast(b, a[0]);
      SortedHeadIsLeast(a, b[0]);
      assert a[0] == b[0];
      assert a == [a[0]] + a[1..] && b == [b[0]] + b[1..];
      assert multiset(a) == multiset{a[0]} + multiset(a[1..]);
      assert multiset(b) == multiset{a[0]} + multiset(b[1..]);
      forall x ensures multiset(a[1..])[x] == multiset(b[1..])[x] {
        assert multiset(a)[x] == multiset(b)[x];
      }
      assert multiset(a[1..]) == multiset(b[1..]);
      SortedTail(a);
      SortedTail(b);
      SortedUnique(a[1..], b[1..]);
    }
  }

  lemma SortedHeadIsLeast(s: seq<int>, x: int)
    requires Sorted(s) && x in s
    ensures s[0] <= x
  {
  }

  lemma SortedTail(s: seq<int>)
    requires Sorted(s) && s != []
    ensures Sorted(s[1..])
  {
  }

  /**
    `min(s, key=lambda x: abs(x - curr))`, as an index: Python's `min` takes
    the first element as its candidate, scans the rest left to right and
    replaces the candidate only on a strictly smaller key, so it returns the
    first element of least distance.
  */
  function Nearest(s: seq<int>, curr: int): (k: nat)
    requires s != []
    ensures k < |s|
  {
    NearestFrom(s, curr, 1, 0)
  }

  /** `Nearest` returns a request of least distance, and no earlier request is as near. */
  lemma NearestIsFirstMinimal(s: seq<int>, curr: int)
    requires s != []
    ensures forall j :: 0 <= j < |s| ==> Dist(s[Nearest(s, curr)], curr) <= Dist(s[j], curr)
    ensures forall j :: 0 <= j < Nearest(s, curr) ==> Dist(s[j], curr) > Dist(s[Nearest(s, curr)], curr)
  {
    NearestFromIsFirstMinimum(s, curr, 1, 0);
  }

  /** The scan of `min` from index `i` on, with `best` the candidate so far. */
  function NearestFrom(s: seq<int>, curr: int, i: nat, best: nat): (k: nat)
    requires best < i <= |s|
    ensures best <= k < |s|
    decreases |s| - i
  {
    if i == |s| then best
    else NearestFrom(s, curr, i + 1, if Dist(s[i], curr) < Dist(s[best], curr) then i else best)
  }

  /** If `best` is the first minimum of `s[..i]`, the scan ends on the first minimum of `s`. */
  lemma {:induction false} NearestFromIsFirstMinimum(s: seq<int>, curr: int, i: nat, best: nat)
    requires best < i <= |s|
    requires forall j :: 0 <= j < i ==> Dist(s[best], curr) <= Dist(s[j], curr)
    requires forall j :: 0 <= j < best ==> Dist(s[j], curr) > Dist(s[best], curr)
    ensures forall j :: 0 <= j < |s| ==> Dist(s[NearestFrom(s, curr, i, best)], curr) <= Dist(s[j], curr)
    ensures forall j :: 0 <= j < NearestFrom(s, curr, i, best) ==> Dist(s[j], curr) > Dist(s[NearestFrom(s, curr, i, best)], curr)
    decreases |s| - i
  {
    if i < |s| {
      NearestFromIsFirstMinimum(s, curr, i + 1, if Dist(s[i], curr) < Dist(s[best], curr) then i else best);
    }
  }

  /** The first minimum is unique: an index of least distance with every earlier index strictly farther is the one `Nearest` returns. */
  lemma NearestIsFirstMinimum(s: seq<int>, curr: int, k: nat)
    requires k < |s|
    requires forall j :: 0 <= j < |s| ==> Dist(s[k], curr) <= Dist(s[j], curr)
    requires forall j :: 0 <= j < k ==> Dist(s[j], curr) > Dist(s[k], curr)
    ensures Nearest(s, curr) == k
  {
    NearestIsFirstMinimal(s, curr);
    var n := Nearest(s, curr);
    assert Dist(s[n], curr) == Dist(s[k], curr);
  }

  /** Index of the first occurrence of `x` in `s`. */
  function IndexOf(s: seq<int>, x: int): (i: nat)
    requires x in s
    ensures i < |s| && s[i] == x
    ensures forall j :: 0 <= j < i ==> s[j] != x
  {
    if s[0] == x then 0 else 1 + IndexOf(s[1..], x)
  }

  /** `s.remove(x)`: drops the first occurrence of `x` and keeps every other element in order, duplicates of `x` included. */
  function RemoveFirst(s: seq<int>, x: int): (r: seq<int>)
    requires x in s
    ensures |r| == |s| - 1
  {
    if s[0] == x then s[1..] else [s[0]] + RemoveFirst(s[1..], x)
  }

  /** `s.remove(x)` takes away exactly one occurrence of `x`. */
  lemma {:induction false} RemoveFirstMultiset(s: seq<int>, x: int)
    requires x in s
    ensures multiset(RemoveFirst(s, x)) == multiset(s) - multiset{x}
  {
    assert s == [s[0]] + s[1..];
    if s[0] != x {
      RemoveFirstMultiset(s[1..], x);
    }
  }

  /** The occurrence `s.remove(x)` drops is the first one, at `IndexOf(s, x)`. */
  lemma {:induction false} RemoveFirstAt(s: seq<int>, x: int)
    requires x in s
    ensures RemoveFirst(s, x) == s[..IndexOf(s, x)] + s[IndexOf(s, x) + 1..]
  {
    if s[0] == x {
      assert s[..0] == [];
    } else {
      RemoveFirstAt(s[1..], x);
      var i := IndexOf(s[1..], x);
      assert IndexOf(s, x) == i + 1;
      assert s[..i + 1] == [s[0]] + s[1..][..i];
      assert s[i + 2..] == s[1..][i + 1..];
      AppendAssoc([s[0]], s[1..][..i], s[1..][i + 1..]);
    }
  }
}
