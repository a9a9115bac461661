/**
  Head movement along a path of cylinders.

  Every policy of the scheduler charges, for each hop of the disk head, the
  absolute difference of two cylinder numbers. `PathLen(start, stops)` is the
  length of the path that starts at `start` and visits `stops` in order;
  `End(start, stops)` is where that path leaves the head.
*/
module Paths {

  /** Python's `abs` on integers. */
  function Abs(x: int): nat
  {
    if x < 0 then -x else x
  }

  /** Seek distance between two cylinders. */
  function Dist(a: int, b: int): nat
  {
    Abs(a - b)
  }

  /** Total head movement from `start` through every cylinder of `stops`, in order. */
  function PathLen(start: int, stops: seq<int>): (len: int)
    ensures len >= 0
    ensures len >= Dist(start, End(start, stops))
    decreases |stops|
  {
    if stops == [] then 0
    else Dist(start, stops[0]) + PathLen(stops[0], stops[1..])
  }

  /** Position of the head after visiting `stops` from `start`. */
  function End(start: int, stops: seq<int>): int
  {
    if stops == [] then start else stops[|stops| - 1]
  }

  /** A path through `s` and then `t` is the path through `s` followed by the path through `t` from where `s` ended. */
  lemma {:induction false} PathLenAppend(start: int, s: seq<int>, t: seq<int>)
    ensures PathLen(start, s + t) == PathLen(start, s) + PathLen(End(start, s), t)
    ensures End(start, s + t) == End(End(start, s), t)
    decreases |s|
  {
    if s == [] {
      assert s + t == t;
    } else {
      assert (s + t)[0] == s[0];
      assert (s + t)[1..] == s[1..] + t;
      PathLenAppend(s[0], s[1..], t);
      if |s| > 1 {
        assert End(s[0], s[1..]) == End(start, s);
      }
    }
  }

  /** Extending a path by one stop adds exactly the last hop. */
  lemma PathLenSnoc(start: int, s: seq<int>, x: int)
    ensures PathLen(start, s + [x]) == PathLen(start, s) + Dist(End(start, s), x)
    ensures End(start, s + [x]) == x
  {
    PathLenAppend(start, s, [x]);
    assert [x][1..] == [];
  }

  /** A path through `a`, then cylinder `p`, then `b`. */
  lemma PathLenVia(start: int, a: seq<int>, p: int, b: seq<int>)
    ensures PathLen(start, a + [p] + b) == PathLen(start, a) + Dist(End(start, a), p) + PathLen(p, b)
  {
    PathLenAppend(start, a + [p], b);
    PathLenSnoc(start, a, p);
  }

  /** A path through `a`, then the two cylinders `p` and `q`, then `b`. */
  lemma PathLenJump(start: int, a: seq<int>, p: int, q: int, b: seq<int>)
    ensures PathLen(start, a + [p, q] + b)
         == PathLen(start, a) + Dist(End(start, a), p) + Dist(p, q) + PathLen(q, b)
  {
    assert a + [p, q] + b == a + [p] + ([q] + b);
    PathLenVia(start, a, p, [q] + b);
    assert ([q] + b)[0] == q && ([q] + b)[1..] == b;
  }
}
