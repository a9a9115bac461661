/**
  The four disk-head scheduling policies of the simulator: FCFS, SSTF, SCAN
  and C-SCAN. Each takes the request queue (cylinder numbers, duplicates kept)
  and the starting head position, and returns the service order together with
  the total head movement it charges.
*/
module Scheduling {
  import opened Paths
  import opened Lists

  /** What every policy returns: the service order and the total head movement. */
  datatype Schedule = Schedule(order: seq<int>, total: int)

  /** The sweep direction of SCAN and C-SCAN. */
  datatype Direction = Left | Right

  /** The simulator tests the direction string against "left"; every other string sweeps right. */
  function DirectionOf(direction: string): Direction
  {
    if direction == "left" then Left else Right
  }

  // ---------------------------------------------------------------------
  // FCFS
  // ---------------------------------------------------------------------

  /**
    The FCFS sum over indices: hop `i` runs from the head (for `i == 0`) or
    from `order[i - 1]` to `order[i]`; this adds up the first `n` hops.
  */
  function HopSum(head: int, order: seq<int>, n: nat): (sum: int)
    requires n <= |order|
    ensures sum >= 0
  {
    if n == 0 then 0
    else HopSum(head, order, n - 1) + Abs(order[n - 1] - (if n - 1 == 0 then head else order[n - 2]))
  }

  lemma {:induction false} HopSumIsPathLen(head: int, order: seq<int>, n: nat)
    requires n <= |order|
    ensures HopSum(head, order, n) == PathLen(head, order[..n])
  {
    if n == 0 {
      assert order[..0] == [];
    } else {
      HopSumIsPathLen(head, order, n - 1);
      assert order[..n] == order[..n - 1] + [order[n - 1]];
      PathLenSnoc(head, order[..n - 1], order[n - 1]);
    }
  }

  /** First come, first served: the queue as given, charged hop by hop from the head. */
  function Fcfs(requests: seq<int>, head: int): (s: Schedule)
    ensures s.order == requests
    ensures s.total == PathLen(head, requests)
  {
    HopSumIsPathLen(head, requests, |requests|);
    assert requests[..|requests|] == requests;
    Schedule(requests, HopSum(head, requests, |requests|))
  }

  // ---------------------------------------------------------------------
  // SSTF
  // ---------------------------------------------------------------------

  /**
    The order in which SSTF serves `pending` with the head at `curr`: the first
    pending request of least distance, then the rest from there, with one
    occurrence of the chosen cylinder removed.
  */
  function SstfOrder(pending: seq<int>, curr: int): (order: seq<int>)
    ensures |order| == |pending|
    decreases |pending|
  {
    if pending == [] then []
    else
      var x := pending[Nearest(pending, curr)];
      [x] + SstfOrder(RemoveFirst(pending, x), x)
  }

  /** SSTF serves every request exactly once: its order is a permutation of the queue, duplicates kept. */
  lemma {:induction false} SstfPermutation(pending: seq<int>, curr: int)
    ensures multiset(SstfOrder(pending, curr)) == multiset(pending)
    decreases |pending|
  {
    if pending != [] {
      var x := pending[Nearest(pending, curr)];
      RemoveFirstMultiset(pending, x);
      SstfPermutation(RemoveFirst(pending, x), x);
    }
  }

  /** Shortest seek time first, as the simulator runs it: a `pending` list that shrinks by one request per step. */
  method Sstf(requests: seq<int>, head: int) returns (s: Schedule)
    ensures s.order == SstfOrder(requests, head)
    ensures s.total == PathLen(head, s.order)
    ensures multiset(s.order) == multiset(requests)
  {
    var pending := requests;
    var order, total, curr := [], 0, head;
    while pending != []
      invariant order + SstfOrder(pending, curr) == SstfOrder(requests, head)
      invariant total == PathLen(head, order)
      invariant curr == End(head, order)
      decreases |pending|
    {
      var nearest := pending[Nearest(pending, curr)];
      ghost var later := SstfOrder(RemoveFirst(pending, nearest), nearest);
      assert SstfOrder(pending, curr) == [nearest] + later;
      AppendAssoc(order, [nearest], later);
      PathLenSnoc(head, order, nearest);
      total := total + Abs(nearest - curr);
      assert total == PathLen(head, order + [nearest]);
      order := order + [nearest];
      curr := nearest;
      pending := RemoveFirst(pending, nearest);
    }
    assert order + [] == order;
    s := Schedule(order, total);
    SstfPermutation(requests, head);
  }

  /**
    One SSTF step in terms of positions: when `k` is the first index of least
    distance, SSTF serves `pending[k]` and carries on with exactly that index
    removed. So ties go to the earliest pending request, not the lowest cylinder.
  */
  lemma SstfStep(pending: seq<int>, curr: int, k: nat)
    requires k < |pending|
    requires forall j :: 0 <= j < |pending| ==> Dist(pending[k], curr) <= Dist(pending[j], curr)
    requires forall j :: 0 <= j < k ==> Dist(pending[j], curr) > Dist(pending[k], curr)
    ensures SstfOrder(pending, curr) == [pending[k]] + SstfOrder(pending[..k] + pending[k + 1..], pending[k])
  {
    NearestIsFirstMinimum(pending, curr, k);
    var x := pending[k];
    assert IndexOf(pending, x) == k by {
      var i := IndexOf(pending, x);
      assert Dist(pending[i], curr) == Dist(pending[k], curr);
    }
    RemoveFirstAt(pending, x);
  }

  /**
    The greedy property: at every step `i`, the request served is at least as
    near to the head's position as every request still pending, that is every
    request of the queue not yet served.
  */
  lemma {:induction false} SstfGreedy(pending: seq<int>, curr: int, i: nat, y: int)
    requires i < |SstfOrder(pending, curr)|
    requires y in multiset(pending) - multiset(SstfOrder(pending, curr)[..i])
    ensures var order := SstfOrder(pending, curr);
            var from := if i == 0 then curr else order[i - 1];
            Dist(order[i], from) <= Dist(y, from)
    decreases |pending|
  {
    var order := SstfOrder(pending, curr);
    var x := pending[Nearest(pending, curr)];
    var rest := RemoveFirst(pending, x);
    var sub := SstfOrder(rest, x);
    assert order == [x] + sub;
    if i == 0 {
      NearestIsFirstMinimal(pending, curr);
      assert order[..0] == [];
      assert y in pending;
      var j :| 0 <= j < |pending| && pending[j] == y;
    } else {
      assert order[..i] == [x] + sub[..i - 1];
      RemainingAfterServing(pending, x, sub[..i - 1]);
      SstfGreedy(rest, x, i - 1, y);
    }
  }

  /** What is left to serve after serving `x` and then `t` is what `rest` still holds after `t`. */
  lemma RemainingAfterServing(pending: seq<int>, x: int, t: seq<int>)
    requires x in pending
    ensures multiset(pending) - multiset([x] + t) == multiset(RemoveFirst(pending, x)) - multiset(t)
  {
    RemoveFirstMultiset(pending, x);
    assert multiset([x] + t) == multiset{x} + multiset(t);
  }

  // ---------------------------------------------------------------------
  // The split shared by SCAN and C-SCAN
  // ---------------------------------------------------------------------

  /** `[r for r in requests if r < head]`: the requests below the head, in queue order. */
  function Below(requests: seq<int>, head: int): (left: seq<int>)
    ensures forall i :: 0 <= i < |left| ==> left[i] < head
  {
    if requests == [] then []
    else (if requests[0] < head then [requests[0]] else []) + Below(requests[1..], head)
  }

  /** `[r for r in requests if r >= head]`: the requests at or above the head, in queue order. */
  function AtOrAbove(requests: seq<int>, head: int): (right: seq<int>)
    ensures forall i :: 0 <= i < |right| ==> right[i] >= head
  {
    if requests == [] then []
    else (if requests[0] >= head then [requests[0]] else []) + AtOrAbove(requests[1..], head)
  }

  /** The two comprehensions split the queue: every request lands on exactly one side, duplicates kept. */
  lemma {:induction false} SplitKeepsAll(requests: seq<int>, head: int)
    ensures multiset(Below(requests, head)) + multiset(AtOrAbove(requests, head)) == multiset(requests)
  {
    if requests != [] {
      assert requests == [requests[0]] + requests[1..];
      SplitKeepsAll(requests[1..], head);
    }
  }

  /** `left` after `left.sort()`. */
  function LeftPart(requests: seq<int>, head: int): (side: seq<int>)
    ensures Sorted(side)
  {
    Sort(Below(requests, head))
  }

  /** `right` after `right.sort()`. */
  function RightPart(requests: seq<int>, head: int): (side: seq<int>)
    ensures Sorted(side)
  {
    Sort(AtOrAbove(requests, head))
  }

  /**
    The two sides are ascending, `left` holds exactly the requests below the
    head and `right` exactly the others, and together they are the queue,
    duplicates kept.
  */
  lemma Partition(requests: seq<int>, head: int)
    ensures Sorted(LeftPart(requests, head)) && Sorted(RightPart(requests, head))
    ensures forall x :: x in LeftPart(requests, head) <==> x in requests && x < head
    ensures forall x :: x in RightPart(requests, head) <==> x in requests && x >= head
    ensures multiset(LeftPart(requests, head)) + multiset(RightPart(requests, head)) == multiset(requests)
  {
    SplitKeepsAll(requests, head);
    SortPermutation(Below(requests, head));
    SortPermutation(AtOrAbove(requests, head));
    forall x
      ensures x in LeftPart(requests, head) <==> x in requests && x < head
      ensures x in RightPart(requests, head) <==> x in requests && x >= head
    {
      SideMembership(requests, head, x);
    }
  }

  /** Membership on each side, after sorting. */
  lemma SideMembership(requests: seq<int>, head: int, x: int)
    ensures x in Sort(Below(requests, head)) <==> x in requests && x < head
    ensures x in Sort(AtOrAbove(requests, head)) <==> x in requests && x >= head
  {
    var below, above := Below(requests, head), AtOrAbove(requests, head);
    SplitKeepsAll(requests, head);
    SortPermutation(below);
    SortPermutation(above);
    assert x in Sort(below) <==> x in multiset(below);
    assert x in Sort(above) <==> x in multiset(above);
    assert x in multiset(requests) <==> x in multiset(below) || x in multiset(above);
    assert x in below ==> x < head;
    assert x in above ==> x >= head;
  }

  /**
    One sweep of the head over `stops`, as each `for r in ...` loop of SCAN and
    C-SCAN does it: serve every stop in turn, charge each hop, move the head.
  */
  method Sweep(order0: seq<int>, total0: int, curr0: int, stops: seq<int>)
    returns (order: seq<int>, total: int, curr: int)
    ensures order == order0 + stops
    ensures total == total0 + PathLen(curr0, stops)
    ensures curr == End(curr0, stops)
  {
    order, total, curr := order0, total0, curr0;
    for i := 0 to |stops|
      invariant order == order0 + stops[..i]
      invariant total == total0 + PathLen(curr0, stops[..i])
      invariant curr == End(curr0, stops[..i])
    {
      PathLenSnoc(curr0, stops[..i], stops[i]);
      assert stops[..i + 1] == stops[..i] + [stops[i]];
      total := total + Abs(curr - stops[i]);
      order := order + [stops[i]];
      curr := stops[i];
    }
    assert stops[..|stops|] == stops;
  }

  // ---------------------------------------------------------------------
  // SCAN
  // ---------------------------------------------------------------------

  /** SCAN's service order: the near side first, then the other side on the way back. */
  function ScanOrder(requests: seq<int>, head: int, dir: Direction): seq<int>
  {
    var down, up := Reverse(LeftPart(requests, head)), RightPart(requests, head);
    match dir
    case Left => down + up
    case Right => up + down
  }

  /**
    SCAN's charge. Sweeping right, the head travels to cylinder
    `diskSize - 1` before it turns. Sweeping left, the hop to cylinder 0 is
    charged as the head's position itself rather than its distance from 0.
  */
  function ScanTotal(requests: seq<int>, head: int, dir: Direction, diskSize: int): int
  {
    var down, up := Reverse(LeftPart(requests, head)), RightPart(requests, head);
    match dir
    case Left => PathLen(head, down) + End(head, down) + PathLen(0, up)
    case Right => PathLen(head, up + [diskSize - 1] + down)
  }

  /** The elevator policy: sweep to the disk's edge in the given direction, then sweep back. */
  method Scan(requests: seq<int>, head: int, direction: string, diskSize: int) returns (s: Schedule)
    ensures s.order == ScanOrder(requests, head, DirectionOf(direction))
    ensures s.total == ScanTotal(requests, head, DirectionOf(direction), diskSize)
    ensures multiset(s.order) == multiset(requests)
  {
    var left := Below(requests, head);
    var right := AtOrAbove(requests, head);
    left := Sort(left);
    right := Sort(right);
    assert left == LeftPart(requests, head) && right == RightPart(requests, head);
    var order, total, curr := [], 0, head;
    if direction == "left" {
      order, total, curr := Sweep(order, total, curr, Reverse(left));
      assert order == Reverse(left);
      total := total + curr;
      curr := 0;
      order, total, curr := Sweep(order, total, curr, right);
    } else {
      order, total, curr := Sweep(order, total, curr, right);
      assert order == right;
      total := total + Abs((diskSize - 1) - curr);
      curr := diskSize - 1;
      order, total, curr := Sweep(order, total, curr, Reverse(left));
      ScanRightIsPath(requests, head, diskSize);
    }
    s := Schedule(order, total);
    ScanPermutation(requests, head, DirectionOf(direction));
  }

  /** SCAN serves every request exactly once: its order is a permutation of the queue. */
  lemma ScanPermutation(requests: seq<int>, head: int, dir: Direction)
    ensures multiset(ScanOrder(requests, head, dir)) == multiset(requests)
  {
    Partition(requests, head);
    ReverseMultiset(LeftPart(requests, head));
  }

  /**
    Sweeping left, SCAN charges the path from the head down through the left
    side to cylinder 0 and up through the right side, whenever the head ends
    the first sweep at a cylinder that is not negative.
  */
  lemma ScanLeftIsPath(requests: seq<int>, head: int, diskSize: int)
    requires End(head, Reverse(LeftPart(requests, head))) >= 0
    ensures var down, up := Reverse(LeftPart(requests, head)), RightPart(requests, head);
            ScanTotal(requests, head, Left, diskSize) == PathLen(head, down + [0] + up)
  {
    var down, up := Reverse(LeftPart(requests, head)), RightPart(requests, head);
    PathLenVia(head, down, 0, up);
  }

  /** Sweeping right, SCAN charges the path up through the right side to cylinder `diskSize - 1` and back down. */
  lemma ScanRightIsPath(requests: seq<int>, head: int, diskSize: int)
    ensures var down, up := Reverse(LeftPart(requests, head)), RightPart(requests, head);
            ScanTotal(requests, head, Right, diskSize)
              == PathLen(head, up) + Dist(End(head, up), diskSize - 1) + PathLen(diskSize - 1, down)
  {
    var down, up := Reverse(LeftPart(requests, head)), RightPart(requests, head);
    PathLenVia(head, up, diskSize - 1, down);
  }

  /** On an empty queue SCAN serves nothing but still charges the trip to the edge. */
  lemma ScanEmpty(head: int, diskSize: int)
    ensures ScanOrder([], head, Left) == [] && ScanOrder([], head, Right) == []
    ensures ScanTotal([], head, Left, diskSize) == head
    ensures ScanTotal([], head, Right, diskSize) == Dist(diskSize - 1, head)
  {
    assert Below([], head) == [] && AtOrAbove([], head) == [];
    assert [] + [diskSize - 1] + [] == [diskSize - 1];
    assert PathLen(head, [diskSize - 1]) == Dist(head, diskSize - 1);
  }

  // ---------------------------------------------------------------------
  // C-SCAN
  // ---------------------------------------------------------------------

  /** C-SCAN's service order: the near side towards the edge, then the far side continuing in the same direction after the wrap. */
  function CScanOrder(requests: seq<int>, head: int, dir: Direction): seq<int>
  {
    var l, r := LeftPart(requests, head), RightPart(requests, head);
    match dir
    case Left => Reverse(l) + Reverse(r)
    case Right => r + l
  }

  /**
    C-SCAN's charge: the first sweep up to its edge (the hop to 0 charged as
    the head's position, as in SCAN), then the second sweep from the opposite
    edge; the wrap from one edge to the other is not charged.
  */
  function CScanTotal(requests: seq<int>, head: int, dir: Direction, diskSize: int): int
  {
    var l, r := LeftPart(requests, head), RightPart(requests, head);
    match dir
    case Left => PathLen(head, Reverse(l)) + End(head, Reverse(l)) + PathLen(diskSize - 1, Reverse(r))
    case Right => PathLen(head, r + [diskSize - 1]) + PathLen(0, l)
  }

  /** The circular elevator: sweep to the edge, jump to the opposite edge and keep sweeping the same way. */
  method CScan(requests: seq<int>, head: int, direction: string, diskSize: int) returns (s: Schedule)
    ensures s.order == CScanOrder(requests, head, DirectionOf(direction))
    ensures s.total == CScanTotal(requests, head, DirectionOf(direction), diskSize)
    ensures multiset(s.order) == multiset(requests)
  {
    var left := Below(requests, head);
    var right := AtOrAbove(requests, head);
    left := Sort(left);
    right := Sort(right);
    assert left == LeftPart(requests, head) && right == RightPart(requests, head);
    var order, total, curr := [], 0, head;
    if direction == "left" {
      order, total, curr := Sweep(order, total, curr, Reverse(left));
      assert order == Reverse(left);
      total := total + curr;
      curr := diskSize - 1;
      order, total, curr := Sweep(order, total, curr, Reverse(right));
      assert DirectionOf(direction) == Left;
      assert order == CScanOrder(requests, head, Left);
      assert total == CScanTotal(requests, head, Left, diskSize);
    } else {
      order, total, curr := Sweep(order, total, curr, right);
      assert order == right;
      total := total + Abs((diskSize - 1) - curr);
      curr := 0;
      PathLenSnoc(head, right, diskSize - 1);
      order, total, curr := Sweep(order, total, curr, left);
      assert DirectionOf(direction) == Right;
      assert order == CScanOrder(requests, head, Right);
      assert total == CScanTotal(requests, head, Right, diskSize);
    }
    s := Schedule(order, total);
    CScanPermutation(requests, head, DirectionOf(direction));
  }

  /** C-SCAN serves every request exactly once: its order is a permutation of the queue. */
  lemma CScanPermutation(requests: seq<int>, head: int, dir: Direction)
    ensures multiset(CScanOrder(requests, head, dir)) == multiset(requests)
  {
    Partition(requests, head);
    ReverseMultiset(LeftPart(requests, head));
    ReverseMultiset(RightPart(requests, head));
  }

  /**
    The wrap is free: sweeping right, C-SCAN charges the whole physical path
    up to `diskSize - 1`, across to 0 and up through the left side, less the
    edge-to-edge jump.
  */
  lemma CScanRightFreeWrap(requests: seq<int>, head: int, diskSize: int)
    ensures var l, r := LeftPart(requests, head), RightPart(requests, head);
            CScanTotal(requests, head, Right, diskSize)
              == PathLen(head, r + [diskSize - 1, 0] + l) - Dist(diskSize - 1, 0)
  {
    var l, r := LeftPart(requests, head), RightPart(requests, head);
    PathLenJump(head, r, diskSize - 1, 0, l);
    PathLenSnoc(head, r, diskSize - 1);
  }

  /**
    The wrap is free: sweeping left, C-SCAN charges the whole physical path
    down to 0, across to `diskSize - 1` and down through the right side, less
    the edge-to-edge jump, whenever the first sweep ends at a cylinder that is
    not negative.
  */
  lemma CScanLeftFreeWrap(requests: seq<int>, head: int, diskSize: int)
    requires End(head, Reverse(LeftPart(requests, head))) >= 0
    ensures var l, r := LeftPart(requests, head), RightPart(requests, head);
            CScanTotal(requests, head, Left, diskSize)
              == PathLen(head, Reverse(l) + [0, diskSize - 1] + Reverse(r)) - Dist(0, diskSize - 1)
  {
    var l, r := LeftPart(requests, head), RightPart(requests, head);
    PathLenJump(head, Reverse(l), 0, diskSize - 1, Reverse(r));
  }

  /** On an empty queue C-SCAN serves nothing but still charges the trip to the first edge. */
  lemma CScanEmpty(head: int, diskSize: int)
    ensures CScanOrder([], head, Left) == [] && CScanOrder([], head, Right) == []
    ensures CScanTotal([], head, Left, diskSize) == head
    ensures CScanTotal([], head, Right, diskSize) == Dist(diskSize - 1, head)
  {
    assert Below([], head) == [] && AtOrAbove([], head) == [];
    assert [] + [diskSize - 1] == [diskSize - 1];
  }

  // ---------------------------------------------------------------------
  // Across policies
  // ---------------------------------------------------------------------

  /**
    With the head at a cylinder that is not negative, every policy charges a
    total that is not negative, whatever the requests: charging the hop to
    cylinder 0 as `curr` can lower a left-hand total, but the first sweep
    has already moved the head at least as far as `head - curr`.
  */
  lemma TotalsNonNegative(requests: seq<int>, head: int, dir: Direction, diskSize: int)
    requires head >= 0
    ensures Fcfs(requests, head).total >= 0
    ensures PathLen(head, SstfOrder(requests, head)) >= 0
    ensures ScanTotal(requests, head, dir, diskSize) >= 0
    ensures CScanTotal(requests, head, dir, diskSize) >= 0
  {
  }

  /** Where the left-hand first sweep ends: the lowest request below the head, or the head itself. */
  lemma NearEndNonNegative(requests: seq<int>, head: int)
    requires head >= 0
    requires forall i :: 0 <= i < |requests| ==> requests[i] >= 0
    ensures End(head, Reverse(LeftPart(requests, head))) >= 0
  {
    Partition(requests, head);
    var l := LeftPart(requests, head);
    if l != [] {
      ReverseIndex(l);
      assert Reverse(l)[|l| - 1] == l[0];
      assert l[0] in requests;
    }
  }
}
