/**
  The simulator's default scenario: requests 82, 170, 43, 140, 24, 16, 190,
  head at cylinder 50, a disk of 200 cylinders, sweeping left.
*/
module ReferenceCase {
  import opened Paths
  import opened Lists
  import opened Scheduling

  /** The requests below cylinder 50, sorted. */
  lemma DefaultLeft()
    ensures LeftPart([82, 170, 43, 140, 24, 16, 190], 50) == [16, 24, 43]
  {
    DefaultBelow();
    SortDefaultBelow();
  }

  /** The requests at or above cylinder 50, sorted. */
  lemma DefaultRight()
    ensures RightPart([82, 170, 43, 140, 24, 16, 190], 50) == [82, 140, 170, 190]
  {
    DefaultAtOrAbove();
    SortDefaultAtOrAbove();
  }

  lemma DefaultBelow()
    ensures Below([82, 170, 43, 140, 24, 16, 190], 50) == [43, 24, 16]
  {
  }

  lemma DefaultAtOrAbove()
    ensures AtOrAbove([82, 170, 43, 140, 24, 16, 190], 50) == [82, 170, 140, 190]
  {
  }

  lemma SortDefaultBelow()
    ensures Sort([43, 24, 16]) == [16, 24, 43]
  {
  }

  lemma SortDefaultAtOrAbove()
    ensures Sort([82, 170, 140, 190]) == [82, 140, 170, 190]
  {
  }

  /** FCFS serves the queue as given and moves the head 642 cylinders. */
  lemma DefaultFcfs()
    ensures Fcfs([82, 170, 43, 140, 24, 16, 190], 50) == Schedule([82, 170, 43, 140, 24, 16, 190], 642)
  {
  }

  /** SSTF serves 43, 24, 16, 82, 140, 170, 190. */
  lemma DefaultSstf()
    ensures SstfOrder([82, 170, 43, 140, 24, 16, 190], 50) == [43, 24, 16, 82, 140, 170, 190]
  {
    SstfFrom50();
    SstfFrom43();
    Prepend43();
  }

  /** SSTF moves the head 208 cylinders on the default queue. */
  lemma DefaultSstfTotal()
    ensures PathLen(50, SstfOrder([82, 170, 43, 140, 24, 16, 190], 50)) == 208
  {
    DefaultSstf();
    SstfPathDefault();
  }

  lemma SstfPathDefault()
    ensures PathLen(50, [43, 24, 16, 82, 140, 170, 190]) == 208
  {
  }

  // Each step below serves the first pending request nearest to the head.

  lemma SstfFrom50()
    ensures SstfOrder([82, 170, 43, 140, 24, 16, 190], 50) == [43] + SstfOrder([82, 170, 140, 24, 16, 190], 43)
  {
    assert Nearest([82, 170, 43, 140, 24, 16, 190], 50) == 2;
    assert RemoveFirst([82, 170, 43, 140, 24, 16, 190], 43) == [82, 170, 140, 24, 16, 190];
  }

  lemma SstfFrom43()
    ensures SstfOrder([82, 170, 140, 24, 16, 190], 43) == [24, 16, 82, 140, 170, 190]
  {
    assert Nearest([82, 170, 140, 24, 16, 190], 43) == 3;
    assert RemoveFirst([82, 170, 140, 24, 16, 190], 24) == [82, 170, 140, 16, 190];
    SstfFrom24();
    Prepend24();
  }

  lemma SstfFrom24()
    ensures SstfOrder([82, 170, 140, 16, 190], 24) == [16, 82, 140, 170, 190]
  {
    SstfFrom24Step();
    SstfFrom16();
    Prepend16();
  }

  lemma SstfFrom24Step()
    ensures SstfOrder([82, 170, 140, 16, 190], 24) == [16] + SstfOrder([82, 170, 140, 190], 16)
  {
    assert Nearest([82, 170, 140, 16, 190], 24) == 3;
    assert RemoveFirst([82, 170, 140, 16, 190], 16) == [82, 170, 140, 190];
  }

  /** From cylinder 16 with 82, 170, 140, 190 pending, SSTF climbs in ascending order. */
  lemma SstfFrom16()
    ensures SstfOrder([82, 170, 140, 190], 16) == [82, 140, 170, 190]
  {
    SstfFrom16Step();
    SstfFrom82();
    Prepend82();
  }

  lemma SstfFrom16Step()
    ensures SstfOrder([82, 170, 140, 190], 16) == [82] + SstfOrder([170, 140, 190], 82)
  {
    assert Nearest([82, 170, 140, 190], 16) == 0;
    assert RemoveFirst([82, 170, 140, 190], 82) == [170, 140, 190];
  }

  /** 140 is served before 170 although 170 comes first in the queue. */
  lemma SstfFrom82()
    ensures SstfOrder([170, 140, 190], 82) == [140, 170, 190]
  {
    assert Nearest([170, 140, 190], 82) == 1;
    assert RemoveFirst([170, 140, 190], 140) == [170, 190];
    SstfFrom140();
    Prepend140();
  }

  lemma SstfFrom140()
    ensures SstfOrder([170, 190], 140) == [170, 190]
  {
  }

  // Sequence displays joined, kept apart so that no proof above has to
  // compare long displays element by element.

  lemma Prepend43()
    ensures [43] + [24, 16, 82, 140, 170, 190] == [43, 24, 16, 82, 140, 170, 190]
  {
  }

  lemma Prepend24()
    ensures [24] + [16, 82, 140, 170, 190] == [24, 16, 82, 140, 170, 190]
  {
  }

  lemma Prepend16()
    ensures [16] + [82, 140, 170, 190] == [16, 82, 140, 170, 190]
  {
  }

  lemma Prepend82()
    ensures [82] + [140, 170, 190] == [82, 140, 170, 190]
  {
  }

  lemma Prepend140()
    ensures [140] + [170, 190] == [140, 170, 190]
  {
  }

  lemma JoinDefaultSides()
    ensures [43, 24, 16] + [82, 140, 170, 190] == [43, 24, 16, 82, 140, 170, 190]
  {
  }

  lemma JoinDefaultSidesReversed()
    ensures [43, 24, 16] + [190, 170, 140, 82] == [43, 24, 16, 190, 170, 140, 82]
  {
  }

  lemma ReverseDefaultLeft()
    ensures Reverse([16, 24, 43]) == [43, 24, 16]
  {
  }

  lemma ReverseDefaultRight()
    ensures Reverse([82, 140, 170, 190]) == [190, 170, 140, 82]
  {
  }

  /** SCAN sweeping left serves 43, 24, 16, then 82, 140, 170, 190. */
  lemma DefaultScanLeft()
    ensures ScanOrder([82, 170, 43, 140, 24, 16, 190], 50, Left) == [43, 24, 16, 82, 140, 170, 190]
  {
    DefaultLeft();
    DefaultRight();
    ReverseDefaultLeft();
    JoinDefaultSides();
  }

  /** SCAN sweeping left moves the head 240 cylinders: 34 down to 16, 16 charged for the hop to 0, 190 up to 190. */
  lemma DefaultScanLeftTotal()
    ensures ScanTotal([82, 170, 43, 140, 24, 16, 190], 50, Left, 200) == 240
  {
    DefaultLeft();
    DefaultRight();
    ReverseDefaultLeft();
    DownToSixteen();
    UpFromZero();
  }

  lemma DownToSixteen()
    ensures PathLen(50, [43, 24, 16]) == 34
  {
  }

  lemma UpFromZero()
    ensures PathLen(0, [82, 140, 170, 190]) == 190
  {
  }

  /** C-SCAN sweeping left serves 43, 24, 16, then 190, 170, 140, 82 after the wrap. */
  lemma DefaultCScanLeft()
    ensures CScanOrder([82, 170, 43, 140, 24, 16, 190], 50, Left) == [43, 24, 16, 190, 170, 140, 82]
  {
    DefaultLeft();
    DefaultRight();
    ReverseDefaultLeft();
    ReverseDefaultRight();
    JoinDefaultSidesReversed();
  }

  /** C-SCAN sweeping left moves the head 167 cylinders: 34 down, 16 for the hop to 0, 117 down from 199, the wrap free. */
  lemma DefaultCScanLeftTotal()
    ensures CScanTotal([82, 170, 43, 140, 24, 16, 190], 50, Left, 200) == 167
  {
    DefaultLeft();
    DefaultRight();
    ReverseDefaultLeft();
    ReverseDefaultRight();
    DownToSixteen();
    DownFromTop();
  }

  lemma DownFromTop()
    ensures PathLen(199, [190, 170, 140, 82]) == 117
  {
  }

  /**
    Sweeping left, SCAN charges the last hop to cylinder 0 as the head's
    position: from cylinder 0, a request at -10 adds -10 where the head
    travels 10 cylinders each way.
  */
  lemma NegativeRequestUndercharged()
    ensures ScanTotal([-10], 0, Left, 200) == 0
    ensures PathLen(0, [-10, 0]) == 20
  {
    var below := Below([-10], 0);
    assert below == [-10];
    assert Sort(below) == [-10];
    assert AtOrAbove([-10], 0) == [];
    assert Reverse([-10]) == [-10];
  }

  /** Equidistant requests: from cylinder 50, 60 comes first in the queue and is served before 40. */
  lemma SstfTieGoesToFirst()
    ensures SstfOrder([60, 40], 50) == [60, 40]
  {
    assert Nearest([60, 40], 50) == 0;
    assert RemoveFirst([60, 40], 60) == [40];
  }
}
