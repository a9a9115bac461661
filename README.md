# Disk scheduling engine

A Dafny model of the scheduling engine of a small disk-scheduling simulator
(`app.py:9-90`). The engine has four policies: first come first served
(FCFS), shortest seek time first (SSTF), the elevator (SCAN) and the
circular elevator (C-SCAN). Each one takes a request queue of integer
cylinders (duplicates allowed) and the starting head position. SCAN and
C-SCAN also take a direction string and a disk size. Each policy returns the
service order and the total head movement it charges.

Modules:

- `Paths`: distances on the cylinder line. `PathLen(start, stops)` is the
  movement of a head that starts at `start` and visits `stops` in order.
  `End(start, stops)` is where that head stops.
- `Lists`: the Python list operations the engine uses, on `seq<int>`:
  - `reversed` is `Reverse`;
  - `list.sort` is `Sort`, an insertion sort;
  - `list.remove` is `RemoveFirst`;
  - `min(.., key=abs(x - curr))` is `Nearest`, written as the left-to-right
    scan that Python's `min` performs.
- `Scheduling`: the four policies.
  - `Fcfs` is a function, like the single `sum` in the source.
  - `Sstf` is a method with the source's `while pending` loop. It is proved
    against the specification function `SstfOrder`.
  - `Scan` and `CScan` are methods. They build the two sides, sort them, and
    run their `for` loops through the method `Sweep`. They are proved against
    `ScanOrder`/`ScanTotal` and `CScanOrder`/`CScanTotal`.
- `ReferenceCase`: the simulator's default inputs (`app.py:185-192`), worked
  through every policy. It also has two small cases that show SSTF's tie
  rule and SCAN's left-hand boundary charge.

Behaviour of the code worth knowing:

- SSTF ties go to the earliest pending request in queue order, because
  Python's `min` keeps the first minimum; they do not go to the lowest
  cylinder. `SstfStep` and `SstfTieGoesToFirst` show the rule.
- The C-SCAN jump from one edge to the other adds nothing to the total.
  `CScanRightFreeWrap` and `CScanLeftFreeWrap` show this.
- On an empty queue SCAN and C-SCAN still charge the trip to the boundary,
  so their total there is not 0. `ScanEmpty` and `CScanEmpty` state it.
- Sweeping left, the hop to cylinder 0 is charged as `total += curr`, not as
  `abs(curr - 0)`. The two agree only while the head is at a non-negative
  cylinder. So `ScanLeftIsPath` and `CScanLeftFreeWrap` require that, and
  `NegativeRequestUndercharged` shows a queue where they differ.
- The direction is a string. `"left"` sweeps left and every other string
  sweeps right (`DirectionOf`).

## Model

| member | source | states |
|---|---|---|
| Paths.PathLen | app.py:11 | total movement along a path is never negative and at least the distance from the start to where the path ends |
| Paths.PathLenAppend | app.py:41-44 | movement along two consecutive legs is the first leg's plus the second's from where the first ended |
| Lists.Reverse | app.py:35 | `reversed` keeps the length |
| Lists.ReverseIndex | app.py:35 | position `i` of the reversed list is position `len - 1 - i` of the original |
| Lists.ReverseMultiset | app.py:35 | reversing keeps every element with its multiplicity |
| Lists.Insert | app.py:30 | inserting into an ascending list gives an ascending list one longer, headed by the new element or the old head |
| Lists.InsertMultiset | app.py:30 | insertion adds exactly one occurrence of the element |
| Lists.Sort | app.py:30-31 | the sorted list is ascending and as long as the input |
| Lists.SortPermutation | app.py:30-31 | sorting is a permutation: the same elements with the same multiplicities |
| Lists.SortedUnique | app.py:30-31 | two ascending lists with the same elements are equal, so any correct sort gives exactly `Sort`'s result |
| Lists.Nearest | app.py:19 | the index `min` picks lies inside the pending list |
| Lists.NearestFrom | app.py:19 | the candidate of `min`'s scan only moves forward and stays inside the list |
| Lists.NearestFromIsFirstMinimum | app.py:19 | if the candidate is the first minimum of the prefix scanned so far, the scan ends on the first minimum of the whole list |
| Lists.NearestIsFirstMinimal | app.py:19 | `min` returns a pending request at least as near to the head as every other, with every earlier request strictly farther |
| Lists.NearestIsFirstMinimum | app.py:19 | the first index of least distance is unique: any index with that property is the one `min` picks |
| Lists.IndexOf | app.py:23 | the first position holding the value |
| Lists.RemoveFirst | app.py:23 | `remove` makes the list exactly one shorter |
| Lists.RemoveFirstMultiset | app.py:23 | `remove` takes away exactly one occurrence of the value and keeps all others, duplicates included |
| Lists.RemoveFirstAt | app.py:23 | `remove` drops the first occurrence and keeps the other elements in order |
| Scheduling.HopSumIsPathLen | app.py:11 | the index-based sum of hops, each from the head or the previous request, equals the path length through the served prefix |
| Scheduling.Fcfs | app.py:9-12 | FCFS serves the queue unchanged and charges the path length from the head through the queue, so an empty queue gives 0 |
| Scheduling.SstfOrder | app.py:18-23 | SSTF's service order has one entry per request |
| Scheduling.SstfPermutation | app.py:16-23 | SSTF serves every request exactly once: its order is a permutation of the queue |
| Scheduling.Sstf | app.py:15-24 | the loop yields SSTF's order, charges the path length from the head through that order, and serves a permutation of the queue; the loop invariant keeps `curr` at the last request served |
| Scheduling.SstfStep | app.py:19-23 | when `k` is the first index of least distance, SSTF serves `pending[k]` next and continues with exactly that position removed, so ties go to the earliest request |
| Scheduling.SstfGreedy | app.py:19-20 | at every step, the request served is at least as near to the head's position as every request not yet served |
| Scheduling.RemainingAfterServing | app.py:21-23 | what remains after serving `x` and then some requests is what `remove(x)` left, minus those requests |
| Scheduling.Below | app.py:28 | every element of `left` is below the head |
| Scheduling.AtOrAbove | app.py:29 | every element of `right` is at or above the head |
| Scheduling.DirectionOf | app.py:34 | the test `direction == 'left'` (also app.py:45, 67, 78): `"left"` sweeps left and every other string sweeps right |
| Scheduling.HopSum | app.py:11 | the generator inside `sum`: hop `i` runs from the head when `i == 0` and from `order[i - 1]` otherwise; the sum of the first `n` hops is never negative |
| Scheduling.LeftPart | app.py:28-30 | `left` after `left.sort()`: the requests below the head, ascending |
| Scheduling.RightPart | app.py:29-31 | `right` after `right.sort()`: the requests at or above the head, ascending |
| Scheduling.ScanOrder | app.py:34-55 | SCAN's reference order: `reversed(left) + right` sweeping left, `right + reversed(left)` sweeping right |
| Scheduling.ScanTotal | app.py:34-55 | SCAN's reference total: sweeping left, the path down through `reversed(left)`, plus `curr` for the hop to 0, plus the path from 0 up through `right`; sweeping right, the path up through `right`, to `disk_size - 1` and down through `reversed(left)` |
| Scheduling.CScanOrder | app.py:67-88 | C-SCAN's reference order: `reversed(left) + reversed(right)` sweeping left, `right + left` sweeping right |
| Scheduling.CScanTotal | app.py:67-88 | C-SCAN's reference total: the path to the first edge (the hop to 0 charged as `curr`), then the path from the opposite edge through the other side, with no charge for the jump |
| Scheduling.SplitKeepsAll | app.py:28-29 | the two comprehensions together hold the whole queue, duplicates kept |
| Scheduling.Partition | app.py:28-31 | after sorting, both sides are ascending, `left` holds exactly the requests below the head and `right` exactly the others, and together they are the queue |
| Scheduling.SideMembership | app.py:28-31 | a cylinder is on the sorted left side iff it is requested and below the head, and on the right side iff it is requested and not below |
| Scheduling.Sweep | app.py:35-38 | one `for` loop appends its stops to the sequence, adds the path length through them to the total, and leaves the head at the last stop |
| Scheduling.Scan | app.py:27-57 | SCAN's order is `reversed(left) + right` when sweeping left and `right + reversed(left)` otherwise, with the matching total; the order is a permutation of the queue |
| Scheduling.ScanPermutation | app.py:34-55 | SCAN serves every request exactly once, in either direction |
| Scheduling.ScanLeftIsPath | app.py:34-44 | sweeping left from a non-negative end point, the total is the path from the head down through `left`, to cylinder 0, and up through `right` |
| Scheduling.ScanRightIsPath | app.py:45-55 | sweeping right, the total is the path up through `right`, to `disk_size - 1`, and down through `reversed(left)` |
| Scheduling.ScanEmpty | app.py:39 | on an empty queue, SCAN serves nothing but charges `head` sweeping left and the distance to `disk_size - 1` sweeping right |
| Scheduling.CScan | app.py:60-90 | C-SCAN's order is `reversed(left) + reversed(right)` when sweeping left and `right + left` otherwise, with the matching total; the order is a permutation of the queue |
| Scheduling.CScanPermutation | app.py:67-88 | C-SCAN serves every request exactly once, in either direction |
| Scheduling.CScanRightFreeWrap | app.py:78-88 | sweeping right, the total is the full path up to `disk_size - 1`, across to 0 and up through `left`, less the edge-to-edge jump |
| Scheduling.CScanLeftFreeWrap | app.py:67-77 | sweeping left from a non-negative end point, the total is the full path down to 0, across to `disk_size - 1` and down through `right`, less the jump |
| Scheduling.CScanEmpty | app.py:72 | on an empty queue, C-SCAN serves nothing but charges the trip to the first edge |
| Scheduling.TotalsNonNegative | app.py:39 | with the head at a non-negative cylinder, every policy's total is non-negative in both directions, whatever the requests: the `total += curr` charge can lower a left-hand total but never below 0 |
| Scheduling.NearEndNonNegative | app.py:35-39 | with non-negative inputs, the left-hand sweep ends at a non-negative cylinder, so `total += curr` is the distance to 0 |
| ReferenceCase.DefaultLeft | app.py:28-30 | with the default inputs, `left` is 16, 24, 43 |
| ReferenceCase.DefaultRight | app.py:29-31 | with the default inputs, `right` is 82, 140, 170, 190 |
| ReferenceCase.DefaultFcfs | app.py:185 | FCFS on the default queue from cylinder 50 moves the head 642 cylinders |
| ReferenceCase.DefaultSstf | app.py:185 | SSTF serves the default queue as 43, 24, 16, 82, 140, 170, 190 |
| ReferenceCase.DefaultSstfTotal | app.py:185 | SSTF moves the head 208 cylinders on the default queue |
| ReferenceCase.SstfFrom82 | app.py:19 | 140 is served before 170 although 170 comes first in the queue |
| ReferenceCase.SstfTieGoesToFirst | app.py:19 | of two equidistant requests, the one earlier in the queue is served first, even though it is the higher cylinder |
| ReferenceCase.DefaultScanLeft | app.py:34-44 | SCAN sweeping left serves the default queue as 43, 24, 16, 82, 140, 170, 190 |
| ReferenceCase.DefaultScanLeftTotal | app.py:34-44 | SCAN sweeping left moves the head 240 cylinders on the default queue |
| ReferenceCase.DefaultCScanLeft | app.py:67-77 | C-SCAN sweeping left serves the default queue as 43, 24, 16, 190, 170, 140, 82 |
| ReferenceCase.DefaultCScanLeftTotal | app.py:67-77 | C-SCAN sweeping left moves the head 167 cylinders on the default queue, with the wrap free |
| ReferenceCase.NegativeRequestUndercharged | app.py:39 | from cylinder 0 with the single request -10, SCAN sweeping left charges 0, while the head travels 20 cylinders |

## Left out

- The Streamlit page (`app.py:113-234`) is presentation only: layout, CSS, text and widgets.
- `plot_schedule` (`app.py:96-107`) is not modelled: it only renders the schedule with matplotlib.
- Parsing the request string with `int(x.strip())` (`app.py:202`) is not modelled: the model takes the parsed list. Its exception handling is UI code.
- The average seek time `total / len(requests)` (`app.py:218`, `app.py:224`) is not modelled: it is a floating-point division in the UI, and its zero-division case is caught there.
- The pandas summary table (`app.py:228-229`) is not modelled: it is a library call with no logic.
- The default `disk_size=200` is not modelled as a default: `diskSize` is an ordinary parameter, and the default inputs appear in `ReferenceCase`.
- `list.sort` is Timsort; the model's `Sort` is an insertion sort. `SortedUnique` shows that every sort producing an ascending permutation gives the same list, so the results agree.
- Python's `min` over a key is a built-in loop. `Nearest` models it as the recursive function `NearestFrom`, which scans in the same order and keeps a candidate in the same way, rather than as a method.
- The comprehensions `[r for r in requests if ...]` become the recursive functions `Below` and `AtOrAbove` rather than loops, since the source has no loop of its own there.
- Python integers are unbounded, so `int` needs no width or wrap-around. The source's in-place list updates (`append`, `remove`, `sort`) become reassignment of `seq` values; no alias of any list escapes its function.
