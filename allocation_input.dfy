/**
 * `AdvancedAllocationController.AllocationInput.calculateInterval`: the span
 * of days the advanced-allocation window shows for one task.
 */
module AllocationInput {

  /** The dates of one resource allocation the window reads (whole days). */
  datatype AllocationDates = AllocationDates(
    startDate: int,
    startConsideringAssignments: int,
    endDate: int)

  datatype DateRange = DateRange(start: int, end: int)

  /**
   * Index where the final non-increasing run of end dates begins: the scan
   * from the last allocation backwards goes on while each earlier end is at
   * least the one after it.
   */
  function DescendingRunStart(ends: seq<int>): (k: nat)
    requires |ends| > 0
    ensures k < |ends|
    ensures forall j :: k <= j < |ends| - 1 ==> ends[j] >= ends[j + 1]
    ensures k == 0 || ends[k - 1] < ends[k]
  {
    if |ends| == 1 then 0
    else
      var k := DescendingRunStart(ends[1..]);
      if k == 0 && ends[0] >= ends[1] then 0 else k + 1
  }

  function Ends(all: seq<AllocationDates>): (ends: seq<int>)
    ensures |ends| == |all| && forall i :: 0 <= i < |all| ==> ends[i] == all[i].endDate
  {
    if all == [] then [] else [all[0].endDate] + Ends(all[1..])
  }

  /**
   * `getEnd`: starts from the last allocation's end and walks backwards,
   * keeping the larger end, until an end date drops below the one kept.
   */
  method GetEnd(all: seq<AllocationDates>) returns (end: int)
    requires |all| > 0
    ensures end == all[DescendingRunStart(Ends(all))].endDate
  {
    var n := |all|;
    end := all[n - 1].endDate;
    var i := n - 1;
    while i > 0
      invariant 0 <= i < n && end == all[i].endDate
      invariant forall j :: i <= j < n - 1 ==> all[j].endDate >= all[j + 1].endDate
    {
      var current := all[i - 1];
      if current.endDate >= end {
        end := current.endDate;
        i := i - 1;
      } else {
        RunStartAt(Ends(all), i);
        return;
      }
    }
    RunStartAt(Ends(all), 0);
  }

  /** The run start is the only index that satisfies both of its defining properties. */
  lemma RunStartAt(ends: seq<int>, i: nat)
    requires i < |ends|
    requires forall j :: i <= j < |ends| - 1 ==> ends[j] >= ends[j + 1]
    requires i == 0 || ends[i - 1] < ends[i]
    ensures DescendingRunStart(ends) == i
  {
  }

  /**
   * `calculateInterval` over the allocations sorted by start date: the
   * task's own dates when there are none; otherwise from the earlier of the
   * first allocation's two start dates to the later of `getEnd` and the
   * task's end.
   */
  method CalculateInterval(all: seq<AllocationDates>, taskStart: int, taskEnd: int) returns (r: DateRange)
    ensures all == [] ==> r == DateRange(taskStart, taskEnd)
    ensures all != [] ==> r.start == Min(all[0].startConsideringAssignments, all[0].startDate)
    ensures all != [] ==> r.end == Max(all[DescendingRunStart(Ends(all))].endDate, taskEnd)
  {
    if all == [] {
      r := DateRange(taskStart, taskEnd);
    } else {
      var start := Min(all[0].startConsideringAssignments, all[0].startDate);
      var end := GetEnd(all);
      r := DateRange(start, Max(end, taskEnd));
    }
  }

  function Min(a: int, b: int): int { if a <= b then a else b }
  function Max(a: int, b: int): int { if a >= b then a else b }

  /**
   * The end `getEnd` finds is the end of some allocation, no earlier than
   * the last allocation's end and no earlier than any end in the final run.
   */
  lemma {:induction false} GetEndBounds(all: seq<AllocationDates>)
    requires |all| > 0
    ensures all[DescendingRunStart(Ends(all))].endDate >= all[|all| - 1].endDate
    ensures forall j :: DescendingRunStart(Ends(all)) <= j < |all| ==>
      all[DescendingRunStart(Ends(all))].endDate >= all[j].endDate
  {
    var ends := Ends(all);
    var k := DescendingRunStart(ends);
    forall j | k <= j < |all| ensures ends[k] >= ends[j] {
      RunDominates(ends, k, j);
    }
  }

  /** In a non-increasing run, the first element is at least every later one. */
  lemma {:induction false} RunDominates(ends: seq<int>, k: nat, j: nat)
    requires k <= j < |ends|
    requires forall m :: k <= m < |ends| - 1 ==> ends[m] >= ends[m + 1]
    ensures ends[k] >= ends[j]
    decreases j - k
  {
    if j > k {
      RunDominates(ends, k, j - 1);
    }
  }

  /**
   * The scan stops at the first drop, so an earlier, longer allocation is
   * missed: with ends 10, 5, 7 the end found is 7, not 10.
   */
  lemma GetEndIsNotTheMaximum()
    ensures var all := [AllocationDates(0, 0, 10), AllocationDates(1, 1, 5), AllocationDates(2, 2, 7)];
      all[DescendingRunStart(Ends(all))].endDate == 7
  {
    var all := [AllocationDates(0, 0, 10), AllocationDates(1, 1, 5), AllocationDates(2, 2, 7)];
    RunStartAt(Ends(all), 2);
  }
}
