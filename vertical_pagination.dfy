/**
 * Vertical pagination of the advanced-allocation rows
 * (`AdvancedAllocationController`): pages of about 25 rows that always
 * begin at a grouping row, the row that heads one task's allocations.
 */
module VerticalPagination {
  import opened Collections

  const VERTICAL_MAX_ELEMENTS := 25

  /** `get` on the page starts with a page number past either end. */
  datatype IndexOutOfBounds = IndexOutOfBounds

  /** What pagination reads of a `Row`: its description and its level. */
  datatype RowHeader = RowHeader(description: string, level: int)

  /** `Row.isGroupingRow`. */
  predicate IsGroupingRow(row: RowHeader) {
    row.level == 0
  }

  /** The last grouping row at or before `p`, or `p` itself once it is not positive. */
  function GroupingAtOrBefore(rows: seq<RowHeader>, p: int): (r: int)
    requires p < |rows|
    ensures r <= p && (p >= 0 ==> r >= 0)
    decreases p
  {
    if p <= 0 || IsGroupingRow(rows[p]) then p else GroupingAtOrBefore(rows, p - 1)
  }

  /** The first grouping row at or after `p`, or `p` itself once it is past the last row. */
  function GroupingAtOrAfter(rows: seq<RowHeader>, p: int): int
    requires 0 <= p
    decreases |rows| - p
  {
    if p >= |rows| || IsGroupingRow(rows[p]) then p else GroupingAtOrAfter(rows, p + 1)
  }

  lemma {:induction false} GroupingAtOrBeforeIsLargest(rows: seq<RowHeader>, p: int)
    requires 0 <= p < |rows|
    ensures var c := GroupingAtOrBefore(rows, p);
      && 0 <= c <= p
      && (c == 0 || IsGroupingRow(rows[c]))
      && forall k :: c < k <= p ==> !IsGroupingRow(rows[k])
    decreases p
  {
    if p > 0 && !IsGroupingRow(rows[p]) {
      GroupingAtOrBeforeIsLargest(rows, p - 1);
    }
  }

  lemma {:induction false} GroupingAtOrAfterIsSmallest(rows: seq<RowHeader>, p: int)
    requires 0 <= p
    ensures var c := GroupingAtOrAfter(rows, p);
      && p <= c
      && (p >= |rows| ==> c == p)
      && (p < |rows| ==> c <= |rows| && (c == |rows| || IsGroupingRow(rows[c])))
      && forall k :: p <= k < c ==> !IsGroupingRow(rows[k])
    decreases |rows| - p
  {
    if p < |rows| && !IsGroupingRow(rows[p]) {
      GroupingAtOrAfterIsSmallest(rows, p + 1);
    }
  }

  /**
   * `next` is the page start that follows `start`: the first grouping row
   * at least 25 rows further on (`next` may be the end of the list).
   */
  ghost predicate NextPageStart(rows: seq<RowHeader>, start: int, next: int) {
    && 0 <= start && start + VERTICAL_MAX_ELEMENTS <= next <= |rows|
    && (next < |rows| ==> IsGroupingRow(rows[next]))
    && forall m :: start + VERTICAL_MAX_ELEMENTS <= m < next ==> !IsGroupingRow(rows[m])
  }

  /** The page starts `populateVerticalListbox` computes for `rows`. */
  ghost predicate PageStarts(rows: seq<RowHeader>, ix: seq<int>) {
    && (rows == [] <==> ix == [])
    && PageStartsSoFar(rows, ix)
    && (ix != [] ==> NextPageStart(rows, ix[|ix| - 1], |rows|) || |rows| < ix[|ix| - 1] + VERTICAL_MAX_ELEMENTS)
  }

  /** The first page starts found: from row 0 on, each the successor of the one before. */
  ghost predicate PageStartsSoFar(rows: seq<RowHeader>, ix: seq<int>) {
    && (ix != [] ==> ix[0] == 0)
    && (forall k :: 0 <= k < |ix| ==> 0 <= ix[k] < |rows|)
    && (forall k :: 0 <= k < |ix| - 1 ==> PageStep(rows, ix, k))
  }

  lemma AppendPageStart(rows: seq<RowHeader>, ix: seq<int>, i: int)
    requires PageStartsSoFar(rows, ix) && 0 <= i < |rows|
    requires ix == [] ==> i == 0
    requires ix != [] ==> NextPageStart(rows, ix[|ix| - 1], i)
    ensures PageStartsSoFar(rows, ix + [i])
  {
    var ix' := ix + [i];
    forall k | 0 <= k < |ix'| - 1 ensures PageStep(rows, ix', k) {
      if k < |ix| - 1 {
        assert PageStep(rows, ix, k);
      }
    }
  }

  ghost predicate PageStep(rows: seq<RowHeader>, ix: seq<int>, k: int)
    requires 0 <= k < |ix| - 1
  {
    NextPageStart(rows, ix[k], ix[k + 1])
  }

  /** `labels` names the pages starting at `ix`, one label each. */
  ghost predicate LabelsOfPages(rows: seq<RowHeader>, ix: seq<int>, labels: seq<string>) {
    |labels| == |ix|
    && forall k :: 0 <= k < |labels| ==> 0 <= ix[k] < |rows| && labels[k] == PageLabel(rows, ix[k])
  }

  lemma AppendLabel(rows: seq<RowHeader>, ix: seq<int>, ls: seq<string>, i: int)
    requires LabelsOfPages(rows, ix, ls) && 0 <= i < |rows|
    ensures LabelsOfPages(rows, ix + [i], ls + [PageLabel(rows, i)])
  {
    var ix', ls' := ix + [i], ls + [PageLabel(rows, i)];
    forall k | 0 <= k < |ls'| ensures 0 <= ix'[k] < |rows| && ls'[k] == PageLabel(rows, ix'[k]) {
      if k < |ls| {
        assert ix'[k] == ix[k] && ls'[k] == ls[k];
      }
    }
  }

  /** The label of the page starting at row `i`: its first row and the last grouping row on it. */
  function PageLabel(rows: seq<RowHeader>, i: int): string
    requires 0 <= i < |rows|
  {
    var last := if |rows| < i + VERTICAL_MAX_ELEMENTS then |rows| else i + VERTICAL_MAX_ELEMENTS;
    rows[i].description + " - " + rows[GroupingAtOrBefore(rows, last - 1)].description
  }

  /**
   * The state of the loop of `populateVerticalListbox` before the row `i`:
   * the page starts so far, their labels, and `i` the successor of the
   * last start `previous`.
   */
  ghost predicate PopulatedSoFar(rows: seq<RowHeader>, ix: seq<int>, ls: seq<string>, previous: int, i: int) {
    && 0 <= i
    && (ix == [] ==> i == 0)
    && PageStartsSoFar(rows, ix)
    && (ix != [] ==> previous == ix[|ix| - 1] && 0 <= previous && i == GroupingAtOrAfter(rows, previous + VERTICAL_MAX_ELEMENTS))
    && LabelsOfPages(rows, ix, ls)
  }

  /** One page of the loop: row `i` starts a page, and the next candidate lies further on. */
  lemma PopulateStep(rows: seq<RowHeader>, ix: seq<int>, ls: seq<string>, previous: int, i: int)
    requires PopulatedSoFar(rows, ix, ls, previous, i) && i < |rows|
    ensures PopulatedSoFar(rows, ix + [i], ls + [PageLabel(rows, i)], i, GroupingAtOrAfter(rows, i + VERTICAL_MAX_ELEMENTS))
    ensures i < GroupingAtOrAfter(rows, i + VERTICAL_MAX_ELEMENTS)
  {
    if ix != [] {
      GroupingAtOrAfterIsSmallest(rows, previous + VERTICAL_MAX_ELEMENTS);
      assert NextPageStart(rows, previous, i);
    }
    AppendLabel(rows, ix, ls, i);
    AppendPageStart(rows, ix, i);
    GroupingAtOrAfterIsSmallest(rows, i + VERTICAL_MAX_ELEMENTS);
    assert (ix + [i])[|ix + [i]| - 1] == i;
  }

  /** When the loop stops, the last page runs to the end of the rows. */
  lemma PopulateDone(rows: seq<RowHeader>, ix: seq<int>, ls: seq<string>, previous: int, i: int)
    requires PopulatedSoFar(rows, ix, ls, previous, i) && i >= |rows|
    ensures PageStarts(rows, ix) && LabelsOfPages(rows, ix, ls)
  {
    if ix != [] {
      GroupingAtOrAfterIsSmallest(rows, previous + VERTICAL_MAX_ELEMENTS);
    }
  }

  class VerticalPaginator {
    /** `rowsCached`. */
    var rows: seq<RowHeader>
    var verticalIndex: int
    var verticalPage: int
    var verticalPaginationIndexes: seq<int>
    /** The labels of the vertical pagination listbox. */
    var labels: seq<string>

    ghost predicate Valid()
      reads this
    {
      && PageStarts(rows, verticalPaginationIndexes)
      && 0 <= verticalPage < |verticalPaginationIndexes|
      && verticalIndex == verticalPaginationIndexes[verticalPage]
    }

    constructor (rowsCached: seq<RowHeader>)
      ensures rows == rowsCached && verticalIndex == 0 && verticalPage == 0
      ensures verticalPaginationIndexes == [] && labels == []
    {
      rows := rowsCached;
      verticalIndex := 0;
      verticalPage := 0;
      verticalPaginationIndexes := [];
      labels := [];
    }

    /** `correctVerticalPageUpPosition`: back to the previous grouping row, or the first row. */
    method CorrectVerticalPageUpPosition(position: int) returns (corrected: int)
      requires position < |rows|
      ensures corrected == GroupingAtOrBefore(rows, position)
    {
      corrected := position;
      while corrected > 0 && !IsGroupingRow(rows[corrected])
        invariant corrected <= position
        invariant GroupingAtOrBefore(rows, corrected) == GroupingAtOrBefore(rows, position)
      {
        corrected := corrected - 1;
      }
    }

    /** `correctVerticalPageDownPosition`: on to the next grouping row, or the end of the list. */
    method CorrectVerticalPageDownPosition(position: int) returns (corrected: int)
      requires 0 <= position
      ensures corrected == GroupingAtOrAfter(rows, position)
    {
      corrected := position;
      while corrected < |rows| && !IsGroupingRow(rows[corrected])
        invariant position <= corrected
        invariant GroupingAtOrAfter(rows, corrected) == GroupingAtOrAfter(rows, position)
        decreases |rows| - corrected
      {
        corrected := corrected + 1;
      }
    }

    /**
     * `populateVerticalListbox`: a page starts at row 0 and each next page
     * at the first grouping row at least 25 rows further on.
     */
    method PopulateVerticalListbox()
      modifies this`verticalPaginationIndexes, this`labels
      ensures PageStarts(rows, verticalPaginationIndexes)
      ensures LabelsOfPages(rows, verticalPaginationIndexes, labels)
      ensures rows != [] && verticalPage == 0 && verticalIndex == 0 ==> Valid()
      ensures verticalPage == 0 && verticalIndex == 0 ==> Filterable()
    {
      var ix: seq<int> := [];
      var ls: seq<string> := [];
      var i := 0;
      ghost var previous := 0;
      while i < |rows|
        invariant PopulatedSoFar(rows, ix, ls, previous, i)
        decreases |rows| - i
      {
        PopulateStep(rows, ix, ls, previous, i);
        var last := if |rows| < i + VERTICAL_MAX_ELEMENTS then |rows| else i + VERTICAL_MAX_ELEMENTS;
        var endPosition := CorrectVerticalPageUpPosition(last - 1);
        var text := rows[i].description + " - " + rows[endPosition].description;
        assert text == PageLabel(rows, i);
        ls := ls + [text];
        ix := ix + [i];
        previous := i;
        i := CorrectVerticalPageDownPosition(i + VERTICAL_MAX_ELEMENTS);
      }
      PopulateDone(rows, ix, ls, previous, i);
      verticalPaginationIndexes := ix;
      labels := ls;
    }

    /**
     * The states `filterRows` is called in: the page starts are those of
     * the rows, and either the paginator is valid or there are no rows at
     * all (every allocation input without allocations) and the view is at
     * its first page.
     */
    ghost predicate Filterable()
      reads this
    {
      && PageStarts(rows, verticalPaginationIndexes)
      && (rows == [] ==> verticalPage == 0 && verticalIndex == 0)
      && (rows != [] ==> Valid())
    }

    /** Where the visible slice of rows ends: the next page's start, or the end of the list. */
    function PageEnd(): (end: int)
      reads this
      requires Filterable()
      ensures rows != [] ==> verticalIndex < end <= |rows|
      ensures rows == [] ==> end == 0
    {
      if verticalPage + 1 < |verticalPaginationIndexes|
      then assert PageStep(rows, verticalPaginationIndexes, verticalPage); verticalPaginationIndexes[verticalPage + 1]
      else |rows|
    }

    /** `filterRows`: the rows of the current page. */
    function FilterRows(): (visible: seq<RowHeader>)
      reads this
      requires Filterable()
      ensures rows == [] ==> visible == []
      ensures rows != [] ==> visible != [] && visible[0] == rows[verticalIndex]
      ensures rows != [] && verticalIndex > 0 ==> IsGroupingRow(visible[0])
      ensures |visible| >= VERTICAL_MAX_ELEMENTS || PageEnd() == |rows|
    {
      assert verticalPage > 0 ==> PageStep(rows, verticalPaginationIndexes, verticalPage - 1);
      assert verticalPage + 1 < |verticalPaginationIndexes| ==> PageStep(rows, verticalPaginationIndexes, verticalPage);
      rows[verticalIndex..PageEnd()]
    }

    /**
     * The up button of `filterRows`, disabled on the first rows: on a
     * valid paginator that is exactly the first page.
     */
    function UpButtonDisabled(): (disabled: bool)
      reads this
      ensures Valid() ==> (disabled <==> verticalPage == 0)
      ensures Filterable() && rows == [] ==> disabled
    {
      LaterPagesStartAfterFirstRow(rows, verticalPaginationIndexes, verticalPage);
      verticalIndex <= 0
    }

    /**
     * The down button of `filterRows`, disabled when no row lies 25 rows
     * past the page start. It is disabled only on the last page, but it
     * can stay enabled there too (see `DownButtonEnabledOnLastPage`).
     */
    function DownButtonDisabled(): (disabled: bool)
      reads this
      ensures Valid() && disabled ==> verticalPage + 1 == |verticalPaginationIndexes|
      ensures Filterable() && rows == [] ==> disabled
    {
      PagesBeforeLastAreFull(rows, verticalPaginationIndexes, verticalPage);
      verticalIndex + VERTICAL_MAX_ELEMENTS >= |rows|
    }

    /**
     * The down button test that matches `verticalPagedown`: disabled
     * exactly when the current page runs to the end of the rows, and
     * whenever the test as written disables it.
     */
    function DownButtonDisabledIntended(): (disabled: bool)
      reads this
      requires Valid()
      ensures disabled <==> PageEnd() == |rows|
      ensures DownButtonDisabled() ==> disabled
    {
      verticalPage + 1 >= |verticalPaginationIndexes|
    }

    /**
     * `verticalPagedown`: the page number goes up first; with a next page
     * the view starts where the current page ended, and on the last page
     * `get` throws.
     */
    method VerticalPagedown() returns (outcome: Result<(), IndexOutOfBounds>)
      requires Valid()
      modifies this`verticalPage, this`verticalIndex
      ensures verticalPage == old(verticalPage) + 1
      ensures outcome.Ok? <==> old(verticalPage) + 1 < |verticalPaginationIndexes|
      ensures outcome.Ok? ==> Valid() && verticalIndex == old(PageEnd())
      ensures outcome.Err? ==> verticalIndex == old(verticalIndex)
    {
      verticalPage := verticalPage + 1;
      if verticalPage >= |verticalPaginationIndexes| {
        return Err(IndexOutOfBounds);
      }
      verticalIndex := verticalPaginationIndexes[verticalPage];
      return Ok(());
    }

    /**
     * `verticalPageup`: the page number goes down first; unless the up
     * button was disabled, the view ends where the current page started,
     * and on the first page `get` throws.
     */
    method VerticalPageup() returns (outcome: Result<(), IndexOutOfBounds>)
      requires Valid()
      modifies this`verticalPage, this`verticalIndex
      ensures verticalPage == old(verticalPage) - 1
      ensures outcome.Ok? <==> !old(UpButtonDisabled())
      ensures outcome.Ok? ==> Valid() && PageEnd() == old(verticalIndex)
      ensures outcome.Err? ==> verticalIndex == old(verticalIndex)
    {
      verticalPage := verticalPage - 1;
      if verticalPage < 0 {
        return Err(IndexOutOfBounds);
      }
      verticalIndex := verticalPaginationIndexes[verticalPage];
      return Ok(());
    }

    /**
     * `goToSelectedVerticalPage`: the page becomes the listbox selection;
     * a selection that names a page shows it from its first row, and any
     * other (none is -1) makes `get` throw.
     */
    method GoToSelectedVerticalPage(selectedIndex: int) returns (outcome: Result<(), IndexOutOfBounds>)
      requires Valid()
      modifies this`verticalPage, this`verticalIndex
      ensures verticalPage == selectedIndex
      ensures outcome.Ok? <==> 0 <= selectedIndex < |verticalPaginationIndexes|
      ensures outcome.Ok? ==> Valid() && verticalIndex == verticalPaginationIndexes[selectedIndex]
      ensures outcome.Err? ==> verticalIndex == old(verticalIndex)
    {
      verticalPage := selectedIndex;
      if !(0 <= verticalPage < |verticalPaginationIndexes|) {
        return Err(IndexOutOfBounds);
      }
      verticalIndex := verticalPaginationIndexes[verticalPage];
      return Ok(());
    }
  }

  lemma LaterPagesStartAfterFirstRow(rows: seq<RowHeader>, ix: seq<int>, page: int)
    ensures PageStarts(rows, ix) && 0 < page < |ix| ==> ix[page] > 0
  {
    if PageStarts(rows, ix) && 0 < page < |ix| {
      PageStartsIncrease(rows, ix, 0, page);
    }
  }

  lemma PagesBeforeLastAreFull(rows: seq<RowHeader>, ix: seq<int>, page: int)
    ensures PageStarts(rows, ix) && 0 <= page && page + 1 < |ix| ==> ix[page] + VERTICAL_MAX_ELEMENTS < |rows|
  {
    if PageStarts(rows, ix) && 0 <= page && page + 1 < |ix| {
      assert PageStep(rows, ix, page);
    }
  }

  /**
   * Rows where only the first is a grouping row, such as one task with 30
   * allocations, make a single page.
   */
  lemma {:induction false} OneGroupingRowOnePage(rows: seq<RowHeader>, ix: seq<int>)
    requires rows != [] && forall m :: 0 < m < |rows| ==> !IsGroupingRow(rows[m])
    requires PageStarts(rows, ix)
    ensures ix == [0]
  {
    if |ix| >= 2 {
      SecondPageStartsAtGroupingRow(rows, ix);
      assert false;
    }
  }

  lemma SecondPageStartsAtGroupingRow(rows: seq<RowHeader>, ix: seq<int>)
    requires PageStarts(rows, ix) && |ix| >= 2
    ensures VERTICAL_MAX_ELEMENTS <= ix[1] < |rows| && IsGroupingRow(rows[ix[1]])
  {
    assert PageStep(rows, ix, 0);
  }

  /**
   * The down button as written stays enabled on the last page of 31 rows
   * that form one page, and the click then makes `get` throw.
   */
  method DownButtonEnabledOnLastPage() returns (enabled: bool, outcome: Result<(), IndexOutOfBounds>)
    ensures enabled && outcome.Err?
  {
    var rows := seq(31, i => RowHeader("row", if i == 0 then 0 else 1));
    var paginator := new VerticalPaginator(rows);
    paginator.PopulateVerticalListbox();
    OneGroupingRowOnePage(rows, paginator.verticalPaginationIndexes);
    enabled := !paginator.DownButtonDisabled();
    outcome := paginator.VerticalPagedown();
  }

  /** Page starts are strictly increasing, so the pages never overlap. */
  lemma PageStartsIncrease(rows: seq<RowHeader>, ix: seq<int>, a: int, b: int)
    requires PageStarts(rows, ix)
    requires 0 <= a < b < |ix|
    ensures ix[a] < ix[b]
  {
    var k := a;
    while k < b
      invariant a <= k <= b
      invariant ix[a] < ix[k] || k == a
    {
      assert PageStep(rows, ix, k);
      k := k + 1;
    }
  }
}
