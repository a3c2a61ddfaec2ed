/**
 * `AdvancedAllocationController.PaginatorFilter`: the page of the time
 * tracker's detail columns the advanced-allocation window shows, and the
 * listbox of pages the user picks from.
 */
module HorizontalPagination {
  import opened Collections

  /** The zoom levels the window offers. */
  datatype ZoomLevel = DETAIL_ONE | DETAIL_TWO | DETAIL_THREE | DETAIL_FOUR | DETAIL_FIVE

  /**
   * `intervalIncrease`: the width of one page, as a fixed number of days
   * (five years, two years, six months, six weeks).
   */
  function IntervalIncrease(zoom: ZoomLevel): (days: int)
    ensures days > 0
  {
    match zoom
    case DETAIL_ONE => 1826
    case DETAIL_TWO => 1826
    case DETAIL_THREE => 730
    case DETAIL_FOUR => 182
    case DETAIL_FIVE => 42
  }

  datatype Page = Page(start: int, end: int)

  /**
   * End of the listbox item that starts at `itemStart`: one increment, or the
   * interval's end when less than one further increment would remain.
   */
  function ItemEnd(intervalEnd: int, itemStart: int, inc: int): int {
    var itemEnd := itemStart + inc;
    if intervalEnd < itemEnd || itemEnd + inc > intervalEnd then intervalEnd else itemEnd
  }

  /** The items `populateHorizontalListbox` lists for the interval from `itemStart` on. */
  function Items(itemStart: int, intervalEnd: int, inc: int): seq<Page>
    requires inc > 0
    decreases intervalEnd - itemStart
  {
    if intervalEnd <= itemStart then []
    else
      var end := ItemEnd(intervalEnd, itemStart, inc);
      [Page(itemStart, end)] + (if end == intervalEnd then [] else Items(end, intervalEnd, inc))
  }

  /**
   * The items tile the interval: the first starts at its start, each starts
   * where the previous ends, the last ends at its end, the k-th starts k
   * increments in, and every item but a lone one spans at least one and
   * less than two increments.
   */
  lemma {:induction false} ItemsTileInterval(itemStart: int, intervalEnd: int, inc: int)
    requires inc > 0
    ensures var items := Items(itemStart, intervalEnd, inc);
      && (items == [] <==> intervalEnd <= itemStart)
      && (items != [] ==> items[0].start == itemStart && items[|items| - 1].end == intervalEnd)
      && (forall k :: 0 <= k < |items| ==> items[k].start == itemStart + k * inc)
      && (forall k :: 0 <= k < |items| - 1 ==> items[k].end == items[k + 1].start)
      && (forall k :: 0 <= k < |items| ==> items[k].start < items[k].end < items[k].start + 2 * inc)
      && (forall k :: 0 <= k < |items| && |items| > 1 ==> items[k].end - items[k].start >= inc)
    decreases intervalEnd - itemStart
  {
    if intervalEnd > itemStart {
      var end := ItemEnd(intervalEnd, itemStart, inc);
      if end != intervalEnd {
        ItemsTileInterval(end, intervalEnd, inc);
        var rest := Items(end, intervalEnd, inc);
        var items := Items(itemStart, intervalEnd, inc);
        assert items == [Page(itemStart, end)] + rest;
        forall k | 1 <= k < |items| ensures items[k].start == itemStart + k * inc {
          assert items[k] == rest[k - 1];
        }
      }
    }
  }

  /**
   * Item k starts k increments in and ends where `ItemEnd` puts it; every
   * item but the last ends one increment after its start, before the end.
   */
  lemma {:induction false} ItemAt(itemStart: int, intervalEnd: int, inc: int, k: nat)
    requires inc > 0 && k < |Items(itemStart, intervalEnd, inc)|
    ensures var item := Items(itemStart, intervalEnd, inc)[k];
      && item.start == itemStart + k * inc
      && item.end == ItemEnd(intervalEnd, item.start, inc)
      && (k < |Items(itemStart, intervalEnd, inc)| - 1 ==> item.end == item.start + inc < intervalEnd)
    decreases intervalEnd - itemStart
  {
    var end := ItemEnd(intervalEnd, itemStart, inc);
    if k > 0 {
      var rest := Items(end, intervalEnd, inc);
      assert Items(itemStart, intervalEnd, inc)[k] == rest[k - 1];
      ItemAt(end, intervalEnd, inc, k - 1);
      assert end + (k - 1) * inc == itemStart + k * inc;
    }
  }

  /**
   * The page `goToHorizontalPage` shows as written: its end test is not
   * strict, so it differs from the listbox item exactly when the interval
   * ends two increments after the page start.
   */
  function GoToPageAsWritten(intervalStart: int, intervalEnd: int, inc: int, index: nat): (p: Page)
    requires inc > 0
    ensures p.start == GoToPageIntended(intervalStart, intervalEnd, inc, index).start
    ensures p != GoToPageIntended(intervalStart, intervalEnd, inc, index) <==> intervalEnd == p.start + 2 * inc
  {
    var start := intervalStart + index * inc;
    Page(start, if !(intervalEnd > start + inc + inc) then intervalEnd else start + inc)
  }

  /** The page of listbox item `index`, with the strict test `setInterval` and the listbox use. */
  function GoToPageIntended(intervalStart: int, intervalEnd: int, inc: int, index: nat): (p: Page)
    requires inc > 0
    ensures p.start == intervalStart + index * inc && p.end == ItemEnd(intervalEnd, p.start, inc)
  {
    var start := intervalStart + index * inc;
    Page(start, if start + inc + inc > intervalEnd then intervalEnd else start + inc)
  }

  /** Going to item `index` shows exactly the days that listbox item names. */
  lemma GoToIntendedShowsItem(intervalStart: int, intervalEnd: int, inc: int, index: nat)
    requires inc > 0 && index < |Items(intervalStart, intervalEnd, inc)|
    ensures GoToPageIntended(intervalStart, intervalEnd, inc, index) == Items(intervalStart, intervalEnd, inc)[index]
  {
    ItemAt(intervalStart, intervalEnd, inc, index);
  }

  /**
   * With an interval exactly two increments long the listbox has two items,
   * but going to the first one shows both.
   */
  lemma GoToAsWrittenMergesLastItems()
    ensures Items(0, 84, 42) == [Page(0, 42), Page(42, 84)]
    ensures GoToPageAsWritten(0, 84, 42, 0) == Page(0, 84)
    ensures GoToPageIntended(0, 84, 42, 0) == Page(0, 42)
  {
    assert Items(84, 84, 42) == [];
    assert Items(42, 84, 42) == [Page(42, 84)];
  }

  /**
   * A detail column of the time tracker as the paginator filters it: its
   * start may be missing.
   */
  datatype TrackerColumn = TrackerColumn(startDate: Option<int>, endDate: int)

  /** `selectsFirstLevel` / `selectsSecondLevel` keep a column when this holds. */
  predicate Selected(item: TrackerColumn, paginatorStart: int, paginatorEnd: int) {
    item.startDate.None? || (paginatorStart <= item.startDate.value && item.startDate.value < paginatorEnd)
  }

  /** The columns of `items` the page selects, in order. */
  function Filter(items: seq<TrackerColumn>, paginatorStart: int, paginatorEnd: int): seq<TrackerColumn> {
    if items == [] then []
    else
      var rest := Filter(items[1..], paginatorStart, paginatorEnd);
      if Selected(items[0], paginatorStart, paginatorEnd) then [items[0]] + rest else rest
  }

  /** The filter keeps a column exactly when the page selects it, and adds none. */
  lemma {:induction false} FilterKeepsSelected(items: seq<TrackerColumn>, paginatorStart: int, paginatorEnd: int)
    ensures |Filter(items, paginatorStart, paginatorEnd)| <= |items|
    ensures forall x :: x in Filter(items, paginatorStart, paginatorEnd) <==>
      x in items && Selected(x, paginatorStart, paginatorEnd)
  {
    if items != [] {
      FilterKeepsSelected(items[1..], paginatorStart, paginatorEnd);
      assert items == [items[0]] + items[1..];
    }
  }

  /** Filtering from position `i` on decides on the item at `i`, then filters the rest. */
  lemma FilterFrom(items: seq<TrackerColumn>, i: nat, paginatorStart: int, paginatorEnd: int)
    requires i < |items|
    ensures Filter(items[i..], paginatorStart, paginatorEnd)
      == (if Selected(items[i], paginatorStart, paginatorEnd) then [items[i]] else [])
         + Filter(items[i + 1..], paginatorStart, paginatorEnd)
  {
    assert items[i..][1..] == items[i + 1..];
  }

  lemma OneMoreIncrement(i: int, inc: int)
    ensures (i + 1) * inc == i * inc + inc
  {
  }

  class PaginatorFilter {
    var intervalStart: int
    var intervalEnd: int
    var paginatorStart: int
    var paginatorEnd: int
    var zoomLevel: ZoomLevel
    /** The items of the horizontal pagination listbox. */
    var listboxItems: seq<Page>

    function Increase(): (inc: int)
      reads this
      ensures inc > 0
    {
      IntervalIncrease(zoomLevel)
    }

    /** `new PaginatorFilter()` followed by `setZoomLevel` and `setInterval`, as the window builds it. */
    constructor (zoom: ZoomLevel, realStart: int, realEnd: int)
      ensures zoomLevel == zoom && intervalStart == realStart && intervalEnd == realEnd
      ensures paginatorStart == realStart
      ensures paginatorEnd == ItemEnd(realEnd, realStart, IntervalIncrease(zoom))
      ensures listboxItems == []
    {
      zoomLevel := zoom;
      intervalStart := realStart;
      intervalEnd := realEnd;
      paginatorStart := realStart;
      var inc := IntervalIncrease(zoom);
      paginatorEnd := if realStart + inc + inc > realEnd then realEnd else realStart + inc;
      listboxItems := [];
    }

    method SetZoomLevel(zoom: ZoomLevel)
      modifies this`zoomLevel
      ensures zoomLevel == zoom
    {
      zoomLevel := zoom;
    }

    /** `setInterval`: the first page is the first listbox item. */
    method SetInterval(realStart: int, realEnd: int)
      modifies this`intervalStart, this`intervalEnd, this`paginatorStart, this`paginatorEnd
      ensures intervalStart == realStart && intervalEnd == realEnd
      ensures paginatorStart == realStart
      ensures paginatorEnd == ItemEnd(realEnd, realStart, Increase())
      ensures realStart < realEnd ==>
        Page(paginatorStart, paginatorEnd) == Items(realStart, realEnd, Increase())[0]
    {
      intervalStart := realStart;
      intervalEnd := realEnd;
      paginatorStart := intervalStart;
      paginatorEnd := intervalStart + Increase();
      if paginatorEnd + Increase() > intervalEnd {
        paginatorEnd := intervalEnd;
      }
    }

    /** `populateHorizontalListbox`: one item per page-sized slice of the interval. */
    method PopulateHorizontalListbox()
      modifies this`listboxItems
      ensures listboxItems == Items(intervalStart, intervalEnd, Increase())
    {
      var inc := Increase();
      var items: seq<Page> := [];
      var itemStart := intervalStart;
      var itemEnd := intervalStart + inc;
      while intervalEnd > itemStart
        invariant itemEnd == itemStart + inc
        invariant items + Items(itemStart, intervalEnd, inc) == Items(intervalStart, intervalEnd, inc)
        decreases intervalEnd - itemStart
      {
        if intervalEnd < itemEnd || itemEnd + inc > intervalEnd {
          itemEnd := intervalEnd;
        }
        items := items + [Page(itemStart, itemEnd)];
        itemStart := itemEnd;
        itemEnd := itemEnd + inc;
      }
      listboxItems := items;
    }

    /** `goToHorizontalPage`, as written. */
    method GoToHorizontalPage(interval: int)
      modifies this`paginatorStart, this`paginatorEnd
      ensures interval < 0 ==> paginatorStart == old(paginatorStart) && paginatorEnd == old(paginatorEnd)
      ensures interval >= 0 ==>
        Page(paginatorStart, paginatorEnd) == GoToPageAsWritten(intervalStart, intervalEnd, Increase(), interval)
    {
      if interval >= 0 {
        var inc := Increase();
        paginatorStart := intervalStart;
        var i := 0;
        while i < interval
          invariant 0 <= i <= interval
          invariant paginatorStart == intervalStart + i * inc
        {
          OneMoreIncrement(i, inc);
          paginatorStart := paginatorStart + inc;
          i := i + 1;
        }
        paginatorEnd := paginatorStart + inc;
        if !(intervalEnd > paginatorEnd + inc) {
          paginatorEnd := intervalEnd;
        }
      }
    }

    /** `goToHorizontalPage` with the strict end test: it shows the chosen listbox item. */
    method GoToHorizontalPageIntended(interval: int)
      modifies this`paginatorStart, this`paginatorEnd
      ensures interval < 0 ==> paginatorStart == old(paginatorStart) && paginatorEnd == old(paginatorEnd)
      ensures interval >= 0 ==>
        Page(paginatorStart, paginatorEnd) == GoToPageIntended(intervalStart, intervalEnd, Increase(), interval)
      ensures 0 <= interval < |Items(intervalStart, intervalEnd, Increase())| ==>
        Page(paginatorStart, paginatorEnd) == Items(intervalStart, intervalEnd, Increase())[interval]
    {
      if interval >= 0 {
        var inc := Increase();
        paginatorStart := intervalStart;
        var i := 0;
        while i < interval
          invariant 0 <= i <= interval
          invariant paginatorStart == intervalStart + i * inc
        {
          OneMoreIncrement(i, inc);
          paginatorStart := paginatorStart + inc;
          i := i + 1;
        }
        paginatorEnd := paginatorStart + inc;
        if paginatorEnd + inc > intervalEnd {
          paginatorEnd := intervalEnd;
        }
        if interval < |Items(intervalStart, intervalEnd, inc)| {
          GoToIntendedShowsItem(intervalStart, intervalEnd, inc, interval);
        }
      }
    }

    /** `next`: one increment forward; a short remainder is joined to the page. */
    method Next()
      modifies this`paginatorStart, this`paginatorEnd
      ensures paginatorStart == old(paginatorStart) + Increase()
      ensures paginatorEnd == old(paginatorEnd) + Increase()
        + (if intervalEnd <= old(paginatorEnd) + 2 * Increase() then Increase() else 0)
    {
      paginatorStart := paginatorStart + Increase();
      paginatorEnd := paginatorEnd + Increase();
      if !(intervalEnd > paginatorEnd + Increase()) {
        paginatorEnd := paginatorEnd + Increase();
      }
    }

    /** `previous`: one increment back. */
    method Previous()
      modifies this`paginatorStart, this`paginatorEnd
      ensures paginatorStart == old(paginatorStart) - Increase()
      ensures paginatorEnd == old(paginatorEnd) - Increase()
    {
      paginatorStart := paginatorStart - Increase();
      paginatorEnd := paginatorEnd - Increase();
    }

    /** `isFirstPage`: the page does not start after the interval. */
    predicate IsFirstPage()
      reads this
    {
      !(paginatorStart > intervalStart)
    }

    /** `isLastPage`: the page reaches the interval's end. */
    predicate IsLastPage()
      reads this
    {
      paginatorEnd > intervalEnd || paginatorEnd == intervalEnd
    }

    /** `selectsFirstLevel` and `selectsSecondLevel`: the columns of the current page, in order. */
    method Selects(details: seq<TrackerColumn>) returns (result: seq<TrackerColumn>)
      ensures result == Filter(details, paginatorStart, paginatorEnd)
    {
      result := [];
      var i := 0;
      while i < |details|
        invariant 0 <= i <= |details|
        invariant result + Filter(details[i..], paginatorStart, paginatorEnd) == Filter(details, paginatorStart, paginatorEnd)
      {
        var each := details[i];
        FilterFrom(details, i, paginatorStart, paginatorEnd);
        if each.startDate.None? || (!(each.startDate.value < paginatorStart) && each.startDate.value < paginatorEnd) {
          assert result + Filter(details[i..], paginatorStart, paginatorEnd)
              == (result + [each]) + Filter(details[i + 1..], paginatorStart, paginatorEnd);
          result := result + [each];
        }
        i := i + 1;
      }
    }
  }

  /**
   * First/last-page tests on the page of listbox item k: first exactly for
   * k = 0, last exactly for the final item.
   */
  lemma {:induction false} PageTestsOnItems(intervalStart: int, intervalEnd: int, inc: int, k: nat)
    requires inc > 0 && k < |Items(intervalStart, intervalEnd, inc)|
    ensures var p := Items(intervalStart, intervalEnd, inc)[k];
      && (!(p.start > intervalStart) <==> k == 0)
      && (p.end >= intervalEnd <==> k == |Items(intervalStart, intervalEnd, inc)| - 1)
  {
    ItemAt(intervalStart, intervalEnd, inc, k);
    if k > 0 {
      PositiveProduct(k, inc);
    }
    if k == |Items(intervalStart, intervalEnd, inc)| - 1 {
      LastItemEnds(intervalStart, intervalEnd, inc);
    }
  }

  lemma PositiveProduct(k: int, inc: int)
    requires k > 0 && inc > 0
    ensures k * inc > 0
  {
  }

  /** The last item ends at the interval's end. */
  lemma {:induction false} LastItemEnds(itemStart: int, intervalEnd: int, inc: int)
    requires inc > 0 && Items(itemStart, intervalEnd, inc) != []
    ensures var items := Items(itemStart, intervalEnd, inc); items[|items| - 1].end == intervalEnd
    decreases intervalEnd - itemStart
  {
    var end := ItemEnd(intervalEnd, itemStart, inc);
    if end != intervalEnd {
      LastItemEnds(end, intervalEnd, inc);
    }
  }

  /**
   * `next` from a page that is a listbox item other than the last moves to
   * the start of the following item and covers it; the new page is last
   * exactly when less than two increments remain after its start.
   */
  lemma NextFromItem(intervalStart: int, intervalEnd: int, inc: int, k: nat)
    requires inc > 0 && k + 1 < |Items(intervalStart, intervalEnd, inc)|
    ensures var items := Items(intervalStart, intervalEnd, inc);
      var start := items[k].start + inc;
      var end := items[k].end + inc + (if intervalEnd <= items[k].end + 2 * inc then inc else 0);
      && start == items[k + 1].start
      && end >= items[k + 1].end
      && (end >= intervalEnd <==> intervalEnd <= start + 2 * inc)
  {
    ItemAt(intervalStart, intervalEnd, inc, k);
    ItemAt(intervalStart, intervalEnd, inc, k + 1);
    assert intervalStart + (k + 1) * inc == intervalStart + k * inc + inc;
  }
}
