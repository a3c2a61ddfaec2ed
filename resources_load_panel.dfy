/**
 * The resource load panel of the Gantt library (`ResourcesLoadPanel`):
 * the filter between resources and criteria, the pages of ten load
 * lines chosen by name, and the tree of the load lines shown.
 */
module ResourcesLoadPanel {
  import opened Collections

  /** `PaginationType`. */
  datatype PaginationType = InternalPagination | ExternalPagination | NoPagination

  /** A `LoadTimeLine`: its concept name and its child lines. */
  datatype LoadTimeLine = LoadTimeLine(conceptName: string, children: seq<LoadTimeLine>)

  /** A `Comboitem` of the name filter. */
  datatype ComboItem = ComboItem(text: string, description: string, value: int)

  /** `numberOfGroupsByName`: lines per page. */
  const PAGE_SIZE: nat := 10

  /** The translated filter names and the last item of the name filter. */
  const FILTER_RESOURCES: string := "Resources"
  const FILTER_CRITERIA: string := "Generic allocation criteria"
  const ALL_ITEM: ComboItem := ComboItem("All", "Show all elements", -1)

  /**
   * `subList` throws: on a negative start (an index out of bounds) or on a
   * start past the end of the lines (an illegal argument).
   */
  datatype SubListFails = SubListFails

  /** The last line of the page starting at `position`. */
  function PageEnd(size: nat, position: nat): (last: nat)
    requires position < size
    ensures position <= last < size && last < position + PAGE_SIZE
    ensures last == size - 1 || last == position + PAGE_SIZE - 1
  {
    if position + PAGE_SIZE - 1 < size then position + PAGE_SIZE - 1 else size - 1
  }

  /**
   * The first and the last line of the page starting at `position` have a
   * name whose first character the name filter can take.
   */
  predicate PageNamed(groups: seq<LoadTimeLine>, position: nat)
    requires position < |groups|
  {
    groups[position].conceptName != [] && groups[PageEnd(|groups|, position)].conceptName != []
  }

  /** The name filter item of the page starting at `position`: first letters, full names, and the position. */
  function PageItem(groups: seq<LoadTimeLine>, position: nat): (item: ComboItem)
    requires position < |groups| && PageNamed(groups, position)
    ensures item.value == position
    ensures var page := Page(groups, position);
      && item.text == page[0].conceptName[..1] + " - " + page[|page| - 1].conceptName[..1]
      && item.description == page[0].conceptName + " - " + page[|page| - 1].conceptName
  {
    var firstName := groups[position].conceptName;
    var lastName := groups[PageEnd(|groups|, position)].conceptName;
    ComboItem(firstName[..1] + " - " + lastName[..1], firstName + " - " + lastName, position)
  }

  /** The lines of the page starting at `position`. */
  function Page(groups: seq<LoadTimeLine>, position: nat): (page: seq<LoadTimeLine>)
    requires position <= |groups|
    ensures |page| <= PAGE_SIZE
    ensures position < |groups| ==> page != []
    ensures position + |page| <= |groups| && page == groups[position..position + |page|]
    ensures |page| == PAGE_SIZE || position + |page| == |groups|
  {
    groups[position..if position + PAGE_SIZE < |groups| then position + PAGE_SIZE else |groups|]
  }

  /** The pages from `position` on, one after the other, are the lines from `position` on. */
  lemma {:induction false} PagesCoverGroups(groups: seq<LoadTimeLine>, position: nat)
    requires position <= |groups|
    ensures Pages(groups, position) == groups[position..]
    decreases |groups| - position
  {
    if position < |groups| {
      var next := if position + PAGE_SIZE < |groups| then position + PAGE_SIZE else |groups|;
      PagesCoverGroups(groups, next);
      assert groups[position..] == groups[position..next] + groups[next..];
    }
  }

  function Pages(groups: seq<LoadTimeLine>, position: nat): (pages: seq<LoadTimeLine>)
    requires position <= |groups|
    decreases |groups| - position
  {
    if position == |groups| then []
    else
      var next := if position + PAGE_SIZE < |groups| then position + PAGE_SIZE else |groups|;
      Page(groups, position) + Pages(groups, next)
  }

  // ---------------------------------------------------------------------
  // The tree of load lines
  // ---------------------------------------------------------------------

  /** One call on the `MutableTreeModel`. */
  datatype TreeAdd = AddToRoot(node: LoadTimeLine) | AddChildren(parent: LoadTimeLine, children: seq<LoadTimeLine>)

  /** `addNodes`: the children of a line under it, then the children's own children. */
  function AddNodes(parent: LoadTimeLine): (adds: seq<TreeAdd>)
    decreases parent, |parent.children| + 1
  {
    if parent.children == [] then []
    else [AddChildren(parent, parent.children)] + AddNodesOfChildren(parent, 0)
  }

  function AddNodesOfChildren(parent: LoadTimeLine, i: nat): (adds: seq<TreeAdd>)
    requires i <= |parent.children|
    decreases parent, |parent.children| - i
  {
    if i == |parent.children| then []
    else AddNodes(parent.children[i]) + AddNodesOfChildren(parent, i + 1)
  }

  /** The lines of the tree below `t` (and `t` itself). */
  predicate Within(n: LoadTimeLine, t: LoadTimeLine)
    decreases t
  {
    n == t || exists i :: 0 <= i < |t.children| && Within(n, t.children[i])
  }

  /** Every line below a shown line with children gets its children added under it. */
  lemma {:induction false} AddNodesReachesDescendants(n: LoadTimeLine, t: LoadTimeLine)
    requires Within(n, t) && n.children != []
    ensures AddChildren(n, n.children) in AddNodes(t)
    decreases t
  {
    if n != t {
      var i :| 0 <= i < |t.children| && Within(n, t.children[i]);
      AddNodesReachesDescendants(n, t.children[i]);
      ChildNodesIncluded(t, 0, i);
    }
  }

  lemma {:induction false} ChildNodesIncluded(t: LoadTimeLine, from: nat, i: nat)
    requires from <= i < |t.children|
    ensures forall a :: a in AddNodes(t.children[i]) ==> a in AddNodesOfChildren(t, from)
    decreases i - from
  {
    if from < i {
      ChildNodesIncluded(t, from + 1, i);
    }
  }

  /** The calls `createModelForTree` makes for the lines shown. */
  function ModelForTree(shown: seq<LoadTimeLine>): (adds: seq<TreeAdd>) {
    if shown == [] then []
    else ModelForTree(shown[..|shown| - 1]) + [AddToRoot(shown[|shown| - 1])] + AddNodes(shown[|shown| - 1])
  }

  /** Each shown line is at the root, and every line below it with children has them added. */
  lemma {:induction false} ModelForTreeHoldsShownLines(shown: seq<LoadTimeLine>, g: LoadTimeLine, n: LoadTimeLine)
    requires g in shown
    ensures AddToRoot(g) in ModelForTree(shown)
    ensures Within(n, g) && n.children != [] ==> AddChildren(n, n.children) in ModelForTree(shown)
    decreases |shown|
  {
    var last := shown[|shown| - 1];
    if g == last {
      if Within(n, g) && n.children != [] {
        AddNodesReachesDescendants(n, g);
      }
    } else {
      assert g in shown[..|shown| - 1];
      ModelForTreeHoldsShownLines(shown[..|shown| - 1], g, n);
    }
  }

  /** The name filter combo box. */
  class Combobox {
    var items: seq<ComboItem>
    /** -1 when nothing is selected. */
    var selectedIndex: int
    var disabled: bool

    constructor (items: seq<ComboItem>, selectedIndex: int, disabled: bool)
      ensures this.items == items && this.selectedIndex == selectedIndex && this.disabled == disabled
    {
      this.items := items;
      this.selectedIndex := selectedIndex;
      this.disabled := disabled;
    }
  }

  class ResourcesLoadPanel {
    const paginationType: PaginationType
    var groups: seq<LoadTimeLine>
    var filterbyResources: Option<bool>
    var refreshNameFilter: bool
    var filterByNamePosition: int
    var lastSelectedName: int
    var treeModel: seq<TreeAdd>

    /** The panel over `groups`, first page, tree of the lines shown. */
    constructor (groups: seq<LoadTimeLine>, paginationType: PaginationType)
      ensures this.groups == groups && this.paginationType == paginationType
      ensures refreshNameFilter && filterbyResources.None? && filterByNamePosition == 0 && lastSelectedName == 0
      ensures GetGroupsToShow() == Ok(if paginationType == InternalPagination then Page(groups, 0) else groups)
      ensures treeModel == ModelForTree(GetGroupsToShow().value)
    {
      this.paginationType := paginationType;
      this.groups := groups;
      filterbyResources := None;
      refreshNameFilter := true;
      filterByNamePosition := 0;
      lastSelectedName := 0;
      new;
      var shown := GetGroupsToShow();
      treeModel := CreateModelForTree(shown.value);
    }

    /**
     * `getGroupsToShow`: every line unless the panel pages by itself and
     * a page is chosen; then the ten lines (or fewer at the end) of the
     * page. A page past the end of the lines makes `subList` throw.
     */
    function GetGroupsToShow(): (r: Result<seq<LoadTimeLine>, SubListFails>)
      reads this
      ensures paginationType != InternalPagination || filterByNamePosition == -1 ==> r == Ok(groups)
      ensures paginationType == InternalPagination && 0 <= filterByNamePosition <= |groups| ==>
        r == Ok(Page(groups, filterByNamePosition))
      ensures r.Err? <==> paginationType == InternalPagination && filterByNamePosition != -1
                          && !(0 <= filterByNamePosition <= |groups|)
      ensures r.Ok? ==> |r.value| <= |groups|
    {
      if paginationType != InternalPagination || filterByNamePosition == -1 then Ok(groups)
      else
        var endPosition := if filterByNamePosition + PAGE_SIZE < |groups| then filterByNamePosition + PAGE_SIZE else |groups|;
        if 0 <= filterByNamePosition <= endPosition then Ok(groups[filterByNamePosition..endPosition])
        else Err(SubListFails)
    }

    /** `createModelForTree`: each shown line at the root, followed by its descendants. */
    method CreateModelForTree(shown: seq<LoadTimeLine>) returns (result: seq<TreeAdd>)
      ensures result == ModelForTree(shown)
    {
      result := [];
      var i := 0;
      while i < |shown|
        invariant 0 <= i <= |shown|
        invariant result == ModelForTree(shown[..i])
      {
        assert shown[..i + 1][..i] == shown[..i];
        result := result + [AddToRoot(shown[i])];
        result := result + AddNodes(shown[i]);
        i := i + 1;
      }
      assert shown[..i] == shown;
    }

    /** `init`: new lines; the name filter is to be rebuilt and the tree redrawn. */
    method Init(groups: seq<LoadTimeLine>) returns (outcome: Result<(), SubListFails>)
      modifies this`groups, this`refreshNameFilter, this`treeModel
      ensures this.groups == groups && refreshNameFilter
      ensures outcome.Ok? <==> GetGroupsToShow().Ok?
      ensures outcome.Ok? ==> treeModel == ModelForTree(GetGroupsToShow().value)
      ensures outcome.Err? ==> treeModel == old(treeModel)
    {
      refreshNameFilter := true;
      this.groups := groups;
      var shown := GetGroupsToShow();
      if shown.Err? {
        return Err(SubListFails);
      }
      treeModel := CreateModelForTree(shown.value);
      return Ok(());
    }

    /**
     * `setFilter`: whether the lines are resources follows the chosen
     * name; either way the name filter goes back to the first page and
     * is to be rebuilt.
     */
    method SetFilter(filterby: string)
      modifies this`filterbyResources, this`refreshNameFilter, this`filterByNamePosition
      ensures filterbyResources == Some(filterby == FILTER_RESOURCES)
      ensures refreshNameFilter && filterByNamePosition == 0
    {
      if filterby == FILTER_RESOURCES {
        filterbyResources := Some(true);
      } else {
        filterbyResources := Some(false);
      }
      refreshNameFilter := true;
      filterByNamePosition := 0;
    }

    /** `getFilter`: resources until a filter is chosen. */
    function GetFilter(): (byResources: bool)
      reads this
      ensures filterbyResources.None? ==> byResources
      ensures filterbyResources.Some? ==> byResources == filterbyResources.value
    {
      if filterbyResources.None? then true else filterbyResources.value
    }

    /**
     * `setupNameFilter`: one item per page of ten lines when there are more
     * than ten, valued by the position of the page's first line, then the
     * "All" item valued -1; the first item is selected.
     */
    method SetupNameFilter(combo: Combobox)
      requires |groups| > PAGE_SIZE ==>
        forall p :: 0 <= p < |groups| && p % PAGE_SIZE == 0 ==> PageNamed(groups, p)
      modifies combo`items, combo`selectedIndex, this`refreshNameFilter
      ensures !refreshNameFilter && combo.selectedIndex == 0
      ensures |groups| <= PAGE_SIZE ==> combo.items == [ALL_ITEM]
      ensures |groups| > PAGE_SIZE ==> |combo.items| == (|groups| + PAGE_SIZE - 1) / PAGE_SIZE + 1
      ensures combo.items[|combo.items| - 1] == ALL_ITEM
      ensures forall k :: 0 <= k < |combo.items| - 1 ==>
        PAGE_SIZE * k < |groups| && combo.items[k] == PageItem(groups, PAGE_SIZE * k)
    {
      var entries: seq<ComboItem> := [];
      var size := |groups|;
      if size > PAGE_SIZE {
        var position := 0;
        while position < size
          invariant position == PAGE_SIZE * |entries| && position % PAGE_SIZE == 0
          invariant position < size + PAGE_SIZE
          invariant forall k :: 0 <= k < |entries| ==>
            PAGE_SIZE * k < size && entries[k] == PageItem(groups, PAGE_SIZE * k)
        {
          assert PageNamed(groups, position);
          var firstName := groups[position].conceptName;
          var lastName: string;
          var newPosition := position + PAGE_SIZE;
          if newPosition - 1 < size {
            lastName := groups[newPosition - 1].conceptName;
          } else {
            lastName := groups[size - 1].conceptName;
          }
          var item := ComboItem(firstName[..1] + " - " + lastName[..1], firstName + " - " + lastName, position);
          entries := entries + [item];
          position := newPosition;
        }
      }
      combo.items := entries + [ALL_ITEM];
      combo.selectedIndex := 0;
      refreshNameFilter := false;
    }

    /**
     * `onSelectFilterByName`. Without a selection the last one comes back
     * (the first item if it was -1). Otherwise, unless the panel has no
     * pagination, the chosen page and item are recorded and, when the
     * panel pages by itself, the tree is redrawn.
     */
    method OnSelectFilterByName(combo: Combobox) returns (outcome: Result<(), SubListFails>)
      requires combo.selectedIndex == -1 || 0 <= combo.selectedIndex < |combo.items|
      modifies combo`selectedIndex, this`filterByNamePosition, this`lastSelectedName, this`treeModel
      ensures old(combo.selectedIndex) == -1 ==>
        combo.selectedIndex == (if lastSelectedName == -1 then 0 else lastSelectedName)
        && filterByNamePosition == old(filterByNamePosition) && lastSelectedName == old(lastSelectedName)
        && treeModel == old(treeModel) && outcome.Ok?
      ensures old(combo.selectedIndex) != -1 && paginationType == NoPagination ==>
        combo.selectedIndex == old(combo.selectedIndex)
        && filterByNamePosition == old(filterByNamePosition) && lastSelectedName == old(lastSelectedName)
        && treeModel == old(treeModel) && outcome.Ok?
      ensures old(combo.selectedIndex) != -1 && paginationType != NoPagination ==>
        combo.selectedIndex == old(combo.selectedIndex)
        && filterByNamePosition == combo.items[combo.selectedIndex].value && lastSelectedName == combo.selectedIndex
      ensures old(combo.selectedIndex) != -1 && paginationType == ExternalPagination ==>
        treeModel == old(treeModel) && outcome.Ok?
      ensures old(combo.selectedIndex) != -1 && paginationType == InternalPagination ==>
        (outcome.Ok? <==> GetGroupsToShow().Ok?)
        && (outcome.Ok? ==> treeModel == ModelForTree(GetGroupsToShow().value))
        && (outcome.Err? ==> treeModel == old(treeModel))
    {
      if combo.selectedIndex == -1 {
        if lastSelectedName == -1 {
          combo.selectedIndex := 0;
        } else {
          combo.selectedIndex := lastSelectedName;
        }
        return Ok(());
      }
      var position := combo.items[combo.selectedIndex].value;
      if paginationType != NoPagination {
        filterByNamePosition := position;
        lastSelectedName := combo.selectedIndex;
        if paginationType == InternalPagination {
          var shown := GetGroupsToShow();
          if shown.Err? {
            return Err(SubListFails);
          }
          treeModel := CreateModelForTree(shown.value);
        }
      }
      return Ok(());
    }

    /**
     * `setInternalPaginationDisabled`: acts only when the combo box's
     * state changes. Disabling shows every line; enabling goes back to the
     * selected page, which must exist.
     */
    method SetInternalPaginationDisabled(combo: Option<Combobox>, disabled: bool) returns (outcome: Result<(), NullPointer>)
      requires combo.Some? ==> combo.value.selectedIndex == -1 || 0 <= combo.value.selectedIndex < |combo.value.items|
      modifies if combo.Some? then {combo.value} else {}, this`filterByNamePosition
      ensures combo.Some? ==> combo.value.items == old(combo.value.items)
                              && combo.value.selectedIndex == old(combo.value.selectedIndex)
      ensures combo.None? || old(combo.value.disabled) == disabled ==>
        filterByNamePosition == old(filterByNamePosition) && outcome.Ok?
        && (combo.Some? ==> combo.value.disabled == old(combo.value.disabled))
      ensures combo.Some? && old(combo.value.disabled) != disabled && disabled ==>
        filterByNamePosition == -1 && combo.value.disabled && outcome.Ok?
        && GetGroupsToShow() == Ok(groups)
      ensures combo.Some? && old(combo.value.disabled) != disabled && !disabled ==>
        (outcome.Err? <==> combo.value.selectedIndex == -1)
        && (outcome.Ok? ==> filterByNamePosition == combo.value.items[combo.value.selectedIndex].value
                            && !combo.value.disabled)
        && (outcome.Err? ==> filterByNamePosition == old(filterByNamePosition) && combo.value.disabled)
    {
      if combo.Some? && combo.value.disabled != disabled {
        var box := combo.value;
        if disabled {
          filterByNamePosition := -1;
        } else {
          if box.selectedIndex == -1 {
            return Err(NullPointer);
          }
          filterByNamePosition := box.items[box.selectedIndex].value;
        }
        box.disabled := disabled;
      }
      return Ok(());
    }
  }

  /**
   * The items the name filter offers name pages that start at a line and
   * lie within the lines, so choosing one never makes `subList` throw.
   */
  lemma NameFilterPagesExist(groups: seq<LoadTimeLine>, items: seq<ComboItem>, k: nat)
    requires |items| >= 1 && k < |items|
    requires forall j :: 0 <= j < |items| - 1 ==> PAGE_SIZE * j < |groups| && items[j].value == PAGE_SIZE * j
    requires items[|items| - 1] == ALL_ITEM
    ensures items[k].value == -1 || 0 <= items[k].value < |groups|
  {
  }
}
