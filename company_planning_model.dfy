/**
 * The company-wide planning view (`CompanyPlanningModel`): which orders
 * it shows, the default date range of its filter, and the earned-value
 * indicators of its chart legend.
 */
module CompanyPlanningModel {
  import opened Collections
  import opened Numbers

  // ---------------------------------------------------------------------
  // The orders query
  // ---------------------------------------------------------------------

  /** `TaskGroupFilterEnum`; the kinds the query does not use are `OtherFilter`. */
  datatype FilterKind = LabelFilter | CriterionFilter | ExternalCompanyFilter | StateFilter | OtherFilter

  /** A `FilterPair`: a kind and the identity of the filtering entity. */
  datatype FilterPair = FilterPair(kind: FilterKind, value: nat)

  /** `TaskGroupPredicate`: its filters, dates and whether it looks into order elements. */
  datatype TaskGroupPredicate = TaskGroupPredicate(
    filters: seq<FilterPair>, startDate: Option<int>, finishDate: Option<int>, includeChildren: bool)

  /** The orders `getOrders` asks the data access object for. */
  datatype OrdersQuery =
      /** Every order the user may read: filtering is left to the predicate. */
    | AllReadable
      /** No order can match: an order has one customer and one state. */
    | NoOrders
    | Filtered(startDate: Option<int>, finishDate: Option<int>, labels: seq<nat>, criteria: seq<nat>,
               customer: Option<nat>, state: Option<nat>)

  /** The values of the filters of one kind, in order. */
  function ValuesOf(filters: seq<FilterPair>, kind: FilterKind): (values: seq<nat>)
    ensures |values| <= |filters|
    ensures forall v :: v in values <==> exists f :: f in filters && f.kind == kind && f.value == v
  {
    if filters == [] then []
    else
      var last := filters[|filters| - 1];
      ValuesOf(filters[..|filters| - 1], kind) + (if last.kind == kind then [last.value] else [])
  }

  /** The only value of a kind that may occur once. */
  function Single(values: seq<nat>): Option<nat> {
    if values == [] then None else Some(values[0])
  }

  /**
   * `getOrders`. With children included the filters are not looked at;
   * otherwise labels and criteria accumulate, and a second customer or a
   * second state means that no order can match.
   */
  method GetOrders(taskPredicate: TaskGroupPredicate) returns (query: OrdersQuery)
    ensures taskPredicate.includeChildren ==> query == AllReadable
    ensures !taskPredicate.includeChildren ==>
      (query == NoOrders <==> |ValuesOf(taskPredicate.filters, ExternalCompanyFilter)| > 1
                              || |ValuesOf(taskPredicate.filters, StateFilter)| > 1)
    ensures !taskPredicate.includeChildren && query != NoOrders ==>
      query == Filtered(taskPredicate.startDate, taskPredicate.finishDate,
                        ValuesOf(taskPredicate.filters, LabelFilter), ValuesOf(taskPredicate.filters, CriterionFilter),
                        Single(ValuesOf(taskPredicate.filters, ExternalCompanyFilter)),
                        Single(ValuesOf(taskPredicate.filters, StateFilter)))
  {
    if taskPredicate.includeChildren {
      return AllReadable;
    }
    var filters := taskPredicate.filters;
    var labels: seq<nat> := [];
    var criteria: seq<nat> := [];
    var customer: Option<nat> := None;
    var state: Option<nat> := None;
    var i := 0;
    while i < |filters|
      invariant i <= |filters| && Accumulated(filters[..i], labels, criteria, customer, state)
    {
      var pair := filters[i];
      AccumulateNext(filters, i, labels, criteria, customer, state);
      match pair.kind {
        case LabelFilter =>
          labels := labels + [pair.value];
        case CriterionFilter =>
          criteria := criteria + [pair.value];
        case ExternalCompanyFilter =>
          if customer.Some? {
            return NoOrders;
          }
          customer := Some(pair.value);
        case StateFilter =>
          if state.Some? {
            return NoOrders;
          }
          state := Some(pair.value);
        case OtherFilter =>
      }
      i := i + 1;
    }
    assert filters[..i] == filters;
    query := Filtered(taskPredicate.startDate, taskPredicate.finishDate, labels, criteria, customer, state);
  }

  /** What the loop of `getOrders` has gathered from `filters`, with at most one customer and one state. */
  ghost predicate Accumulated(filters: seq<FilterPair>, labels: seq<nat>, criteria: seq<nat>,
                              customer: Option<nat>, state: Option<nat>)
  {
    && labels == ValuesOf(filters, LabelFilter)
    && criteria == ValuesOf(filters, CriterionFilter)
    && ValuesOf(filters, ExternalCompanyFilter) == (if customer.Some? then [customer.value] else [])
    && ValuesOf(filters, StateFilter) == (if state.Some? then [state.value] else [])
  }

  /** One iteration of the loop of `getOrders`: the filter at `i` is gathered, or is a second customer or state. */
  lemma AccumulateNext(filters: seq<FilterPair>, i: nat, labels: seq<nat>, criteria: seq<nat>,
                       customer: Option<nat>, state: Option<nat>)
    requires i < |filters| && Accumulated(filters[..i], labels, criteria, customer, state)
    ensures filters[i].kind == LabelFilter ==>
      Accumulated(filters[..i + 1], labels + [filters[i].value], criteria, customer, state)
    ensures filters[i].kind == CriterionFilter ==>
      Accumulated(filters[..i + 1], labels, criteria + [filters[i].value], customer, state)
    ensures filters[i].kind == ExternalCompanyFilter && customer.Some? ==>
      |ValuesOf(filters, ExternalCompanyFilter)| > 1
    ensures filters[i].kind == ExternalCompanyFilter && customer.None? ==>
      Accumulated(filters[..i + 1], labels, criteria, Some(filters[i].value), state)
    ensures filters[i].kind == StateFilter && state.Some? ==>
      |ValuesOf(filters, StateFilter)| > 1
    ensures filters[i].kind == StateFilter && state.None? ==>
      Accumulated(filters[..i + 1], labels, criteria, customer, Some(filters[i].value))
    ensures filters[i].kind == OtherFilter ==> Accumulated(filters[..i + 1], labels, criteria, customer, state)
  {
    ValuesOfNext(filters, i, LabelFilter);
    ValuesOfNext(filters, i, CriterionFilter);
    ValuesOfNext(filters, i, ExternalCompanyFilter);
    ValuesOfNext(filters, i, StateFilter);
    if filters[i].kind == ExternalCompanyFilter && customer.Some? {
      MoreValuesLater(filters, i + 1, ExternalCompanyFilter);
    }
    if filters[i].kind == StateFilter && state.Some? {
      MoreValuesLater(filters, i + 1, StateFilter);
    }
  }

  /** One more filter adds its value to the values of its own kind only. */
  lemma ValuesOfNext(filters: seq<FilterPair>, i: nat, kind: FilterKind)
    requires i < |filters|
    ensures ValuesOf(filters[..i + 1], kind)
      == ValuesOf(filters[..i], kind) + (if filters[i].kind == kind then [filters[i].value] else [])
  {
    assert filters[..i + 1][..i] == filters[..i];
  }

  /** Filters added later only add values. */
  lemma {:induction false} MoreValuesLater(filters: seq<FilterPair>, i: nat, kind: FilterKind)
    requires i <= |filters|
    ensures |ValuesOf(filters, kind)| >= |ValuesOf(filters[..i], kind)|
    decreases |filters| - i
  {
    if i < |filters| {
      MoreValuesLater(filters, i + 1, kind);
      assert filters[..i + 1][..i] == filters[..i];
    } else {
      assert filters[..i] == filters;
    }
  }

  // ---------------------------------------------------------------------
  // Top-level task groups
  // ---------------------------------------------------------------------

  /** The task group of an order, with whether the predicate accepts it. */
  datatype TaskGroup = TaskGroup(id: nat, startDate: int, endDate: int, accepted: bool)

  datatype Order = Order(
    initDate: Option<int>, deadline: Option<int>,
    /** Whether its state is one of those the planning shows. */
    visualized: bool,
    associatedTaskElement: Option<TaskGroup>)

  function ByStartDate(): (TaskGroup, TaskGroup) -> bool {
    (a: TaskGroup, b: TaskGroup) => a.startDate <= b.startDate
  }

  lemma ByStartDateIsTotalPreorder()
    ensures TotalPreorder(ByStartDate())
  {
  }

  /** The task groups `retainOnlyTopLevel` keeps, in the orders' order. */
  function Kept(orders: seq<Order>, includeChildren: bool): seq<TaskGroup> {
    if orders == [] then []
    else
      var last := orders[|orders| - 1];
      Kept(orders[..|orders| - 1], includeChildren)
      + (if last.associatedTaskElement.Some? && !(includeChildren && !last.associatedTaskElement.value.accepted)
         then [last.associatedTaskElement.value] else [])
  }

  /**
   * `retainOnlyTopLevel` over the orders the query returned: the task group
   * of every order that has one, except those the predicate rejects when
   * it includes children, sorted by start date.
   */
  method RetainOnlyTopLevel(orders: seq<Order>, includeChildren: bool) returns (result: seq<TaskGroup>)
    ensures SortedBy(result, ByStartDate())
    ensures multiset(result) == multiset(Kept(orders, includeChildren))
    ensures forall g :: g in result ==> (includeChildren ==> g.accepted)
  {
    result := [];
    var i := 0;
    while i < |orders|
      invariant 0 <= i <= |orders|
      invariant result == Kept(orders[..i], includeChildren)
    {
      assert orders[..i + 1][..i] == orders[..i];
      var group := orders[i].associatedTaskElement;
      if group.Some? {
        if includeChildren && !group.value.accepted {
          i := i + 1;
          continue;
        }
        result := result + [group.value];
      }
      i := i + 1;
    }
    assert orders[..i] == orders;
    KeptAreAccepted(orders, includeChildren);
    ByStartDateIsTotalPreorder();
    var sorted := Sort(result, ByStartDate());
    forall g | g in sorted ensures g in result {
      assert g in multiset(sorted);
    }
    result := sorted;
  }

  lemma {:induction false} KeptAreAccepted(orders: seq<Order>, includeChildren: bool)
    ensures forall g :: g in Kept(orders, includeChildren) ==> (includeChildren ==> g.accepted)
    decreases |orders|
  {
    if orders != [] {
      KeptAreAccepted(orders[..|orders| - 1], includeChildren);
    }
  }

  // ---------------------------------------------------------------------
  // The default filter dates
  // ---------------------------------------------------------------------

  /** `notNull`: the present values, in order. */
  function NotNull(values: seq<Option<int>>): (r: seq<int>)
    ensures |r| <= |values|
    ensures forall x :: x in r <==> Some(x) in values
  {
    if values == [] then []
    else
      (if values[0].Some? then [values[0].value] else []) + NotNull(values[1..])
  }

  function MinOf(s: seq<int>): (m: int)
    requires s != []
    ensures m in s && forall x :: x in s ==> m <= x
  {
    if |s| == 1 then s[0]
    else
      var rest := MinOf(s[1..]);
      assert forall x :: x in s ==> x == s[0] || x in s[1..];
      if s[0] <= rest then s[0] else rest
  }

  function MaxOf(s: seq<int>): (m: int)
    requires s != []
    ensures m in s && forall x :: x in s ==> x <= m
  {
    if |s| == 1 then s[0]
    else
      var rest := MaxOf(s[1..]);
      assert forall x :: x in s ==> x == s[0] || x in s[1..];
      if s[0] >= rest then s[0] else rest
  }

  predicate Shown(o: Order) {
    o.associatedTaskElement.Some? && o.visualized
  }

  /** The dates that can start the range: init dates and task group starts of the shown orders. */
  function StartCandidates(orders: seq<Order>): seq<int> {
    if orders == [] then []
    else
      var last := orders[|orders| - 1];
      StartCandidates(orders[..|orders| - 1])
      + (if Shown(last) then NotNull([last.initDate, Some(last.associatedTaskElement.value.startDate)]) else [])
  }

  /** The dates that can end the range: deadlines and task group ends of the shown orders. */
  function EndCandidates(orders: seq<Order>): seq<int> {
    if orders == [] then []
    else
      var last := orders[|orders| - 1];
      EndCandidates(orders[..|orders| - 1])
      + (if Shown(last) then NotNull([last.deadline, Some(last.associatedTaskElement.value.endDate)]) else [])
  }

  /** `EarnedValueType`. */
  datatype EarnedValueType = BCWS | ACWP | BCWP | CV | SV | BAC | EAC | VAC | ETC | CPI | SPI

  /** A legend check box and the indicator it stands for. */
  datatype Checkbox = Checkbox(indicator: EarnedValueType, checked: bool)

  predicate IsDefaultIndicator(t: EarnedValueType) {
    t == BCWS || t == ACWP || t == BCWP
  }

  /** A `BigDecimal`: `unscaled` times ten to the power `-scale`. */
  datatype BigDecimal = BigDecimal(unscaled: int, scale: nat)

  function Pow10(n: nat): (p: nat)
    ensures p >= 1
  {
    if n == 0 then 1 else 10 * Pow10(n - 1)
  }

  /** `BigDecimal.intValue`: the fraction dropped toward zero, then the low 32 bits. */
  function IntValue(d: BigDecimal): int {
    ToInt32(TruncatedDiv(d.unscaled, Pow10(d.scale)))
  }

  /**
   * `getLabelTextEarnedValueType`: a missing indicator is zero; CPI and SPI
   * are percentages, the rest hours; the number is printed as an `int`.
   */
  function LabelTextEarnedValueType(t: EarnedValueType, indicator: Option<BigDecimal>): (text: string)
    ensures exists number :: INT_MIN <= number <= INT_MAX && text == IntToString(number) + " " + Unit(t)
    ensures indicator.None? ==> text == "0 " + Unit(t)
  {
    var value := if indicator.Some? then indicator.value else BigDecimal(0, 0);
    var shown := if t == CPI || t == SPI then BigDecimal(value.unscaled * 100, value.scale) else value;
    assert IntToString(0) == "0";
    IntToString(IntValue(shown)) + " " + Unit(t)
  }

  function Unit(t: EarnedValueType): string {
    if t == CPI || t == SPI then "%" else "h"
  }

  /** The number in a legend label reads back as the indicator's `int` value. */
  lemma LabelTextNumberParses(t: EarnedValueType, d: BigDecimal)
    ensures t != CPI && t != SPI ==> LabelTextEarnedValueType(t, Some(d)) == IntToString(IntValue(d)) + " h"
    ensures t == CPI || t == SPI ==>
      LabelTextEarnedValueType(t, Some(d)) == IntToString(IntValue(BigDecimal(d.unscaled * 100, d.scale))) + " %"
    ensures ParseInt(IntToString(IntValue(d))) == Some(IntValue(d))
  {
    IntToStringParses(IntValue(d));
  }

  class CompanyPlanningModel {
    var filterStartDate: Option<int>
    var filterFinishDate: Option<int>
    /** `earnedValueChartConfigurationCheckboxes`. */
    var checkboxes: seq<Checkbox>

    constructor (checkboxes: seq<Checkbox>)
      ensures this.checkboxes == checkboxes && filterStartDate == None && filterFinishDate == None
    {
      this.checkboxes := checkboxes;
      filterStartDate := None;
      filterFinishDate := None;
    }

    /**
     * `getDefaultPredicate`. A missing stored start becomes the earliest
     * init date or task group start of the shown orders, a missing stored
     * end the latest deadline or task group end; stored dates are kept.
     * Both become the filter dates.
     */
    method GetDefaultPredicate(storedStart: Option<int>, storedEnd: Option<int>, orders: seq<Order>,
                               includeOrderElements: bool)
      returns (taskPredicate: TaskGroupPredicate)
      modifies this`filterStartDate, this`filterFinishDate
      ensures DefaultDates(storedStart, storedEnd, orders, taskPredicate.startDate, taskPredicate.finishDate)
      ensures taskPredicate.filters == [] && taskPredicate.includeChildren == includeOrderElements
      ensures filterStartDate == taskPredicate.startDate && filterFinishDate == taskPredicate.finishDate
    {
      var startDate, endDate := ComputeDefaultDates(storedStart, storedEnd, orders);
      filterStartDate := startDate;
      filterFinishDate := endDate;
      taskPredicate := TaskGroupPredicate([], startDate, endDate, includeOrderElements);
    }

    /**
     * `getFilterFinishDate` as written: it tests the start date, so it
     * hides a finish date when there is no start date, and dereferences a
     * missing finish date when there is one.
     */
    function GetFilterFinishDateAsWritten(): (r: Result<Option<int>, NullPointer>)
      reads this
      ensures filterStartDate.None? ==> r == Ok(None)
      ensures filterStartDate.Some? && filterFinishDate.None? ==> r == Err(NullPointer)
      ensures filterStartDate.Some? && filterFinishDate.Some? ==> r == Ok(filterFinishDate)
    {
      if filterStartDate.None? then Ok(None)
      else if filterFinishDate.None? then Err(NullPointer)
      else Ok(filterFinishDate)
    }

    /** `getFilterFinishDate` testing its own date, as `getFilterStartDate` tests the start date. */
    function GetFilterFinishDate(): (r: Result<Option<int>, NullPointer>)
      reads this
      ensures r == Ok(filterFinishDate)
    {
      if filterFinishDate.None? then Ok(None) else Ok(filterFinishDate)
    }

    /** `markAsSelectedDefaultIndicators`: exactly BCWS, ACWP and BCWP are checked. */
    method MarkAsSelectedDefaultIndicators()
      modifies this`checkboxes
      ensures |checkboxes| == |old(checkboxes)|
      ensures forall i :: 0 <= i < |checkboxes| ==>
        checkboxes[i] == Checkbox(old(checkboxes[i]).indicator, IsDefaultIndicator(old(checkboxes[i]).indicator))
    {
      var i := 0;
      while i < |checkboxes|
        invariant 0 <= i <= |checkboxes| == |old(checkboxes)|
        invariant forall k :: 0 <= k < i ==>
          checkboxes[k] == Checkbox(old(checkboxes[k]).indicator, IsDefaultIndicator(old(checkboxes[k]).indicator))
        invariant forall k :: i <= k < |checkboxes| ==> checkboxes[k] == old(checkboxes[k])
      {
        var t := checkboxes[i].indicator;
        checkboxes := checkboxes[i := Checkbox(t, t == BCWS || t == ACWP || t == BCWP)];
        i := i + 1;
      }
    }

    /** `getEarnedValueSelectedIndicators`: the indicators of the checked boxes. */
    method GetEarnedValueSelectedIndicators() returns (result: set<EarnedValueType>)
      ensures forall t :: t in result <==> exists i :: 0 <= i < |checkboxes| && checkboxes[i].checked && checkboxes[i].indicator == t
    {
      result := {};
      var i := 0;
      while i < |checkboxes|
        invariant 0 <= i <= |checkboxes|
        invariant forall t :: t in result <==> exists k :: 0 <= k < i && checkboxes[k].checked && checkboxes[k].indicator == t
      {
        if checkboxes[i].checked {
          result := result + {checkboxes[i].indicator};
        }
        i := i + 1;
      }
    }

    /** After the defaults are marked, the selected indicators are the defaults among the boxes. */
    method SelectDefaultIndicators() returns (selected: set<EarnedValueType>)
      modifies this`checkboxes
      ensures forall t :: t in selected <==> IsDefaultIndicator(t) && exists i :: 0 <= i < |old(checkboxes)| && old(checkboxes)[i].indicator == t
    {
      MarkAsSelectedDefaultIndicators();
      selected := GetEarnedValueSelectedIndicators();
    }
  }

  /**
   * The dates `getDefaultPredicate` settles on: stored dates are kept; a
   * missing start is the least start candidate, missing when there is
   * none; a missing end is the greatest end candidate likewise.
   */
  predicate DefaultDates(storedStart: Option<int>, storedEnd: Option<int>, orders: seq<Order>,
                         startDate: Option<int>, endDate: Option<int>)
  {
    (storedStart.Some? ==> startDate == storedStart)
    && (storedEnd.Some? ==> endDate == storedEnd)
    && (storedStart.None? ==>
          (startDate.Some? <==> StartCandidates(orders) != [])
          && (startDate.Some? ==> startDate.value == MinOf(StartCandidates(orders))))
    && (storedEnd.None? ==>
          (endDate.Some? <==> EndCandidates(orders) != [])
          && (endDate.Some? ==> endDate.value == MaxOf(EndCandidates(orders))))
  }

  /** The loop of `getDefaultPredicate` over the orders, computing the missing dates. */
  method ComputeDefaultDates(storedStart: Option<int>, storedEnd: Option<int>, orders: seq<Order>)
    returns (startDate: Option<int>, endDate: Option<int>)
    ensures DefaultDates(storedStart, storedEnd, orders, startDate, endDate)
  {
    startDate := storedStart;
    endDate := storedEnd;
    var calculateStartDate := startDate.None?;
    var calculateEndDate := endDate.None?;
    if calculateStartDate || calculateEndDate {
      var i := 0;
      while i < |orders|
        invariant 0 <= i <= |orders|
        invariant startDate == if calculateStartDate then LeastStart(orders[..i]) else storedStart
        invariant endDate == if calculateEndDate then GreatestEnd(orders[..i]) else storedEnd
      {
        assert orders[..i + 1][..i] == orders[..i];
        var each := orders[i];
        if each.associatedTaskElement.Some? && each.visualized {
          var group := each.associatedTaskElement.value;
          if calculateStartDate {
            startDate := Some(MinOf(NotNull([startDate, each.initDate, Some(group.startDate)])));
          }
          if calculateEndDate {
            endDate := Some(MaxOf(NotNull([endDate, each.deadline, Some(group.endDate)])));
          }
        }
        i := i + 1;
      }
      assert orders[..i] == orders;
    }
    if calculateStartDate {
      LeastStartIsMinOf(orders);
    }
    if calculateEndDate {
      GreatestEndIsMaxOf(orders);
    }
  }

  /** The start date the loop of `getDefaultPredicate` computes from no stored date. */
  function LeastStart(orders: seq<Order>): Option<int> {
    if orders == [] then None
    else NextStart(LeastStart(orders[..|orders| - 1]), orders[|orders| - 1])
  }

  /** The end date the loop of `getDefaultPredicate` computes from no stored date. */
  function GreatestEnd(orders: seq<Order>): Option<int> {
    if orders == [] then None
    else NextEnd(GreatestEnd(orders[..|orders| - 1]), orders[|orders| - 1])
  }

  /** The computed start is missing exactly when there is no candidate, and otherwise the least one. */
  lemma {:induction false} LeastStartIsMinOf(orders: seq<Order>)
    ensures LeastStart(orders).Some? <==> StartCandidates(orders) != []
    ensures LeastStart(orders).Some? ==> LeastStart(orders).value == MinOf(StartCandidates(orders))
  {
    LeastStartIsRunningMin(orders);
    RunningMinIsMinOf(LeastStart(orders), StartCandidates(orders));
  }

  lemma {:induction false} GreatestEndIsMaxOf(orders: seq<Order>)
    ensures GreatestEnd(orders).Some? <==> EndCandidates(orders) != []
    ensures GreatestEnd(orders).Some? ==> GreatestEnd(orders).value == MaxOf(EndCandidates(orders))
  {
    GreatestEndIsRunningMax(orders);
    RunningMaxIsMaxOf(GreatestEnd(orders), EndCandidates(orders));
  }

  lemma {:induction false} LeastStartIsRunningMin(orders: seq<Order>)
    ensures RunningMin(LeastStart(orders), StartCandidates(orders))
    decreases |orders|
  {
    if orders != [] {
      var n := |orders| - 1;
      LeastStartIsRunningMin(orders[..n]);
      StartStep(LeastStart(orders[..n]), orders, n);
      assert orders[..n + 1] == orders;
    }
  }

  lemma {:induction false} GreatestEndIsRunningMax(orders: seq<Order>)
    ensures RunningMax(GreatestEnd(orders), EndCandidates(orders))
    decreases |orders|
  {
    if orders != [] {
      var n := |orders| - 1;
      GreatestEndIsRunningMax(orders[..n]);
      EndStep(GreatestEnd(orders[..n]), orders, n);
      assert orders[..n + 1] == orders;
    }
  }

  /** `current` is the least candidate so far, or missing when there is none. */
  ghost predicate RunningMin(current: Option<int>, candidates: seq<int>) {
    (current.None? <==> candidates == [])
    && (current.Some? ==> current.value in candidates && forall x :: x in candidates ==> current.value <= x)
  }

  ghost predicate RunningMax(current: Option<int>, candidates: seq<int>) {
    (current.None? <==> candidates == [])
    && (current.Some? ==> current.value in candidates && forall x :: x in candidates ==> x <= current.value)
  }

  /**
   * One order of the loop of `getDefaultPredicate` for the start date: an
   * order with a task group that is shown folds its init date and its task
   * group's start into the least so far; other orders change nothing.
   */
  function NextStart(current: Option<int>, o: Order): Option<int> {
    if Shown(o) then Some(MinOf(NotNull([current, o.initDate, Some(o.associatedTaskElement.value.startDate)])))
    else current
  }

  function NextEnd(current: Option<int>, o: Order): Option<int> {
    if Shown(o) then Some(MaxOf(NotNull([current, o.deadline, Some(o.associatedTaskElement.value.endDate)])))
    else current
  }

  lemma StartStep(current: Option<int>, orders: seq<Order>, i: nat)
    requires i < |orders| && RunningMin(current, StartCandidates(orders[..i]))
    ensures RunningMin(NextStart(current, orders[i]), StartCandidates(orders[..i + 1]))
  {
    assert orders[..i + 1][..i] == orders[..i];
    var o := orders[i];
    if Shown(o) {
      var before := StartCandidates(orders[..i]);
      var values := [current, o.initDate, Some(o.associatedTaskElement.value.startDate)];
      var m := MinOf(NotNull(values));
      forall x | x in before + NotNull(values[1..]) ensures m <= x {
        if x in before {
          assert Some(current.value) in values;
        } else {
          assert Some(x) in values[1..];
          assert Some(x) in values;
        }
      }
      assert Some(m) in values;
    }
  }

  lemma EndStep(current: Option<int>, orders: seq<Order>, i: nat)
    requires i < |orders| && RunningMax(current, EndCandidates(orders[..i]))
    ensures RunningMax(NextEnd(current, orders[i]), EndCandidates(orders[..i + 1]))
  {
    assert orders[..i + 1][..i] == orders[..i];
    var o := orders[i];
    if Shown(o) {
      var before := EndCandidates(orders[..i]);
      var values := [current, o.deadline, Some(o.associatedTaskElement.value.endDate)];
      var m := MaxOf(NotNull(values));
      forall x | x in before + NotNull(values[1..]) ensures x <= m {
        if x in before {
          assert Some(current.value) in values;
        } else {
          assert Some(x) in values[1..];
          assert Some(x) in values;
        }
      }
      assert Some(m) in values;
    }
  }

  lemma RunningMinIsMinOf(current: Option<int>, candidates: seq<int>)
    requires RunningMin(current, candidates)
    ensures current.Some? ==> current.value == MinOf(candidates)
  {
  }

  lemma RunningMaxIsMaxOf(current: Option<int>, candidates: seq<int>)
    requires RunningMax(current, candidates)
    ensures current.Some? ==> current.value == MaxOf(candidates)
  {
  }

  /**
   * A state the default predicate reaches (a stored start date, no stored
   * end, no shown order) where the finish date as written fails, and one
   * (no start, a stored end) where it is hidden.
   */
  method FilterFinishDateAsWrittenFails() returns (r1: Result<Option<int>, NullPointer>, r2: Result<Option<int>, NullPointer>)
    ensures r1 == Err(NullPointer) && r2 == Ok(None)
  {
    var model := new CompanyPlanningModel([]);
    var _ := model.GetDefaultPredicate(Some(10), None, [], false);
    r1 := model.GetFilterFinishDateAsWritten();
    assert model.GetFilterFinishDate() == Ok(None);
    var _ := model.GetDefaultPredicate(None, Some(20), [], false);
    r2 := model.GetFilterFinishDateAsWritten();
    assert model.GetFilterFinishDate() == Ok(Some(20));
  }

  /**
   * The finish date as written agrees with the corrected one exactly when
   * either both filter dates are stored or neither is.
   */
  lemma FilterFinishDateAsWrittenAgreesExactly(model: CompanyPlanningModel)
    ensures model.GetFilterFinishDateAsWritten() == model.GetFilterFinishDate() <==>
      (model.filterStartDate.Some? <==> model.filterFinishDate.Some?)
  {
  }
}
