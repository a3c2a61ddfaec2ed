/**
 * The work breakdown structure editor of a project
 * (`OrderElementTreeController`): translation of the stored planning
 * filters into tree filters and back, the filter predicate, the date
 * range of the filter boxes, the JIRA link of a row, the guards of a
 * removal, the hours and budget handlers and the row tooltip.
 */
module OrderElementTree {
  import opened Collections

  // ---------------------------------------------------------------------
  // Filters
  // ---------------------------------------------------------------------

  /** `TaskElementFilterEnum`: the filter kinds of the planning. */
  datatype TaskFilterKind = TaskLabel | TaskCriterion | TaskResource

  /** `OrderElementFilterEnum`: the filter kinds of the tree. */
  datatype OrderFilterKind = OrderLabel | OrderCriterion

  /** A `FilterPair` of the planning. */
  datatype TaskFilter = TaskFilter(kind: TaskFilterKind, pattern: string, value: nat)

  /** A `FilterPair` of the tree. */
  datatype OrderFilter = OrderFilter(kind: OrderFilterKind, pattern: string, value: nat)

  /** `toOrderFilterEnum`: resources are not a tree filter. */
  function ToOrderFilter(f: TaskFilter): (r: Option<OrderFilter>)
    ensures r.None? <==> f.kind == TaskResource
    ensures r.Some? ==> r.value.pattern == f.pattern && r.value.value == f.value
    ensures r.Some? ==> (r.value.kind == OrderLabel <==> f.kind == TaskLabel)
  {
    match f.kind
    case TaskLabel => Some(OrderFilter(OrderLabel, f.pattern, f.value))
    case TaskCriterion => Some(OrderFilter(OrderCriterion, f.pattern, f.value))
    case TaskResource => None
  }

  /** `toTasKElementFilterEnum`. */
  function ToTaskFilter(f: OrderFilter): (r: TaskFilter)
    ensures r.kind != TaskResource
    ensures r.pattern == f.pattern && r.value == f.value
    ensures r.kind == TaskLabel <==> f.kind == OrderLabel
  {
    match f.kind
    case OrderLabel => TaskFilter(TaskLabel, f.pattern, f.value)
    case OrderCriterion => TaskFilter(TaskCriterion, f.pattern, f.value)
  }

  /** The two translations are inverse on the label and criterion filters. */
  lemma FilterTranslationsRoundTrip(f: TaskFilter, g: OrderFilter)
    ensures ToOrderFilter(ToTaskFilter(g)) == Some(g)
    ensures ToOrderFilter(f).Some? ==> ToTaskFilter(ToOrderFilter(f).value) == f
  {
  }

  /** The tree filters of stored planning filters: those with a translation. */
  function TreeFilters(stored: seq<TaskFilter>): (r: seq<OrderFilter>)
    ensures |r| <= |stored|
  {
    if stored == [] then []
    else
      var last := stored[|stored| - 1];
      TreeFilters(stored[..|stored| - 1]) + (match ToOrderFilter(last) case Some(g) => [g] case None => [])
  }

  /** The planning filters that are not resources, in order. */
  function NonResource(stored: seq<TaskFilter>): (r: seq<TaskFilter>)
    ensures forall f :: f in r ==> f in stored && f.kind != TaskResource
  {
    if stored == [] then []
    else
      var last := stored[|stored| - 1];
      NonResource(stored[..|stored| - 1]) + (if last.kind != TaskResource then [last] else [])
  }

  /** The planning filters a list of tree filters is written back as. */
  function PlanningFilters(selected: seq<OrderFilter>): (r: seq<TaskFilter>)
    ensures |r| == |selected|
    ensures forall i :: 0 <= i < |r| ==> r[i] == ToTaskFilter(selected[i])
  {
    if selected == [] then []
    else PlanningFilters(selected[..|selected| - 1]) + [ToTaskFilter(selected[|selected| - 1])]
  }

  /** The loop of `importOrderFiltersFromSession` that selects the translatable filters. */
  method ImportOrderFilters(stored: seq<TaskFilter>) returns (selected: seq<OrderFilter>)
    ensures selected == TreeFilters(stored)
  {
    selected := [];
    var i := 0;
    while i < |stored|
      invariant 0 <= i <= |stored|
      invariant selected == TreeFilters(stored[..i])
    {
      assert stored[..i + 1][..i] == stored[..i];
      var translated := ToOrderFilter(stored[i]);
      if translated.Some? {
        selected := selected + [translated.value];
      }
      i := i + 1;
    }
    assert stored[..i] == stored;
  }

  /** The loop of `writeFilterParameters`. */
  method WriteFilterParameters(selected: seq<OrderFilter>) returns (result: seq<TaskFilter>)
    ensures result == PlanningFilters(selected)
  {
    result := [];
    var i := 0;
    while i < |selected|
      invariant 0 <= i <= |selected|
      invariant result == PlanningFilters(selected[..i])
    {
      assert selected[..i + 1][..i] == selected[..i];
      result := result + [ToTaskFilter(selected[i])];
      i := i + 1;
    }
    assert selected[..i] == selected;
  }

  /** Reading stored filters into the tree and writing them back drops exactly the resource filters. */
  lemma {:induction false} ImportThenWriteDropsResources(stored: seq<TaskFilter>)
    ensures PlanningFilters(TreeFilters(stored)) == NonResource(stored)
    decreases |stored|
  {
    if stored != [] {
      var init := stored[..|stored| - 1];
      ImportThenWriteDropsResources(init);
      PlanningFiltersAppend(TreeFilters(init), match ToOrderFilter(stored[|stored| - 1]) case Some(g) => [g] case None => []);
    }
  }

  lemma PlanningFiltersAppend(a: seq<OrderFilter>, b: seq<OrderFilter>)
    ensures PlanningFilters(a + b) == PlanningFilters(a) + PlanningFilters(b)
  {
  }

  /** Writing tree filters and reading them back gives them back. */
  lemma {:induction false} WriteThenImportIsIdentity(selected: seq<OrderFilter>)
    ensures TreeFilters(PlanningFilters(selected)) == selected
    decreases |selected|
  {
    if selected != [] {
      var init := selected[..|selected| - 1];
      WriteThenImportIsIdentity(init);
      assert PlanningFilters(selected)[..|selected| - 1] == PlanningFilters(init);
      assert selected == init + [selected[|selected| - 1]];
    }
  }

  /** `OrderElementPredicate`. */
  datatype OrderElementPredicate = OrderElementPredicate(
    filters: seq<OrderFilter>, startDate: Option<int>, finishDate: Option<int>,
    name: Option<string>, ignoreLabelsInheritance: bool)

  /** `createPredicate`: no predicate when nothing filters. */
  function CreatePredicate(filters: seq<OrderFilter>, startDate: Option<int>, finishDate: Option<int>,
                           ignoreLabelsInheritance: bool, name: Option<string>): (r: Option<OrderElementPredicate>)
    ensures r.None? <==> filters == [] && startDate.None? && finishDate.None? && name.None?
    ensures r.Some? ==> r.value == OrderElementPredicate(filters, startDate, finishDate, name, ignoreLabelsInheritance)
  {
    if filters == [] && startDate.None? && finishDate.None? && name.None? then None
    else Some(OrderElementPredicate(filters, startDate, finishDate, name, ignoreLabelsInheritance))
  }

  // ---------------------------------------------------------------------
  // The filter date boxes
  // ---------------------------------------------------------------------

  /**
   * The start and finish date boxes of the filter. A box keeps a value
   * only if its constraint accepts it; a rejected value clears the box.
   */
  class FilterDates {
    var startDate: Option<int>
    var finishDate: Option<int>

    /** A set start is never after a set finish. */
    predicate Valid()
      reads this
    {
      startDate.Some? && finishDate.Some? ==> startDate.value <= finishDate.value
    }

    constructor ()
      ensures startDate.None? && finishDate.None? && Valid()
    {
      startDate := None;
      finishDate := None;
    }

    /** `checkConstraintFinishDate`: a finish before the start is refused and the finish box cleared. */
    method CheckConstraintFinishDate(value: Option<int>) returns (accepted: bool)
      modifies this`finishDate
      ensures accepted <==> !(value.Some? && startDate.Some? && value.value < startDate.value)
      ensures accepted ==> finishDate == old(finishDate)
      ensures !accepted ==> finishDate.None?
    {
      if value.Some? && startDate.Some? && value.value < startDate.value {
        finishDate := None;
        return false;
      }
      return true;
    }

    /** `checkConstraintStartDate`: a start after the finish is refused and the start box cleared. */
    method CheckConstraintStartDate(value: Option<int>) returns (accepted: bool)
      modifies this`startDate
      ensures accepted <==> !(value.Some? && finishDate.Some? && value.value > finishDate.value)
      ensures accepted ==> startDate == old(startDate)
      ensures !accepted ==> startDate.None?
    {
      if value.Some? && finishDate.Some? && value.value > finishDate.value {
        startDate := None;
        return false;
      }
      return true;
    }

    /** The user enters a finish date: the box takes it when the constraint accepts it. */
    method EnterFinishDate(value: Option<int>) returns (accepted: bool)
      requires Valid()
      modifies this`finishDate
      ensures Valid()
      ensures accepted <==> !(value.Some? && startDate.Some? && value.value < startDate.value)
      ensures finishDate == (if accepted then value else None)
    {
      accepted := CheckConstraintFinishDate(value);
      if accepted {
        finishDate := value;
      }
    }

    /** The user enters a start date. */
    method EnterStartDate(value: Option<int>) returns (accepted: bool)
      requires Valid()
      modifies this`startDate
      ensures Valid()
      ensures accepted <==> !(value.Some? && finishDate.Some? && value.value > finishDate.value)
      ensures startDate == (if accepted then value else None)
    {
      accepted := CheckConstraintStartDate(value);
      if accepted {
        startDate := value;
      }
    }
  }

  /** A range of one day is accepted in either order of entry. */
  method EqualDatesAccepted(day: int) returns (first: bool, second: bool)
    ensures first && second
  {
    var dates := new FilterDates();
    first := dates.EnterStartDate(Some(day));
    second := dates.EnterFinishDate(Some(day));
  }

  // ---------------------------------------------------------------------
  // The JIRA link of a row
  // ---------------------------------------------------------------------

  /** `StringUtils.removeStart`: drops `prefix` only when the text starts with it. */
  function RemoveStart(s: string, prefix: string): (r: string)
    ensures prefix != [] && |prefix| <= |s| && s[..|prefix|] == prefix ==> prefix + r == s
    ensures !(|prefix| <= |s| && s[..|prefix|] == prefix) ==> r == s
    ensures |r| <= |s| && r == s[|s| - |r|..]
  {
    if prefix == [] || s == [] then s
    else if |prefix| <= |s| && s[..|prefix|] == prefix then s[|prefix|..]
    else s
  }

  /** A hyperlink: its text and its target. */
  datatype Hyperlink = Hyperlink(text: string, href: string)

  /** Java's rendering of a string that may be missing. */
  function Shown(s: Option<string>): string {
    if s.Some? then s.value else "null"
  }

  /** The connector's server URL as Java concatenates it: "null" when it is missing. */
  function ServerUrl(properties: map<string, string>, serverUrlKey: string): string {
    Shown(if serverUrlKey in properties then Some(properties[serverUrlKey]) else None)
  }

  /**
   * `addHyperlink`: no link without a JIRA connector; otherwise the link
   * shows the code and points at the server's browse page for the code
   * without the JIRA prefix and without the project code and separator.
   */
  function JiraHyperlink(code: string, connector: Option<map<string, string>>, serverUrlKey: string,
                         jiraCodePrefix: string, orderCode: string, separator: string): (r: Option<Hyperlink>)
    ensures r.None? <==> connector.None?
    ensures r.Some? ==> r.value.text == code
    ensures r.Some? ==>
      (exists rest :: |rest| <= |code| && rest == code[|code| - |rest|..]
                      && r.value.href == ServerUrl(connector.value, serverUrlKey) + "/browse/" + rest)
  {
    if connector.None? then None
    else
      var properties := connector.value;
      var withoutPrefix := RemoveStart(code, jiraCodePrefix);
      var rest := RemoveStart(withoutPrefix, orderCode + separator);
      assert rest == code[|code| - |rest|..];
      Some(Hyperlink(code, ServerUrl(properties, serverUrlKey) + "/browse/" + rest))
  }

  /** A code made of the JIRA prefix, the project code, the separator and a key links to that key. */
  lemma JiraHyperlinkOfChildCode(properties: map<string, string>, serverUrlKey: string,
                                 jiraCodePrefix: string, orderCode: string, separator: string, key: string)
    requires jiraCodePrefix != [] && serverUrlKey in properties
    ensures JiraHyperlink(jiraCodePrefix + orderCode + separator + key, Some(properties), serverUrlKey,
                          jiraCodePrefix, orderCode, separator)
         == Some(Hyperlink(jiraCodePrefix + orderCode + separator + key, properties[serverUrlKey] + "/browse/" + key))
  {
    var code := jiraCodePrefix + orderCode + separator + key;
    assert code[..|jiraCodePrefix|] == jiraCodePrefix;
    var withoutPrefix := RemoveStart(code, jiraCodePrefix);
    assert withoutPrefix == orderCode + separator + key;
    assert withoutPrefix[..|orderCode + separator|] == orderCode + separator;
    if orderCode + separator == [] {
      assert RemoveStart(withoutPrefix, orderCode + separator) == key;
    } else {
      assert RemoveStart(withoutPrefix, orderCode + separator) == key;
    }
  }

  /** A code without the JIRA prefix or the project code links to itself. */
  lemma JiraHyperlinkOfForeignCode(properties: map<string, string>, serverUrlKey: string,
                                   jiraCodePrefix: string, orderCode: string, separator: string, code: string)
    requires serverUrlKey in properties
    requires |code| < |jiraCodePrefix| || code[..|jiraCodePrefix|] != jiraCodePrefix
    requires |code| < |orderCode + separator| || code[..|orderCode + separator|] != orderCode + separator
    ensures JiraHyperlink(code, Some(properties), serverUrlKey, jiraCodePrefix, orderCode, separator)
         == Some(Hyperlink(code, properties[serverUrlKey] + "/browse/" + code))
  {
    assert RemoveStart(code, jiraCodePrefix) == code;
  }

  // ---------------------------------------------------------------------
  // Removal, hours and budget
  // ---------------------------------------------------------------------

  /** Why `remove` refused, or that it removed. */
  datatype RemoveOutcome = HasImputedExpenseSheets | AlreadyInUse | OnlyChildOfParentInUse | Removed

  /** An element of the tree: whether it is an `OrderLine`, and its hours and budget. */
  class OrderElement {
    const id: nat
    const isOrderLine: bool
    var workHours: int
    var budget: int
    var hoursGroups: seq<nat>

    constructor (id: nat, isOrderLine: bool, workHours: int, budget: int, hoursGroups: seq<nat>)
      ensures this.id == id && this.isOrderLine == isOrderLine && this.workHours == workHours
      ensures this.budget == budget && this.hoursGroups == hoursGroups
    {
      this.id := id;
      this.isOrderLine := isOrderLine;
      this.workHours := workHours;
      this.budget := budget;
      this.hoursGroups := hoursGroups;
    }

    /** `hasMoreThanOneHoursGroup`. */
    predicate HasMoreThanOneHoursGroup()
      reads this
    {
      |hoursGroups| > 1
    }
  }

  /** `setWorkHours` of the hours handler: only an order line takes the hours. */
  method SetWorkHours(element: OrderElement, value: int)
    modifies element`workHours
    ensures element.isOrderLine ==> element.workHours == value
    ensures !element.isOrderLine ==> element.workHours == old(element.workHours)
  {
    if element.isOrderLine {
      element.workHours := value;
    }
  }

  /** `setBudgetHours` of the budget handler: only an order line takes the budget. */
  method SetBudgetHours(element: OrderElement, budget: int)
    modifies element`budget
    ensures element.isOrderLine ==> element.budget == budget
    ensures !element.isOrderLine ==> element.budget == old(element.budget)
  {
    if element.isOrderLine {
      element.budget := budget;
    }
  }

  /** The elements of the tree being edited, and the rows that have a code box. */
  class OrderElementTreeController {
    var elements: set<nat>
    var codeTextboxes: set<nat>

    constructor (elements: set<nat>, codeTextboxes: set<nat>)
      ensures this.elements == elements && this.codeTextboxes == codeTextboxes
    {
      this.elements := elements;
      this.codeTextboxes := codeTextboxes;
    }

    /**
     * `remove`: the three answers of the model are checked in order and the
     * first that forbids the removal is reported; only when none does is
     * the element removed, with its code box.
     */
    method Remove(element: nat, hasImputedExpenseSheets: bool, alreadyInUse: bool,
                  onlyChildAndParentInUse: bool) returns (outcome: RemoveOutcome)
      modifies this
      ensures outcome == (if hasImputedExpenseSheets then HasImputedExpenseSheets
                          else if alreadyInUse then AlreadyInUse
                          else if onlyChildAndParentInUse then OnlyChildOfParentInUse
                          else Removed)
      ensures outcome == Removed ==> elements == old(elements) - {element} && codeTextboxes == old(codeTextboxes) - {element}
      ensures outcome != Removed ==> elements == old(elements) && codeTextboxes == old(codeTextboxes)
    {
      if hasImputedExpenseSheets {
        return HasImputedExpenseSheets;
      }
      if alreadyInUse {
        return AlreadyInUse;
      }
      if onlyChildAndParentInUse {
        return OnlyChildOfParentInUse;
      }
      elements := elements - {element};
      codeTextboxes := codeTextboxes - {element};
      return Removed;
    }
  }

  // ---------------------------------------------------------------------
  // The tooltip of a row
  // ---------------------------------------------------------------------

  /** A criterion requirement: the criterion's name and whether the requirement is valid. */
  datatype CriterionRequirement = CriterionRequirement(criterionName: string, valid: bool)

  /** The translated section titles. */
  const LABELS_TITLE: string := "Labels"
  const CRITERIA_TITLE: string := "Criteria"
  const PROGRESS_TITLE: string := "Progress"

  /** The names of the valid requirements, in order. */
  function ValidCriterionNames(requirements: seq<CriterionRequirement>): (r: seq<string>)
    ensures forall n :: n in r <==> exists q :: q in requirements && q.valid && q.criterionName == n
  {
    if requirements == [] then []
    else
      var last := requirements[|requirements| - 1];
      var init := requirements[..|requirements| - 1];
      assert forall q :: q in requirements <==> q in init || q == last;
      ValidCriterionNames(init) + (if last.valid then [last.criterionName] else [])
  }

  /** The description section: present exactly when there is a non-empty description. */
  function DescriptionSection(description: Option<string>): (section: string)
    ensures section != "" <==> description.Some? && description.value != ""
    ensures section != "" ==> section == description.value + ". "
  {
    if description.Some? && description.value != "" then description.value + ". " else ""
  }

  function LabelsSection(labels: Option<seq<string>>): (section: string) {
    if labels.Some? && labels.value != [] then " " + LABELS_TITLE + ":" + Join(labels.value, ",") + "." else ""
  }

  function CriteriaSection(names: seq<string>): (section: string) {
    if names != [] then " " + CRITERIA_TITLE + ":" + Join(names, ",") + "." else ""
  }

  function ProgressSection(advancePercentage: string): (section: string) {
    " " + PROGRESS_TITLE + ":" + advancePercentage + "."
  }

  /** The tooltip of an element, section by section. */
  function TooltipText(name: string, description: Option<string>, labels: Option<seq<string>>,
                       requirements: Option<seq<CriterionRequirement>>, advancePercentage: string): (text: string)
  {
    name + ". " + DescriptionSection(description) + LabelsSection(labels)
    + CriteriaSection(if requirements.Some? then ValidCriterionNames(requirements.value) else [])
    + ProgressSection(advancePercentage)
  }

  /** The loop of `createTooltipText` over the criterion requirements. */
  method CollectValidCriterionNames(all: seq<CriterionRequirement>) returns (criteria: seq<string>)
    ensures criteria == ValidCriterionNames(all)
  {
    criteria := [];
    var i := 0;
    while i < |all|
      invariant 0 <= i <= |all|
      invariant criteria == ValidCriterionNames(all[..i])
    {
      assert all[..i + 1][..i] == all[..i];
      if all[i].valid {
        criteria := criteria + [all[i].criterionName];
      }
      i := i + 1;
    }
    assert all[..i] == all;
  }

  /** The criteria section of `createTooltipText`: the names of the valid requirements, if any. */
  method CriteriaText(requirements: Option<seq<CriterionRequirement>>) returns (section: string)
    ensures section == CriteriaSection(if requirements.Some? then ValidCriterionNames(requirements.value) else [])
  {
    section := "";
    if requirements.Some? && requirements.value != [] {
      var criteria := CollectValidCriterionNames(requirements.value);
      if criteria != [] {
        section := CriteriaSection(criteria);
      }
    }
  }

  /** `createTooltipText`, appending each section that applies. */
  method CreateTooltipText(name: string, description: Option<string>, labels: Option<seq<string>>,
                           requirements: Option<seq<CriterionRequirement>>, advancePercentage: string)
    returns (text: string)
    ensures text == TooltipText(name, description, labels, requirements, advancePercentage)
  {
    text := name + ". ";
    if description.Some? && description.value != "" {
      text := text + DescriptionSection(description);
    }
    assert text == name + ". " + DescriptionSection(description);
    if labels.Some? && labels.value != [] {
      text := text + LabelsSection(labels);
    }
    assert text == name + ". " + DescriptionSection(description) + LabelsSection(labels);
    var criteria := CriteriaText(requirements);
    text := text + criteria;
    text := text + ProgressSection(advancePercentage);
  }

  /** The tooltip starts with the name and ends with the progress. */
  lemma TooltipFrame(name: string, description: Option<string>, labels: Option<seq<string>>,
                     requirements: Option<seq<CriterionRequirement>>, advancePercentage: string)
    ensures var text := TooltipText(name, description, labels, requirements, advancePercentage);
      var progress := ProgressSection(advancePercentage);
      |name + ". "| + |progress| <= |text|
      && text[..|name + ". "|] == name + ". "
      && text[|text| - |progress|..] == progress
  {
    var head := name + ". ";
    var withDescription := head + DescriptionSection(description);
    var withLabels := withDescription + LabelsSection(labels);
    var withCriteria := withLabels
                        + CriteriaSection(if requirements.Some? then ValidCriterionNames(requirements.value) else []);
    StillPrefix(head, head, DescriptionSection(description));
    StillPrefix(head, withDescription, LabelsSection(labels));
    StillPrefix(head, withLabels, CriteriaSection(if requirements.Some? then ValidCriterionNames(requirements.value) else []));
    StillPrefix(head, withCriteria, ProgressSection(advancePercentage));
    EndsWith(withCriteria, ProgressSection(advancePercentage));
  }

  /** A prefix of `b` is a prefix of `b + c`. */
  lemma StillPrefix(a: string, b: string, c: string)
    requires |a| <= |b| && b[..|a|] == a
    ensures |a| <= |b + c| && (b + c)[..|a|] == a
  {
    assert (b + c)[..|a|] == b[..|a|];
  }

  lemma EndsWith(b: string, c: string)
    ensures (b + c)[|b + c| - |c|..] == c
  {
  }

  /** The criteria section shows exactly when some requirement is valid. */
  lemma CriteriaShownIffSomeValid(requirements: Option<seq<CriterionRequirement>>)
    ensures (requirements.Some? && exists q :: q in requirements.value && q.valid)
            <==> CriteriaSection(if requirements.Some? then ValidCriterionNames(requirements.value) else []) != ""
  {
    if requirements.Some? && exists q :: q in requirements.value && q.valid {
      var q :| q in requirements.value && q.valid;
      assert q.criterionName in ValidCriterionNames(requirements.value);
    }
    if requirements.Some? && ValidCriterionNames(requirements.value) != [] {
      assert ValidCriterionNames(requirements.value)[0] in ValidCriterionNames(requirements.value);
    }
  }
}
