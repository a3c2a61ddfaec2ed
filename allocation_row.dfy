/**
 * A row of the advanced-allocation window (`Row`): which of its effort
 * cells may be edited, what editing one does, and the listbox that chooses
 * the allocation's assignment function.
 */
module AllocationRow {
  import opened Collections
  import opened Restrictions
  import opened AllocationEngine
  import opened FunctionConfigurations

  /**
   * A task instant: a day and the effort already consumed on it. Compared
   * with a day, it is that day's start when no effort is consumed and later
   * otherwise.
   */
  datatype IntraDayDate = IntraDayDate(date: int, effort: nat)

  function CompareToDay(d: IntraDayDate, day: int): int {
    if d.date < day then -1
    else if d.date > day then 1
    else if d.effort == 0 then 0
    else 1
  }

  /** What a row reads of its task. */
  datatype TaskInfo = TaskInfo(
    intraDayStart: IntraDayDate,
    intraDayEnd: IntraDayDate,
    /** `getFirstDayNotConsolidated`, present when the task has consolidations. */
    firstDayNotConsolidated: Option<int>,
    updatedFromTimesheets: bool)

  function IsBeforeTaskStartDate(task: TaskInfo, item: DetailItem): bool {
    CompareToDay(task.intraDayStart, item.endDate) >= 0
  }

  function IsAfterTaskEndDate(task: TaskInfo, item: DetailItem): bool {
    CompareToDay(task.intraDayEnd, item.startDate) <= 0
  }

  function DoesNotIntersectWithTask(task: TaskInfo, item: DetailItem): bool {
    IsBeforeTaskStartDate(task, item) || IsAfterTaskEndDate(task, item)
  }

  function IsBeforeLatestConsolidation(task: TaskInfo, item: DetailItem): bool {
    task.firstDayNotConsolidated.Some? && item.startDate < task.firstDayNotConsolidated.value
  }

  /** `cannotBeEdited`: the cell shows a label instead of an effort box. */
  function CannotBeEdited(level: int, task: TaskInfo, item: DetailItem): bool {
    level == 0 || DoesNotIntersectWithTask(task, item)
    || IsBeforeLatestConsolidation(task, item) || task.updatedFromTimesheets
  }

  /**
   * A cell can be edited exactly when its row is not a grouping row, the
   * task is not fed from timesheets, the task starts before the cell ends,
   * the task's work reaches past the cell's first day start, and the cell
   * starts no earlier than the first day not consolidated.
   */
  lemma EditableCells(level: int, task: TaskInfo, item: DetailItem)
    ensures !CannotBeEdited(level, task, item) <==>
      && level != 0
      && !task.updatedFromTimesheets
      && task.intraDayStart.date < item.endDate
      && (task.intraDayEnd.date > item.startDate
          || (task.intraDayEnd.date == item.startDate && task.intraDayEnd.effort > 0))
      && (task.firstDayNotConsolidated.None? || task.firstDayNotConsolidated.value <= item.startDate)
  {
  }

  datatype LabelClass = CalculatedHours | UnmodifiableHours | ConsolidatedHours | NoClass

  /** `getLabelClassFor`: why a read-only cell is read-only, the first reason first. */
  function LabelClassFor(level: int, task: TaskInfo, item: DetailItem): (c: LabelClass)
    ensures c == CalculatedHours <==> level == 0
    ensures !CannotBeEdited(level, task, item) ==> c == NoClass
    ensures CannotBeEdited(level, task, item) && c == NoClass ==> task.updatedFromTimesheets
    ensures c == ConsolidatedHours ==> IsBeforeLatestConsolidation(task, item) && !DoesNotIntersectWithTask(task, item)
  {
    if level == 0 then CalculatedHours
    else if DoesNotIntersectWithTask(task, item) then UnmodifiableHours
    else if IsBeforeLatestConsolidation(task, item) then ConsolidatedHours
    else NoClass
  }

  /** How `onSelect` of the assignment-function listbox ended. */
  datatype SelectOutcome = CannotApplySigmoid | Declined | Applied

  class Row {
    const level: int
    const isLimiting: bool
    const task: TaskInfo
    const restriction: Restriction
    /** `getAllocation`: the first allocation of the row's aggregate. */
    const allocation: ResourceAllocation

    /** The listbox item selected, as an index into `Functions`. */
    var selectedItem: Option<nat>
    /** `previousListitem`. */
    var previousItem: Option<nat>
    var configureButtonEnabled: bool
    var comboDisabled: bool

    constructor (level: int, limiting: bool, task: TaskInfo, restriction: Restriction, allocation: ResourceAllocation)
      ensures this.level == level && this.isLimiting == limiting && this.task == task
      ensures this.restriction == restriction && this.allocation == allocation
      ensures selectedItem == None && previousItem == None
    {
      this.level := level;
      this.isLimiting := limiting;
      this.task := task;
      this.restriction := restriction;
      this.allocation := allocation;
      selectedItem := None;
      previousItem := None;
      configureButtonEnabled := false;
      comboDisabled := false;
    }

    predicate IsGroupingRow()
    {
      level == 0
    }

    /** `isEffortDurationBoxDisabled`: the total-effort box is read-only. */
    predicate IsEffortDurationBoxDisabled()
    {
      IsGroupingRow() || isLimiting || task.updatedFromTimesheets
    }

    /** The listbox shows, and would restore, the item that targets the allocation's function. */
    ghost predicate ComboShowsFunction()
      reads this, allocation
    {
      && selectedItem == Some(TargetIndex(allocation.assignmentFunction))
      && previousItem == selectedItem
    }

    /**
     * `initializeAssigmentFunctionsCombo` with the listbox constructor: the
     * item targeted to the allocation's function is selected and saved as
     * the previous one; a task fed from timesheets disables both controls.
     */
    method InitializeAssignmentFunctionsCombo()
      requires !IsGroupingRow() && !isLimiting
      modifies this`selectedItem, this`previousItem, this`configureButtonEnabled, this`comboDisabled
      ensures ComboShowsFunction()
      ensures comboDisabled == task.updatedFromTimesheets
      ensures configureButtonEnabled == (IsConfigurable(Functions[selectedItem.value]) && !task.updatedFromTimesheets)
    {
      var initial := allocation.assignmentFunction;
      selectedItem := None;
      previousItem := None;
      var i := 0;
      while i < |Functions|
        invariant 0 <= i <= |Functions|
        invariant previousItem == selectedItem
        invariant selectedItem == (if TargetIndex(initial) < i then Some(TargetIndex(initial)) else None)
      {
        if IsTargetedTo(Functions[i], initial) {
          selectedItem := Some(i);
          previousItem := Some(i);
        }
        i := i + 1;
      }
      configureButtonEnabled := IsConfigurable(Functions[selectedItem.value]);
      comboDisabled := task.updatedFromTimesheets;
      configureButtonEnabled := !(!configureButtonEnabled || task.updatedFromTimesheets);
    }

    /**
     * `onSelectListbox`, after the user picked item `chosen`. Sigmoid is
     * refused while the allocation has consolidated assignments, and a
     * declined confirmation also restores the previous item; otherwise the
     * pick becomes the previous item and its configuration is applied.
     */
    method OnSelect(chosen: nat, confirmed: bool, allEffort: nat, freshKind: StretchesFunctionType)
      returns (outcome: SelectOutcome)
      requires chosen < |Functions|
      modifies this`selectedItem, this`previousItem, this`configureButtonEnabled, allocation
      ensures outcome == CannotApplySigmoid <==> IsSigmoid(Functions[chosen]) && allocation.hasConsolidatedAssignments
      ensures outcome == Declined <==> !(IsSigmoid(Functions[chosen]) && allocation.hasConsolidatedAssignments) && !confirmed
      ensures outcome != Applied ==>
        && selectedItem == old(previousItem) && previousItem == old(previousItem)
        && configureButtonEnabled == old(configureButtonEnabled)
        && allocation.assignmentFunction == old(allocation.assignmentFunction)
        && allocation.requests == old(allocation.requests)
      ensures outcome == Applied ==>
        && selectedItem == Some(chosen) && previousItem == Some(chosen)
        && configureButtonEnabled == IsConfigurable(Functions[chosen])
        && allocation.assignmentFunction == Installed(Functions[chosen], freshKind)
        && |allocation.requests| > |old(allocation.requests)|
        && allocation.requests[..|old(allocation.requests)|] == old(allocation.requests)
    {
      selectedItem := Some(chosen);
      var config := Functions[chosen];
      if IsSigmoid(config) && allocation.hasConsolidatedAssignments {
        selectedItem := previousItem;
        return CannotApplySigmoid;
      }
      if !confirmed {
        selectedItem := previousItem;
        return Declined;
      }
      previousItem := selectedItem;
      ApplyOn(config, allocation, allEffort, freshKind);
      configureButtonEnabled := IsConfigurable(config);
      outcome := Applied;
    }

    /** `setSelectedFunction`: selects the item with that name, keeping the previous item. */
    method SetSelectedFunction(name: AssignmentFunctionName)
      modifies this`selectedItem
      ensures (exists i :: 0 <= i < |Functions| && Name(Functions[i]) == name) ==>
        selectedItem.Some? && selectedItem.value < |Functions| && Name(Functions[selectedItem.value]) == name
      ensures (forall i :: 0 <= i < |Functions| ==> Name(Functions[i]) != name) ==> selectedItem == old(selectedItem)
    {
      var i := 0;
      while i < |Functions|
        invariant 0 <= i <= |Functions|
        invariant (exists k :: 0 <= k < i && Name(Functions[k]) == name) ==>
          selectedItem.Some? && selectedItem.value < i && Name(Functions[selectedItem.value]) == name
        invariant (forall k :: 0 <= k < i ==> Name(Functions[k]) != name) ==> selectedItem == old(selectedItem)
      {
        if Name(Functions[i]) == name {
          selectedItem := Some(i);
        }
        i := i + 1;
      }
    }

    /** `changeAssignmentFunctionToManual`, as written: the previous item is not updated. */
    method ChangeAssignmentFunctionToManual()
      modifies this`selectedItem, allocation
      ensures selectedItem == Some(ManualIndex)
      ensures allocation.assignmentFunction == Manual
      ensures allocation.requests == old(allocation.requests)
        + (if old(allocation.assignmentFunction).Manual? then [] else [SetFunctionAndApplyIfNotFlat(Manual)])
    {
      assert Name(Functions[ManualIndex]) == MANUAL;
      SetSelectedFunction(MANUAL);
      if selectedItem.value != ManualIndex {
        NamesAreDistinct(selectedItem.value, ManualIndex);
      }
      if !allocation.assignmentFunction.Manual? {
        allocation.SetAssignmentFunctionAndApplyIfNotFlat(Manual);
      }
    }

    /**
     * The change listener of an editable cell: the cell's days are clamped
     * by the restriction, the function becomes manual, and the new effort is
     * allocated over the clamped days.
     */
    method OnCellChange(item: DetailItem, value: nat)
      requires !CannotBeEdited(level, task, item)
      modifies this`selectedItem, allocation
      ensures selectedItem == Some(ManualIndex) && allocation.assignmentFunction == Manual
      ensures allocation.requests == old(allocation.requests)
        + (if old(allocation.assignmentFunction).Manual? then [] else [SetFunctionAndApplyIfNotFlat(Manual)])
        + [Request.AllocateOnInterval(LimitStartDate(restriction, item.startDate), LimitEndDate(restriction, item.endDate), value),
           Request.RefreshEfforts]
    {
      var startDate := LimitStartDate(restriction, item.startDate);
      var endDate := LimitEndDate(restriction, item.endDate);
      ChangeAssignmentFunctionToManual();
      allocation.AllocateOnInterval(startDate, endDate, value);
      allocation.RefreshEfforts();
    }

    /** `changeAssignmentFunctionToManual` keeping the listbox consistent: manual is also saved as the previous item. */
    method ChangeAssignmentFunctionToManualIntended()
      modifies this`selectedItem, this`previousItem, allocation
      ensures selectedItem == Some(ManualIndex) && previousItem == Some(ManualIndex)
      ensures allocation.assignmentFunction == Manual
      ensures allocation.requests == old(allocation.requests)
        + (if old(allocation.assignmentFunction).Manual? then [] else [SetFunctionAndApplyIfNotFlat(Manual)])
      ensures ComboShowsFunction()
    {
      ChangeAssignmentFunctionToManual();
      previousItem := selectedItem;
    }

    /** The cell listener with the consistent switch to manual: the listbox keeps showing the function. */
    method OnCellChangeIntended(item: DetailItem, value: nat)
      requires !CannotBeEdited(level, task, item)
      modifies this`selectedItem, this`previousItem, allocation
      ensures ComboShowsFunction()
      ensures allocation.requests == old(allocation.requests)
        + (if old(allocation.assignmentFunction).Manual? then [] else [SetFunctionAndApplyIfNotFlat(Manual)])
        + [Request.AllocateOnInterval(LimitStartDate(restriction, item.startDate), LimitEndDate(restriction, item.endDate), value),
           Request.RefreshEfforts]
    {
      var startDate := LimitStartDate(restriction, item.startDate);
      var endDate := LimitEndDate(restriction, item.endDate);
      ChangeAssignmentFunctionToManualIntended();
      allocation.AllocateOnInterval(startDate, endDate, value);
      allocation.RefreshEfforts();
    }

    /**
     * The change listener of the total-effort box: the effort is allocated
     * over the allocation's dates and its function, if any, applied again.
     */
    method OnTotalEffortChange(value: nat)
      requires !IsEffortDurationBoxDisabled()
      modifies allocation`requests
      ensures allocation.requests == old(allocation.requests)
        + [Request.AllocateOnInterval(allocation.startDate, allocation.endDate, value)]
        + (if allocation.assignmentFunction.Flat? then [] else [ApplyFunction(allocation.assignmentFunction)])
        + [Request.RefreshEfforts]
    {
      allocation.AllocateOnInterval(allocation.startDate, allocation.endDate, value);
      if !allocation.assignmentFunction.Flat? {
        allocation.ApplyAssignmentFunction();
      }
      allocation.RefreshEfforts();
    }

    /** The configure button: opens the selected configuration's window. */
    method OnConfigure(exitOk: bool, edited: AssignmentFunction) returns (supported: bool)
      requires selectedItem.Some? && selectedItem.value < |Functions|
      modifies allocation
      ensures supported == IsConfigurable(Functions[selectedItem.value])
      ensures supported && exitOk ==> allocation.assignmentFunction == edited
      ensures !(supported && exitOk) ==>
        allocation.assignmentFunction == old(allocation.assignmentFunction) && allocation.requests == old(allocation.requests)
    {
      supported := GoToConfigure(Functions[selectedItem.value], allocation, exitOk, edited);
    }
  }

  /**
   * With the listbox consistent, a refused selection keeps it consistent,
   * and a completed one does exactly when the new function's type is the
   * chosen configuration's own (or the configuration is not a stretches one).
   */
  method SelectKeepsComboConsistent(row: Row, chosen: nat, confirmed: bool, allEffort: nat, freshKind: StretchesFunctionType)
    returns (outcome: SelectOutcome)
    requires chosen < |Functions| && row.ComboShowsFunction()
    modifies row`selectedItem, row`previousItem, row`configureButtonEnabled, row.allocation
    ensures outcome != Applied ==> row.ComboShowsFunction()
    ensures outcome == Applied ==>
      (row.ComboShowsFunction() <==> (Functions[chosen].StretchesConfiguration? ==> Functions[chosen].kind == freshKind))
  {
    outcome := row.OnSelect(chosen, confirmed, allEffort, freshKind);
    if outcome == Applied {
      AppliedConfigurationTargetsInstalled(Functions[chosen], freshKind);
    }
  }

  /**
   * A selection whose new stretches function reports the configuration's
   * own type always keeps the listbox consistent.
   */
  method SelectIntendedKeepsComboConsistent(row: Row, chosen: nat, confirmed: bool, allEffort: nat, fallback: StretchesFunctionType)
    returns (outcome: SelectOutcome)
    requires chosen < |Functions| && row.ComboShowsFunction()
    modifies row`selectedItem, row`previousItem, row`configureButtonEnabled, row.allocation
    ensures row.ComboShowsFunction()
  {
    outcome := row.OnSelect(chosen, confirmed, allEffort, IntendedKind(Functions[chosen], fallback));
    if outcome == Applied {
      IntendedInstallIsTargeted(chosen, fallback);
    }
  }

  /**
   * As written, whatever type the new stretches function reports, choosing
   * the other stretches item shows that item while the allocation's
   * function is targeted by a different one.
   */
  method StretchesItemMissesInstalledFunction(freshKind: StretchesFunctionType)
    returns (chosen: nat, shown: Option<nat>, installed: AssignmentFunction)
    ensures chosen < |Functions| && Functions[chosen].StretchesConfiguration?
    ensures shown == Some(chosen) && installed == Stretches(freshKind)
    ensures shown != Some(TargetIndex(installed))
  {
    var allocation := new ResourceAllocation(0, 10, false, Flat);
    var task := TaskInfo(IntraDayDate(0, 0), IntraDayDate(10, 0), None, false);
    var row := new Row(1, false, task, NoRestriction, allocation);
    row.InitializeAssignmentFunctionsCombo();
    chosen := if freshKind == STRETCHES then 3 else 2;
    var outcome := row.OnSelect(chosen, true, 8, freshKind);
    shown := row.selectedItem;
    installed := allocation.assignmentFunction;
  }

  /**
   * As written, editing a cell of a flat allocation shows MANUAL but keeps
   * FLAT as the previous item; declining a later change of function then
   * shows FLAT while the allocation's function is manual.
   */
  method StalePreviousItemAfterCellEdit() returns (shown: Option<nat>, installed: AssignmentFunction)
    ensures shown == Some(TargetIndex(Flat)) && installed == Manual
    ensures shown != Some(TargetIndex(installed))
  {
    var allocation := new ResourceAllocation(0, 10, false, Flat);
    var task := TaskInfo(IntraDayDate(0, 0), IntraDayDate(10, 0), None, false);
    var row := new Row(1, false, task, NoRestriction, allocation);
    row.InitializeAssignmentFunctionsCombo();
    row.OnCellChange(DetailItem(2, 3), 8);
    var outcome := row.OnSelect(4, false, 8, STRETCHES);
    shown := row.selectedItem;
    installed := allocation.assignmentFunction;
  }
}
