/**
 * The assignment-function configurations a row of the advanced-allocation
 * window offers (`IAssignmentFunctionConfiguration`): flat and manual and
 * sigmoid ones in `Row`, and the two kinds of `StrechesFunctionConfiguration`.
 */
module FunctionConfigurations {
  import opened AllocationEngine

  datatype Configuration =
    | FlatConfiguration
    | ManualConfiguration
    | StretchesConfiguration(kind: StretchesFunctionType)
    | SigmoidConfiguration

  /** `AssignmentFunctionName`, the names the listbox items carry. */
  datatype AssignmentFunctionName = FLAT | MANUAL | STRETCHES_NAME | INTERPOLATION | SIGMOID

  /** The `functions` array of `Row`, in listbox order. */
  const Functions: seq<Configuration> := [
    FlatConfiguration,
    ManualConfiguration,
    StretchesConfiguration(STRETCHES),
    StretchesConfiguration(INTERPOLATED),
    SigmoidConfiguration
  ]

  const ManualIndex: nat := 1

  function Name(c: Configuration): AssignmentFunctionName {
    match c
    case FlatConfiguration => FLAT
    case ManualConfiguration => MANUAL
    case StretchesConfiguration(STRETCHES) => STRETCHES_NAME
    case StretchesConfiguration(INTERPOLATED) => INTERPOLATION
    case SigmoidConfiguration => SIGMOID
  }

  /**
   * `isTargetedTo`: flat targets the missing function, manual and sigmoid
   * their classes, a stretches configuration a stretches function of its
   * own type.
   */
  predicate IsTargetedTo(c: Configuration, f: AssignmentFunction) {
    match c
    case FlatConfiguration => f.Flat?
    case ManualConfiguration => f.Manual?
    case StretchesConfiguration(kind) => f.Stretches? && f.kind == kind
    case SigmoidConfiguration => f.Sigmoid?
  }

  predicate IsSigmoid(c: Configuration) {
    c.SigmoidConfiguration?
  }

  /** Only the stretches configurations open a configuration window. */
  predicate IsConfigurable(c: Configuration) {
    c.StretchesConfiguration?
  }

  /** The listbox item that targets `f`: there is exactly one for every function. */
  function TargetIndex(f: AssignmentFunction): (i: nat)
    ensures i < |Functions| && IsTargetedTo(Functions[i], f)
    ensures forall j :: 0 <= j < |Functions| && IsTargetedTo(Functions[j], f) ==> j == i
  {
    match f
    case Flat => 0
    case Manual => 1
    case Stretches(STRETCHES) => 2
    case Stretches(INTERPOLATED) => 3
    case Sigmoid => 4
  }

  /** Listbox items carry distinct names. */
  lemma NamesAreDistinct(i: nat, j: nat)
    requires i < |Functions| && j < |Functions| && Name(Functions[i]) == Name(Functions[j])
    ensures i == j
  {
  }

  /** The function `applyOn` installs; a new stretches function reports `freshKind`. */
  function Installed(c: Configuration, freshKind: StretchesFunctionType): AssignmentFunction {
    match c
    case FlatConfiguration => Flat
    case ManualConfiguration => Manual
    case StretchesConfiguration(_) => Stretches(freshKind)
    case SigmoidConfiguration => Sigmoid
  }

  /**
   * After `applyOn`, the flags agree with what was installed, and the
   * configuration applied targets the new function exactly when it is not
   * a stretches configuration of a type other than the new function's.
   */
  lemma AppliedConfigurationTargetsInstalled(c: Configuration, freshKind: StretchesFunctionType)
    ensures IsTargetedTo(c, Installed(c, freshKind)) <==> (c.StretchesConfiguration? ==> c.kind == freshKind)
    ensures IsSigmoid(c) <==> Installed(c, freshKind).Sigmoid?
    ensures IsConfigurable(c) <==> Installed(c, freshKind).Stretches?
  {
  }

  /**
   * Both stretches configurations install the same new function, so
   * whatever type it reports, one of the two listbox items does not target
   * what it installed.
   */
  lemma OneStretchesItemMissesFreshFunction(freshKind: StretchesFunctionType)
    ensures exists i :: 0 <= i < |Functions| && TargetIndex(Installed(Functions[i], freshKind)) != i
  {
    var i := if freshKind == STRETCHES then 3 else 2;
    assert TargetIndex(Installed(Functions[i], freshKind)) != i;
  }

  /**
   * The type of new stretches function `applyOn` evidently means to
   * install: the configuration's own (`fallback` for the others, where
   * the type plays no part).
   */
  function IntendedKind(c: Configuration, fallback: StretchesFunctionType): (kind: StretchesFunctionType)
    ensures IsTargetedTo(c, Installed(c, kind))
    ensures !c.StretchesConfiguration? ==> kind == fallback
  {
    if c.StretchesConfiguration? then c.kind else fallback
  }

  /** With the intended type, every listbox item targets what it installs. */
  lemma {:induction false} IntendedInstallIsTargeted(i: nat, fallback: StretchesFunctionType)
    requires i < |Functions|
    ensures TargetIndex(Installed(Functions[i], IntendedKind(Functions[i], fallback))) == i
  {
    var f := Installed(Functions[i], IntendedKind(Functions[i], fallback));
    assert IsTargetedTo(Functions[i], f);
  }

  /**
   * `applyOn` on `allocation`. The flat configuration drops the function
   * and reallocates the row's total effort over the allocation's dates; the
   * others install a new function through the engine; all but manual then
   * refresh the row's efforts.
   */
  method ApplyOn(c: Configuration, allocation: ResourceAllocation, allEffort: nat, freshKind: StretchesFunctionType)
    modifies allocation
    ensures allocation.assignmentFunction == Installed(c, freshKind)
    ensures allocation.requests == old(allocation.requests) + (
      match c
      case FlatConfiguration => [SetFunctionWithoutApply(Flat),
                                 Request.AllocateOnInterval(allocation.startDate, allocation.endDate, allEffort),
                                 Request.RefreshEfforts]
      case ManualConfiguration => [SetFunctionAndApplyIfNotFlat(Manual)]
      case StretchesConfiguration(_) => [SetFunctionAndApplyIfNotFlat(Stretches(freshKind)), Request.RefreshEfforts]
      case SigmoidConfiguration => [SetFunctionAndApplyIfNotFlat(Sigmoid), Request.RefreshEfforts])
  {
    match c
    case FlatConfiguration =>
      allocation.SetAssignmentFunctionWithoutApply(Flat);
      allocation.AllocateOnInterval(allocation.startDate, allocation.endDate, allEffort);
      allocation.RefreshEfforts();
    case ManualConfiguration =>
      allocation.SetAssignmentFunctionAndApplyIfNotFlat(Manual);
    case StretchesConfiguration(_) =>
      allocation.SetAssignmentFunctionAndApplyIfNotFlat(Stretches(freshKind));
      allocation.RefreshEfforts();
    case SigmoidConfiguration =>
      allocation.SetAssignmentFunctionAndApplyIfNotFlat(Sigmoid);
      allocation.RefreshEfforts();
  }

  /**
   * `goToConfigure`. Only stretches configurations support it (the others
   * throw); the function edited in the window is installed, and the row
   * refreshed, only when the window is closed with OK.
   */
  method GoToConfigure(c: Configuration, allocation: ResourceAllocation, exitOk: bool, edited: AssignmentFunction)
    returns (supported: bool)
    modifies allocation
    ensures supported == IsConfigurable(c)
    ensures supported && exitOk ==>
      && allocation.assignmentFunction == edited
      && allocation.requests == old(allocation.requests) + [SetFunctionAndApplyIfNotFlat(edited), Request.RefreshEfforts]
    ensures !(supported && exitOk) ==>
      allocation.assignmentFunction == old(allocation.assignmentFunction) && allocation.requests == old(allocation.requests)
  {
    supported := IsConfigurable(c);
    if supported && exitOk {
      allocation.SetAssignmentFunctionAndApplyIfNotFlat(edited);
      allocation.RefreshEfforts();
    }
  }
}
