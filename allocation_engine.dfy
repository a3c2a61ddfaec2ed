/**
 * The part of the allocation engine the advanced-allocation window drives.
 * The engine's internals are not part of this model: a resource allocation
 * keeps its assignment function, its dates, whether it has consolidated
 * assignments, and the sequence of requests the window has made of it.
 */
module AllocationEngine {

  datatype StretchesFunctionType = STRETCHES | INTERPOLATED

  /** The assignment function of an allocation; `Flat` stands for none (null). */
  datatype AssignmentFunction =
    | Flat
    | Manual
    | Stretches(kind: StretchesFunctionType)
    | Sigmoid

  /** A request the window makes of the engine, or a refresh of the row's effort cells. */
  datatype Request =
    | SetFunctionAndApplyIfNotFlat(installed: AssignmentFunction)
    | SetFunctionWithoutApply(installed: AssignmentFunction)
    | AllocateOnInterval(start: int, end: int, effort: nat)
    | ApplyFunction(installed: AssignmentFunction)
    | RefreshEfforts

  class ResourceAllocation {
    const startDate: int
    const endDate: int
    /** Whether `getConsolidatedAssignments()` is non-empty. */
    const hasConsolidatedAssignments: bool
    var assignmentFunction: AssignmentFunction
    var requests: seq<Request>

    constructor (start: int, end: int, consolidated: bool, installed: AssignmentFunction)
      ensures startDate == start && endDate == end && hasConsolidatedAssignments == consolidated
      ensures assignmentFunction == installed && requests == []
    {
      startDate := start;
      endDate := end;
      hasConsolidatedAssignments := consolidated;
      assignmentFunction := installed;
      requests := [];
    }

    /** `setAssignmentFunctionAndApplyIfNotFlat`. */
    method SetAssignmentFunctionAndApplyIfNotFlat(installed: AssignmentFunction)
      modifies this
      ensures assignmentFunction == installed
      ensures requests == old(requests) + [SetFunctionAndApplyIfNotFlat(installed)]
    {
      assignmentFunction := installed;
      requests := requests + [SetFunctionAndApplyIfNotFlat(installed)];
    }

    /** `setAssignmentFunctionWithoutApply`. */
    method SetAssignmentFunctionWithoutApply(installed: AssignmentFunction)
      modifies this
      ensures assignmentFunction == installed
      ensures requests == old(requests) + [SetFunctionWithoutApply(installed)]
    {
      assignmentFunction := installed;
      requests := requests + [SetFunctionWithoutApply(installed)];
    }

    /** `withPreviousAssociatedResources().onIntervalWithinTask(start, end).allocate(effort)`. */
    method AllocateOnInterval(start: int, end: int, effort: nat)
      modifies this`requests
      ensures requests == old(requests) + [Request.AllocateOnInterval(start, end, effort)]
    {
      requests := requests + [Request.AllocateOnInterval(start, end, effort)];
    }

    /** `assignmentFunction.applyTo(allocation)`. */
    method ApplyAssignmentFunction()
      modifies this`requests
      ensures requests == old(requests) + [ApplyFunction(assignmentFunction)]
    {
      requests := requests + [ApplyFunction(assignmentFunction)];
    }

    /** The row reloads its effort cells and notifies its listeners. */
    method RefreshEfforts()
      modifies this`requests
      ensures requests == old(requests) + [Request.RefreshEfforts]
    {
      requests := requests + [Request.RefreshEfforts];
    }
  }
}
