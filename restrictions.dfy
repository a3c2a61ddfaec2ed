/**
 * The editing restriction of the advanced-allocation window
 * (`AdvancedAllocationController.Restriction` and its two variants).
 * Dates are whole days; a detail item is the day range one cell covers.
 */
module Restrictions {
  import opened Collections

  /** What the allocation computes, and so what the user may not change. */
  datatype CalculatedValue = NUMBER_OF_HOURS | END_DATE | RESOURCES_PER_DAY

  datatype Restriction =
    | NoRestriction
    | OnlyOnInterval(start: int, end: int)

  /** A cell of the time tracker: the instants from `startDate` up to, not including, `endDate`. */
  datatype DetailItem = DetailItem(startDate: int, endDate: int)

  datatype RestrictionError =
    | NullCalculatedValue   // switching on a null enum value throws
    | InvalidInterval       // a Joda interval whose end is before its start

  /**
   * `Restriction.build`: only an allocation that computes the number of hours
   * is kept inside the [start, end] window of its source.
   */
  function Build(calculated: Option<CalculatedValue>, start: int, end: int): (r: Result<Restriction, RestrictionError>)
    ensures r.Ok? <==> calculated.Some?
    ensures r.Ok? ==> (r.value.OnlyOnInterval? <==> calculated.value == NUMBER_OF_HOURS)
    ensures r.Ok? && r.value.OnlyOnInterval? ==> r.value.start == start && r.value.end == end
  {
    match calculated
    case None => Err(NullCalculatedValue)
    case Some(END_DATE) => Ok(NoRestriction)
    case Some(NUMBER_OF_HOURS) => Ok(OnlyOnInterval(start, end))
    case Some(RESOURCES_PER_DAY) => Ok(NoRestriction)
  }

  /** `limitStartDate`: a start date is moved forward to the window's start. */
  function LimitStartDate(r: Restriction, argStart: int): (d: int)
    ensures r.NoRestriction? ==> d == argStart
    ensures r.OnlyOnInterval? ==> d >= r.start && d >= argStart && (d == r.start || d == argStart)
  {
    match r
    case NoRestriction => argStart
    case OnlyOnInterval(start, _) => if start > argStart then start else argStart
  }

  /** `limitEndDate`: an end date is moved back to the window's end. */
  function LimitEndDate(r: Restriction, argEnd: int): (d: int)
    ensures r.NoRestriction? ==> d == argEnd
    ensures r.OnlyOnInterval? ==> d <= r.end && d <= argEnd && (d == r.end || d == argEnd)
  {
    match r
    case NoRestriction => argEnd
    case OnlyOnInterval(_, end) => if end < argEnd then end else argEnd
  }

  /** Joda's `Interval.overlaps` on two well-formed half-open intervals. */
  predicate Overlaps(start1: int, end1: int, start2: int, end2: int) {
    start1 < end2 && start2 < end1
  }

  /** Day `t` lies in the half-open interval [start, end). */
  predicate Contains(start: int, end: int, t: int) {
    start <= t < end
  }

  /**
   * `isDisabledEditionOn`: a cell is read-only when it lies wholly outside
   * the allowed window. Building either Joda interval fails when its end
   * comes before its start.
   */
  function IsDisabledEditionOn(r: Restriction, item: DetailItem): (res: Result<bool, RestrictionError>)
    ensures r.NoRestriction? ==> res == Ok(false)
    ensures r.OnlyOnInterval? ==>
      (res.Err? <==> r.end < r.start || item.endDate < item.startDate)
    ensures r.OnlyOnInterval? && res.Ok? ==>
      (res.value <==> r.end <= item.startDate || item.endDate <= r.start)
  {
    match r
    case NoRestriction => Ok(false)
    case OnlyOnInterval(start, end) =>
      if end < start || item.endDate < item.startDate then Err(InvalidInterval)
      else Ok(!Overlaps(start, end, item.startDate, item.endDate))
  }

  /** `isInvalidTotalEffort`: neither variant ever rejects a total effort. */
  function IsInvalidTotalEffort(r: Restriction, totalEffort: nat): (invalid: bool)
    ensures !invalid
  {
    false
  }

  /** Limiting twice is limiting once. */
  lemma LimitsAreIdempotent(r: Restriction, d: int)
    ensures LimitStartDate(r, LimitStartDate(r, d)) == LimitStartDate(r, d)
    ensures LimitEndDate(r, LimitEndDate(r, d)) == LimitEndDate(r, d)
  {
  }

  /**
   * For non-empty intervals, Joda's overlap test agrees with "some day lies
   * in both": a cell is disabled exactly when no day of it is allowed.
   */
  lemma {:induction false} DisabledIffNoCommonDay(start: int, end: int, item: DetailItem)
    requires start < end && item.startDate < item.endDate
    ensures IsDisabledEditionOn(OnlyOnInterval(start, end), item)
         == Ok(forall t :: Contains(start, end, t) ==> !Contains(item.startDate, item.endDate, t))
  {
    if Overlaps(start, end, item.startDate, item.endDate) {
      var t := if start < item.startDate then item.startDate else start;
      assert Contains(start, end, t) && Contains(item.startDate, item.endDate, t);
    }
  }

  /**
   * An empty allowed window (start == end) strictly inside a cell still
   * overlaps it under Joda's rule, so that cell stays editable.
   */
  lemma EmptyWindowInsideCellIsEditable()
    ensures IsDisabledEditionOn(OnlyOnInterval(5, 5), DetailItem(3, 8)) == Ok(false)
  {
  }

  /** The dates an edited cell allocates on never leave the allowed window. */
  lemma LimitedCellStaysInWindow(start: int, end: int, item: DetailItem)
    ensures start <= LimitStartDate(OnlyOnInterval(start, end), item.startDate)
    ensures LimitEndDate(OnlyOnInterval(start, end), item.endDate) <= end
    ensures item.startDate <= LimitStartDate(OnlyOnInterval(start, end), item.startDate)
    ensures LimitEndDate(OnlyOnInterval(start, end), item.endDate) <= item.endDate
  {
  }
}
