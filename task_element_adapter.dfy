/**
 * How a planned task element is shown on the Gantt diagram
 * (`TaskElementAdapter`): the date constraints its position imposes, the
 * position of an instant inside its day, the mapping of dependency types,
 * and the labels and resources texts.
 */
module TaskElementAdapter {
  import opened Collections
  import opened Numbers

  datatype PositionConstraintType =
    | AS_SOON_AS_POSSIBLE
    | START_NOT_EARLIER_THAN
    | START_IN_FIXED_DATE
    | AS_LATE_AS_POSSIBLE
    | FINISH_NOT_LATER_THAN

  /** `TaskPositionConstraint`: its type and its date, which may be missing. */
  datatype PositionConstraint = PositionConstraint(constraintType: PositionConstraintType, constraintDate: Option<int>)

  /** A Gantt date constraint; `toGantt` keeps a missing date missing. */
  datatype Constraint =
    | BiggerOrEqualThan(date: Option<int>)
    | EqualTo(date: Option<int>)
    | LessOrEqualThan(date: Option<int>)

  /**
   * `getStartConstraintsFor`. `position` is the element's position
   * constraint when it is an `ITaskPositionConstrained`.
   */
  function StartConstraintsFor(position: Option<PositionConstraint>, orderInitDate: Option<int>): (r: seq<Constraint>)
    ensures |r| <= 1
    ensures forall c :: c in r ==> !c.LessOrEqualThan?
    ensures r != [] ==> position.Some? && position.value.constraintType in {AS_SOON_AS_POSSIBLE, START_IN_FIXED_DATE, START_NOT_EARLIER_THAN}
  {
    if position.None? then []
    else
      match position.value.constraintType
      case AS_SOON_AS_POSSIBLE =>
        if orderInitDate.Some? then [BiggerOrEqualThan(orderInitDate)] else []
      case START_IN_FIXED_DATE => [EqualTo(position.value.constraintDate)]
      case START_NOT_EARLIER_THAN => [BiggerOrEqualThan(position.value.constraintDate)]
      case _ => []
  }

  /**
   * `getEndConstraintsFor`. `AS_LATE_AS_POSSIBLE` without a deadline falls
   * through to the `FINISH_NOT_LATER_THAN` case.
   */
  function EndConstraintsFor(position: Option<PositionConstraint>, deadline: Option<int>): (r: seq<Constraint>)
    ensures |r| <= 1
    ensures forall c :: c in r ==> c.LessOrEqualThan?
    ensures r != [] ==> position.Some? && position.value.constraintType in {AS_LATE_AS_POSSIBLE, FINISH_NOT_LATER_THAN}
  {
    if position.None? then []
    else
      match position.value.constraintType
      case AS_LATE_AS_POSSIBLE =>
        if deadline.Some? then [LessOrEqualThan(deadline)]
        else [LessOrEqualThan(position.value.constraintDate)]
      case FINISH_NOT_LATER_THAN => [LessOrEqualThan(position.value.constraintDate)]
      case _ => []
  }

  /** A position constraint bounds the start or the end of the element, never both. */
  lemma ConstraintsBoundOneSide(position: Option<PositionConstraint>, initDate: Option<int>, deadline: Option<int>)
    ensures StartConstraintsFor(position, initDate) == [] || EndConstraintsFor(position, deadline) == []
  {
  }

  /**
   * Without a deadline, "as late as possible" behaves as "finish not later
   * than" its own date; with one, the deadline bounds the end.
   */
  lemma {:induction false} AsLateAsPossibleFallsThrough(date: Option<int>, deadline: Option<int>)
    ensures deadline.None? ==>
      EndConstraintsFor(Some(PositionConstraint(AS_LATE_AS_POSSIBLE, date)), deadline)
      == EndConstraintsFor(Some(PositionConstraint(FINISH_NOT_LATER_THAN, date)), deadline)
      == [LessOrEqualThan(date)]
    ensures deadline.Some? ==>
      EndConstraintsFor(Some(PositionConstraint(AS_LATE_AS_POSSIBLE, date)), deadline) == [LessOrEqualThan(deadline)]
  {
  }

  /** "As soon as possible" constrains the start only when the order has an init date. */
  lemma AsSoonAsPossibleNeedsInitDate(date: Option<int>, initDate: Option<int>)
    ensures StartConstraintsFor(Some(PositionConstraint(AS_SOON_AS_POSSIBLE, date)), initDate) != [] <==> initDate.Some?
  {
  }

  // ---------------------------------------------------------------------
  // The position of an instant inside its day (`GanttDateAdapter`)
  // ---------------------------------------------------------------------

  /** Milliseconds in a day. */
  const DAY_MILLISECONDS: int := 86_400_000

  /** A commons-lang `Fraction`. */
  datatype Fraction = Fraction(numerator: int, denominator: int)

  /**
   * Greatest common divisor, by Euclid's algorithm: a common divisor that
   * every common divisor divides, so none is larger.
   */
  function Gcd(a: nat, b: nat): (g: nat)
    requires a > 0 || b > 0
    ensures g > 0 && a % g == 0 && b % g == 0
    ensures forall e :: CommonDivisor(e, a, b) ==> g % e == 0 && e <= g
    decreases b
  {
    if b == 0 then a
    else
      var g := Gcd(b, a % b);
      DividesRemainderAndDivisor(a, b, g);
      CommonDivisorsDivideRemainder(a, b);
      g
  }

  /** `e` divides both `a` and `b`. */
  predicate CommonDivisor(e: int, a: nat, b: nat) {
    e > 0 && a % e == 0 && b % e == 0
  }

  lemma CommonDivisorsDivideRemainder(a: nat, b: nat)
    requires b > 0
    ensures forall e :: CommonDivisor(e, a, b) ==> CommonDivisor(e, b, a % b)
  {
    forall e | CommonDivisor(e, a, b)
      ensures CommonDivisor(e, b, a % b)
    {
      var ka, kb := a / e, b / e;
      ExactDivision(a, e);
      ExactDivision(b, e);
      assert a % b == a - (a / b) * b;
      assert a % b == e * (ka - (a / b) * kb);
      MultipleHasNoRemainder(e, ka - (a / b) * kb);
    }
  }

  lemma DividesRemainderAndDivisor(a: nat, b: nat, g: nat)
    requires b > 0 && g > 0 && b % g == 0 && (a % b) % g == 0
    ensures a % g == 0
  {
    var k1 := b / g;
    var k2 := (a % b) / g;
    assert b == g * k1;
    assert a % b == g * k2;
    assert a == (a / b) * b + a % b;
    assert a == g * ((a / b) * k1 + k2);
    MultipleHasNoRemainder(g, (a / b) * k1 + k2);
  }

  lemma MultipleHasNoRemainder(g: nat, m: int)
    requires g > 0
    ensures (g * m) % g == 0
  {
    DivisionIsUnique(g * m, g, m, 0);
  }

  /** The quotient and remainder of a division are the only ones. */
  lemma DivisionIsUnique(a: int, b: int, q: int, r: int)
    requires b > 0 && 0 <= r < b && a == q * b + r
    ensures a / b == q && a % b == r
  {
    var q', r' := a / b, a % b;
    assert a == q' * b + r';
    assert (q - q') * b == r' - r;
    SmallMultipleIsZero(q - q', b);
  }

  lemma SmallMultipleIsZero(k: int, b: int)
    requires b > 0 && -b < k * b < b
    ensures k == 0
  {
    if k > 0 {
      MultipleAtLeast(k, b);
      assert false;
    } else if k < 0 {
      assert false;
    }
  }

  lemma {:induction false} MultipleAtLeast(k: nat, b: nat)
    requires k >= 1
    ensures k * b >= b
    decreases k
  {
    if k > 1 {
      MultipleAtLeast(k - 1, b);
      assert k * b == (k - 1) * b + b;
    }
  }

  /** Two equal non-negative ratios have the same integer part. */
  lemma EqualRatiosSameQuotient(a: int, b: int, c: int, d: int)
    requires a >= 0 && b > 0 && c >= 0 && d > 0 && a * d == c * b
    ensures a / b == c / d
  {
    var q, r := a / b, a % b;
    assert a == q * b + r;
    assert c * b == q * d * b + r * d;
    assert (c - q * d) * b == r * d;
    assert r * d < b * d;
    assert 0 <= (c - q * d) * b < d * b;
    DivisionIsUnique(c, d, q, c - q * d);
  }

  /**
   * `Fraction.getReducedFraction` for a non-negative numerator and a
   * positive denominator.
   */
  function Reduced(n: nat, d: nat): (f: Fraction)
    requires d > 0
    ensures f.denominator > 0 && f.numerator >= 0
    ensures f.numerator * d == n * f.denominator
    ensures Gcd(f.numerator, f.denominator) == 1
    ensures n == 0 ==> f == Fraction(0, 1)
  {
    var g := Gcd(n, d);
    QuotientsByGcd(n, d);
    Fraction(n / g, d / g)
  }

  /**
   * Dividing both numbers by their greatest common divisor keeps their
   * ratio and leaves no common divisor but 1.
   */
  lemma QuotientsByGcd(n: nat, d: nat)
    requires d > 0
    ensures d / Gcd(n, d) > 0
    ensures (n / Gcd(n, d)) * d == n * (d / Gcd(n, d))
    ensures Gcd(n / Gcd(n, d), d / Gcd(n, d)) == 1
  {
    var g := Gcd(n, d);
    var k1, k2 := n / g, d / g;
    ExactDivision(n, g);
    ExactDivision(d, g);
    assert k1 * d == n * k2 by {
      assert k1 * d == k1 * (g * k2) == (g * k1) * k2;
    }
    var e := Gcd(k1, k2);
    ScaledCommonDivisor(n, d, g, e);
    UnitFactor(g, e);
  }

  lemma UnitFactor(g: nat, e: nat)
    requires g > 0 && e > 0 && g * e <= g
    ensures e == 1
  {
    if e > 1 {
      assert g * e == g * (e - 1) + g;
      MultipleAtLeast(e - 1, g);
      assert false;
    }
  }

  /** A common divisor of the quotients by `g`, times `g`, divides both numbers. */
  lemma ScaledCommonDivisor(n: nat, d: nat, g: nat, e: nat)
    requires g > 0 && n % g == 0 && d % g == 0
    requires CommonDivisor(e, n / g, d / g)
    ensures CommonDivisor(g * e, n, d)
  {
    var k1, k2 := n / g, d / g;
    ExactDivision(n, g);
    ExactDivision(d, g);
    ExactDivision(k1, e);
    ExactDivision(k2, e);
    assert n == (g * e) * (k1 / e) by {
      assert n == g * (e * (k1 / e));
    }
    assert d == (g * e) * (k2 / e) by {
      assert d == g * (e * (k2 / e));
    }
    MultipleHasNoRemainder(g * e, k1 / e);
    MultipleHasNoRemainder(g * e, k2 / e);
  }

  /** An arithmetic overflow (`ArithmeticException`). */
  datatype Overflow = Overflow

  /**
   * The product `Fraction.multiplyBy` forms before reducing it: each
   * numerator is first divided by its greatest common divisor with the
   * other factor's denominator.
   */
  function CrossReduced(x: Fraction, y: Fraction): (p: Fraction)
    requires x.numerator > 0 && x.denominator > 0 && y.numerator > 0 && y.denominator > 0
    ensures p.numerator > 0 && p.denominator > 0
    ensures p.numerator * (x.denominator * y.denominator) == (x.numerator * y.numerator) * p.denominator
  {
    var d1 := Gcd(x.numerator, y.denominator);
    var d2 := Gcd(y.numerator, x.denominator);
    var a, b := x.numerator / d1, y.numerator / d2;
    var c, d := x.denominator / d2, y.denominator / d1;
    ExactDivision(x.numerator, d1);
    ExactDivision(y.numerator, d2);
    ExactDivision(x.denominator, d2);
    ExactDivision(y.denominator, d1);
    var p := Fraction(a * b, c * d);
    CrossReducedProduct(x, y, d1, d2, p);
    p
  }

  /**
   * `Fraction.multiplyBy` for non-negative fractions: zero when either
   * factor is zero; otherwise the cross-reduced product, which overflows
   * when its numerator or denominator does not fit in an `int`, and is
   * then reduced to lowest terms.
   */
  function MultiplyBy(x: Fraction, y: Fraction): (r: Result<Fraction, Overflow>)
    requires x.numerator >= 0 && x.denominator > 0 && y.numerator >= 0 && y.denominator > 0
    ensures r.Err? <==>
              && x.numerator > 0 && y.numerator > 0
              && (CrossReduced(x, y).numerator > INT_MAX || CrossReduced(x, y).denominator > INT_MAX)
    ensures r.Ok? ==> r.value.denominator > 0 && r.value.numerator >= 0
    ensures r.Ok? ==> r.value.numerator * (x.denominator * y.denominator)
                      == (x.numerator * y.numerator) * r.value.denominator
    ensures r.Ok? ==> Gcd(r.value.numerator, r.value.denominator) == 1
  {
    if x.numerator == 0 || y.numerator == 0 then Ok(Fraction(0, 1))
    else
      var p := CrossReduced(x, y);
      if p.numerator > INT_MAX || p.denominator > INT_MAX then Err(Overflow)
      else
        var f := Reduced(p.numerator, p.denominator);
        SameRatio(x, y, p, f);
        Ok(f)
  }

  /** A fraction equal to the cross-reduced product equals the product. */
  lemma SameRatio(x: Fraction, y: Fraction, p: Fraction, f: Fraction)
    requires x.denominator > 0 && y.denominator > 0 && p.numerator > 0 && p.denominator > 0
    requires p.numerator * (x.denominator * y.denominator) == (x.numerator * y.numerator) * p.denominator
    requires f.numerator * p.denominator == p.numerator * f.denominator
    ensures f.numerator * (x.denominator * y.denominator) == (x.numerator * y.numerator) * f.denominator
  {
    var m, n := x.denominator * y.denominator, x.numerator * y.numerator;
    assert (f.numerator * m) * p.denominator == (n * f.denominator) * p.denominator by {
      calc {
        (f.numerator * m) * p.denominator;
        (f.numerator * p.denominator) * m;
        (p.numerator * f.denominator) * m;
        (p.numerator * m) * f.denominator;
        (n * p.denominator) * f.denominator;
        (n * f.denominator) * p.denominator;
      }
    }
    CancelPositive(f.numerator * m, n * f.denominator, p.denominator);
  }

  lemma CancelPositive(u: int, v: int, k: int)
    requires k > 0 && u * k == v * k
    ensures u == v
  {
    assert (u - v) * k == 0;
  }

  lemma CrossReducedProduct(x: Fraction, y: Fraction, d1: nat, d2: nat, f: Fraction)
    requires x.numerator > 0 && x.denominator > 0 && y.numerator > 0 && y.denominator > 0
    requires d1 > 0 && x.numerator % d1 == 0 && y.denominator % d1 == 0
    requires d2 > 0 && y.numerator % d2 == 0 && x.denominator % d2 == 0
    requires f.numerator * ((x.denominator / d2) * (y.denominator / d1))
             == ((x.numerator / d1) * (y.numerator / d2)) * f.denominator
    ensures f.numerator * (x.denominator * y.denominator) == (x.numerator * y.numerator) * f.denominator
  {
    var a, b := x.numerator / d1, y.numerator / d2;
    var c, d := x.denominator / d2, y.denominator / d1;
    ExactDivision(x.numerator, d1);
    ExactDivision(y.denominator, d1);
    ExactDivision(y.numerator, d2);
    ExactDivision(x.denominator, d2);
    Regroup(d1, a, d2, b);
    Regroup(d2, c, d1, d);
    assert d2 * d1 == d1 * d2;
    ScaledCrossProduct(d1 * d2, f.numerator, c * d, a * b, f.denominator);
  }

  lemma ExactDivision(a: int, d: int)
    requires d > 0 && a % d == 0
    ensures a == d * (a / d)
  {
  }

  lemma Regroup(p: int, q: int, r: int, s: int)
    ensures (p * q) * (r * s) == (p * r) * (q * s)
  {
    calc {
      (p * q) * (r * s);
      p * (q * (r * s));
      p * (r * (q * s));
      (p * r) * (q * s);
    }
  }

  lemma ScaledCrossProduct(k: int, fn: int, m: int, n: int, fd: int)
    requires fn * m == n * fd
    ensures fn * (k * m) == (k * n) * fd
  {
    calc {
      fn * (k * m);
      k * (fn * m);
      k * (n * fd);
      (k * n) * fd;
    }
  }

  function Min(a: int, b: int): int {
    if a <= b then a else b
  }

  /**
   * `fractionOfWorkingDayFor`: the part of the working day an effort
   * covers, capped at one (`Collections.min` keeps the first of two equal
   * fractions).
   */
  function FractionOfWorkingDayFor(effortSeconds: nat, workingDaySeconds: nat): (f: Fraction)
    requires workingDaySeconds > 0
    ensures 0 <= f.numerator <= f.denominator
    ensures f.numerator * workingDaySeconds == Min(effortSeconds, workingDaySeconds) * f.denominator
  {
    if effortSeconds <= workingDaySeconds then Fraction(effortSeconds, workingDaySeconds)
    else Fraction(1, 1)
  }

  /**
   * `calculateDurationInDayFor` on its exact path: zero for a day without
   * capacity, otherwise the capped fraction of a day in milliseconds,
   * rounded down. `None` is the overflow that sends the source to its
   * floating-point fallback.
   */
  function CalculateDurationInDayFor(effortSeconds: nat, workingDaySeconds: nat): (r: Option<int>)
    requires effortSeconds <= INT_MAX && workingDaySeconds <= INT_MAX
    ensures workingDaySeconds == 0 ==> r == Some(0)
    ensures r.Some? ==> 0 <= r.value <= DAY_MILLISECONDS
    ensures r.Some? && workingDaySeconds > 0 ==>
      r.value == Min(effortSeconds, workingDaySeconds) * DAY_MILLISECONDS / workingDaySeconds
    ensures effortSeconds >= workingDaySeconds ==> r == Some(if workingDaySeconds == 0 then 0 else DAY_MILLISECONDS) || r.None?
  {
    if workingDaySeconds == 0 then Some(0)
    else
      var f := FractionOfWorkingDayFor(effortSeconds, workingDaySeconds);
      var day := Fraction(DAY_MILLISECONDS, 1);
      match MultiplyBy(f, day)
      case Err(_) => None
      case Ok(p) =>
        var e := Min(effortSeconds, workingDaySeconds);
        assert p.numerator * f.denominator == (f.numerator * DAY_MILLISECONDS) * p.denominator by {
          assert f.denominator * day.denominator == f.denominator;
        }
        EqualRatiosSameQuotient(p.numerator, p.denominator, f.numerator * DAY_MILLISECONDS, f.denominator);
        EqualRatiosSameQuotient(f.numerator * DAY_MILLISECONDS, f.denominator, e * DAY_MILLISECONDS, workingDaySeconds);
        DayFractionBounds(e, workingDaySeconds);
        Some(p.numerator / p.denominator)
  }

  lemma DayFractionBounds(e: nat, w: nat)
    requires 0 < w && e <= w
    ensures 0 <= e * DAY_MILLISECONDS / w <= DAY_MILLISECONDS
    ensures e == w ==> e * DAY_MILLISECONDS / w == DAY_MILLISECONDS
  {
    if e == w {
      DivisionIsUnique(e * DAY_MILLISECONDS, w, DAY_MILLISECONDS, 0);
    }
    var q := e * DAY_MILLISECONDS / w;
    assert q * w <= e * DAY_MILLISECONDS <= w * DAY_MILLISECONDS;
  }

  /**
   * The exact path does overflow: half a working day of 100 000 001
   * seconds cross-reduces to a numerator beyond `int`.
   */
  lemma ExactPathOverflows()
    ensures CalculateDurationInDayFor(50_000_000, 100_000_001) == None
  {
    var f := FractionOfWorkingDayFor(50_000_000, 100_000_001);
    assert Gcd(50_000_000, 1) == 1;
    var d2 := Gcd(DAY_MILLISECONDS, 100_000_001);
    assert 50_000_000 * (DAY_MILLISECONDS / d2) > INT_MAX by {
      assert DAY_MILLISECONDS / d2 >= 1;
    }
  }

  // ---------------------------------------------------------------------
  // Dependency types
  // ---------------------------------------------------------------------

  /** `Dependency.Type` of the planning domain. */
  datatype DomainType = DomainEndStart | DomainStartEnd | DomainStartStart | DomainEndEnd

  /** `DependencyType` of the Gantt component, which also has `VOID`. */
  datatype GanttType = GanttVoid | GanttEndStart | GanttStartEnd | GanttStartStart | GanttEndEnd

  /** "not supported yet". */
  datatype UnsupportedType = UnsupportedType(t: GanttType)

  function ToGanttType(t: DomainType): (g: GanttType)
    ensures g != GanttVoid
  {
    match t
    case DomainEndStart => GanttEndStart
    case DomainStartEnd => GanttStartEnd
    case DomainStartStart => GanttStartStart
    case DomainEndEnd => GanttEndEnd
  }

  function ToDomainType(g: GanttType): (r: Result<DomainType, UnsupportedType>)
    ensures r.Err? <==> g == GanttVoid
  {
    match g
    case GanttEndStart => Ok(DomainEndStart)
    case GanttStartEnd => Ok(DomainStartEnd)
    case GanttStartStart => Ok(DomainStartStart)
    case GanttEndEnd => Ok(DomainEndEnd)
    case GanttVoid => Err(UnsupportedType(g))
  }

  /** The two mappings are inverse bijections between the domain types and the non-void Gantt types. */
  lemma DependencyTypesRoundTrip(t: DomainType, g: GanttType)
    ensures ToDomainType(ToGanttType(t)) == Ok(t)
    ensures ToDomainType(g) == Ok(t) <==> g == ToGanttType(t)
  {
  }

  // ---------------------------------------------------------------------
  // Labels and resources texts
  // ---------------------------------------------------------------------

  /** A label: its identity and its name; distinct labels may share a name. */
  datatype Label = Label(id: nat, name: string)

  /**
   * `getLabelsFromElementAndPredecesors`: the labels of an order element
   * and of all its ancestors; `chain` holds their label sets, the element's
   * first.
   */
  function LabelsOfElementAndAncestors(chain: seq<set<Label>>): (labels: set<Label>)
    ensures forall k, l :: 0 <= k < |chain| && l in chain[k] ==> l in labels
    ensures forall l :: l in labels ==> exists k :: 0 <= k < |chain| && l in chain[k]
  {
    if chain == [] then {} else chain[0] + LabelsOfElementAndAncestors(chain[1..])
  }

  function Names(labels: seq<Label>): (names: seq<string>)
    ensures |names| == |labels| && forall i :: 0 <= i < |labels| ==> names[i] == labels[i].name
  {
    if labels == [] then [] else [labels[0].name] + Names(labels[1..])
  }

  /**
   * `buildLabelsText`. The label set is visited in `iteration`'s order,
   * which the hash set decides; `hasOrderElement` says whether the task
   * element belongs to an order element.
   */
  method BuildLabelsText(hasOrderElement: bool, chain: seq<set<Label>>, iteration: seq<Label>) returns (text: string)
    requires Elements(iteration) == LabelsOfElementAndAncestors(chain)
    ensures hasOrderElement ==> text == Join(SortedDistinct(Names(iteration)), ", ")
    ensures !hasOrderElement ==> text == ""
  {
    var result: seq<string> := [];
    if hasOrderElement {
      var i := 0;
      while i < |iteration|
        invariant 0 <= i <= |iteration|
        invariant result == AddAllIfAbsent([], Names(iteration)[..i])
      {
        var representation := iteration[i].name;
        AddAllIfAbsentStep([], Names(iteration), i);
        if representation !in result {
          result := result + [representation];
        }
        i := i + 1;
      }
      assert Names(iteration)[..i] == Names(iteration);
    }
    LexLeIsTotalPreorder();
    result := Sort(result, LexLe);
    text := Join(result, ", ");
  }

  function NamesOf(labels: set<Label>): set<string> {
    set l | l in labels :: l.name
  }

  /**
   * The labels text lists, in ascending order and once each, the names of
   * the labels of the element and its ancestors, whatever order the set is
   * visited in.
   */
  lemma LabelsTextItems(chain: seq<set<Label>>, iteration: seq<Label>, other: seq<Label>)
    requires Elements(iteration) == LabelsOfElementAndAncestors(chain)
    requires Elements(other) == LabelsOfElementAndAncestors(chain)
    ensures Elements(SortedDistinct(Names(iteration))) == NamesOf(LabelsOfElementAndAncestors(chain))
    ensures SortedDistinct(Names(iteration)) == SortedDistinct(Names(other))
  {
    NamesOfElements(iteration);
    NamesOfElements(other);
    SortedDistinctDependsOnElements(Names(iteration), Names(other));
  }

  lemma NamesOfElements(labels: seq<Label>)
    ensures Elements(Names(labels)) == NamesOf(Elements(labels))
  {
    forall n | n in NamesOf(Elements(labels)) ensures n in Elements(Names(labels)) {
      var l :| l in Elements(labels) && l.name == n;
      var i :| 0 <= i < |labels| && labels[i] == l;
      assert Names(labels)[i] == n;
    }
  }

  /** A satisfied resource allocation of the task element. */
  datatype Allocation =
    | Specific(resourceNames: seq<string>)
      /** A generic allocation, with its criteria names in the set's order. */
    | Generic(criteriaNames: seq<string>)

  const ALL_WORKERS: string := "All workers"

  /** `extractRepresentationForGeneric`: the criteria in brackets, or all workers. */
  function GenericRepresentation(criteriaNames: seq<string>): (r: string)
    ensures criteriaNames == [] ==> r == "[" + ALL_WORKERS + "]"
    ensures |r| >= 2 && r[0] == '[' && r[|r| - 1] == ']'
  {
    "[" + Join(if criteriaNames == [] then [ALL_WORKERS] else criteriaNames, ", ") + "]"
  }

  /** What one allocation contributes to the resources text, in visiting order. */
  function Representations(a: Allocation): seq<string> {
    match a
    case Specific(names) => names
    case Generic(criteria) => [GenericRepresentation(criteria)]
  }

  function AllRepresentations(allocations: seq<Allocation>): seq<string>
    ensures allocations != [] ==>
      AllRepresentations(allocations) ==
      AllRepresentations(allocations[..|allocations| - 1]) + Representations(allocations[|allocations| - 1])
  {
    if allocations == [] then []
    else
      var last := |allocations| - 1;
      AllRepresentations(allocations[..last]) + Representations(allocations[last])
  }

  /** The items of the resources text: the distinct representations, then the subcontractor, sorted. */
  function ResourcesItems(allocations: seq<Allocation>, subcontraction: Option<string>): (items: seq<string>)
    ensures SortedBy(items, LexLe)
    ensures Elements(items) == Elements(AllRepresentations(allocations))
                               + (if subcontraction.Some? then {subcontraction.value} else {})
    ensures subcontraction.None? ==> NoDuplicates(items)
  {
    var all := AddAllIfAbsent([], AllRepresentations(allocations))
               + (if subcontraction.Some? then [subcontraction.value] else []);
    UnsortedResourcesItems(allocations, subcontraction);
    SortKeepsElements(all);
    assert subcontraction.None? ==> NoDuplicates(SortStrings(all)) by {
      if subcontraction.None? {
        PermutationNoDuplicates(all, SortStrings(all));
      }
    }
    SortStrings(all)
  }

  lemma UnsortedResourcesItems(allocations: seq<Allocation>, subcontraction: Option<string>)
    ensures var all := AddAllIfAbsent([], AllRepresentations(allocations))
                       + (if subcontraction.Some? then [subcontraction.value] else []);
      && Elements(all) == Elements(AllRepresentations(allocations))
                          + (if subcontraction.Some? then {subcontraction.value} else {})
      && (subcontraction.None? ==> NoDuplicates(all))
  {
    AddAllIfAbsentContents([], AllRepresentations(allocations));
  }

  /** The contains-then-add loop over the resources of one specific allocation. */
  method AddEachIfAbsent(acc: seq<string>, names: seq<string>) returns (result: seq<string>)
    ensures result == AddAllIfAbsent(acc, names)
  {
    result := acc;
    var j := 0;
    while j < |names|
      invariant 0 <= j <= |names|
      invariant result == AddAllIfAbsent(acc, names[..j])
    {
      AddAllIfAbsentStep(acc, names, j);
      if names[j] !in result {
        result := result + [names[j]];
      }
      j := j + 1;
    }
    assert names[..j] == names;
  }

  /**
   * `buildResourcesText`: the names of the resources of specific
   * allocations and the representations of generic ones, each once, and the
   * subcontractor's name added without that check, sorted and joined.
   */
  method BuildResourcesText(allocations: seq<Allocation>, subcontraction: Option<string>) returns (text: string)
    ensures text == Join(ResourcesItems(allocations, subcontraction), "; ")
  {
    var result: seq<string> := [];
    var i := 0;
    while i < |allocations|
      invariant 0 <= i <= |allocations|
      invariant result == AddAllIfAbsent([], AllRepresentations(allocations[..i]))
    {
      assert allocations[..i + 1][..i] == allocations[..i];
      AddAllIfAbsentAppend([], AllRepresentations(allocations[..i]), Representations(allocations[i]));
      match allocations[i] {
      case Specific(names) =>
        result := AddEachIfAbsent(result, names);
      case Generic(criteria) =>
        var representation := GenericRepresentation(criteria);
        assert [representation][1..] == [];
        if representation !in result {
          result := result + [representation];
        }
      }
      i := i + 1;
    }
    assert allocations[..i] == allocations;
    ghost var distinct := result;
    if subcontraction.Some? {
      result := result + [subcontraction.value];
    }
    assert result == distinct + (if subcontraction.Some? then [subcontraction.value] else []);
    result := SortStrings(result);
    text := Join(result, "; ");
  }

  // ---------------------------------------------------------------------
  // The adapter
  // ---------------------------------------------------------------------

  datatype Direction = FORWARD | BACKWARD

  /** What the adapter reads of a task element. */
  datatype TaskElement = TaskElement(
    /** Present for a `Task`: its allocation direction. */
    taskDirection: Option<Direction>,
    position: Option<PositionConstraint>,
    isMilestone: bool,
    hasOrderElement: bool,
    limitingAndHasDayAssignments: bool,
    hasConsolidations: bool,
    updatedFromTimesheets: bool)

  /** `getCurrentLengthConstraint`: a forward task cannot end before its current end. */
  function CurrentLengthConstraint(t: TaskElement, currentEnd: int): (r: seq<Constraint>)
    ensures r != [] <==> t.taskDirection == Some(FORWARD)
    ensures r != [] ==> r == [BiggerOrEqualThan(Some(currentEnd))]
  {
    if t.taskDirection.Some? && t.taskDirection.value == FORWARD then [BiggerOrEqualThan(Some(currentEnd))]
    else []
  }

  /** `isFixed`: the element cannot be moved on the diagram. */
  predicate IsFixed(t: TaskElement) {
    t.limitingAndHasDayAssignments || t.hasConsolidations || t.updatedFromTimesheets
  }

  class Adapter {
    var initDate: Option<int>
    var deadline: Option<int>
    var preventCalculateResourcesText: bool

    /** `createForCompany`: no order dates, and no resources text. */
    constructor ForCompany()
      ensures initDate == None && deadline == None && preventCalculateResourcesText
    {
      initDate := None;
      deadline := None;
      preventCalculateResourcesText := true;
    }

    /** `createForOrder`: the order's init date and deadline. */
    constructor ForOrder(orderInitDate: Option<int>, orderDeadline: Option<int>)
      ensures initDate == orderInitDate && deadline == orderDeadline && !preventCalculateResourcesText
    {
      initDate := orderInitDate;
      deadline := orderDeadline;
      preventCalculateResourcesText := false;
    }

    method SetPreventCalculateResourcesText(prevent: bool)
      modifies this`preventCalculateResourcesText
      ensures preventCalculateResourcesText == prevent
    {
      preventCalculateResourcesText := prevent;
    }

    /** `getStartConstraints` and `getEndConstraints`, from the adapter's dates. */
    method GetConstraints(t: TaskElement) returns (starts: seq<Constraint>, ends: seq<Constraint>)
      ensures starts == StartConstraintsFor(t.position, initDate)
      ensures ends == EndConstraintsFor(t.position, deadline)
      ensures starts == [] || ends == []
    {
      starts := StartConstraintsFor(t.position, initDate);
      ends := EndConstraintsFor(t.position, deadline);
      ConstraintsBoundOneSide(t.position, initDate, deadline);
    }

    /** `getLabelsText`: empty for milestones and elements outside an order. */
    method GetLabelsText(t: TaskElement, chain: seq<set<Label>>, iteration: seq<Label>) returns (text: string)
      requires Elements(iteration) == LabelsOfElementAndAncestors(chain)
      ensures t.isMilestone || !t.hasOrderElement ==> text == ""
      ensures !t.isMilestone && t.hasOrderElement ==> text == Join(SortedDistinct(Names(iteration)), ", ")
    {
      if t.isMilestone || !t.hasOrderElement {
        return "";
      }
      text := BuildLabelsText(true, chain, iteration);
    }

    /** `getResourcesText`: empty when prevented or outside an order. */
    method GetResourcesText(t: TaskElement, allocations: seq<Allocation>, subcontraction: Option<string>)
      returns (text: string)
      ensures preventCalculateResourcesText || !t.hasOrderElement ==> text == ""
      ensures !preventCalculateResourcesText && t.hasOrderElement ==>
        text == Join(ResourcesItems(allocations, subcontraction), "; ")
    {
      if preventCalculateResourcesText || !t.hasOrderElement {
        return "";
      }
      text := BuildResourcesText(allocations, subcontraction);
    }
  }
}
