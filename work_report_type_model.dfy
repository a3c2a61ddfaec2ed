/**
 * The timesheet template editor (`WorkReportTypeModel`): where fields and
 * labels go (heading or lines), their order by position number, the
 * validation of name, code, fields and labels, and the guards that keep
 * the predefined templates from being edited or removed.
 */
module WorkReportTypeModel {
  import opened Collections

  /** `PositionInWorkReportEnum`. */
  datatype Position = Heading | Line

  /** `getPosition(boolean)`: shared by the lines means in the heading. */
  function GetPosition(sharedByLines: bool): (p: Position)
    ensures p == Heading <==> sharedByLines
  {
    if sharedByLines then Heading else Line
  }

  /** `isSharedByLines`. */
  function IsSharedByLines(p: Position): (shared: bool)
    ensures shared <==> p == Heading
  {
    p == Heading
  }

  /** The two translations are inverse. */
  lemma PositionRoundTrip(shared: bool, p: Position)
    ensures IsSharedByLines(GetPosition(shared)) == shared
    ensures GetPosition(IsSharedByLines(p)) == p
  {
  }

  /** A `DescriptionField`; a missing name or length is `None`. */
  datatype DescriptionField = DescriptionField(id: nat, fieldName: Option<string>, length: Option<int>, positionNumber: int)

  /** A `WorkReportLabelTypeAssigment`. */
  datatype LabelAssignment = LabelAssignment(
    id: nat, labelType: Option<nat>, defaultLabel: Option<nat>, labelsSharedByLines: bool, positionNumber: int)

  /** An entry of the heading or line list: a field or a label assignment. */
  datatype FieldOrLabel = FieldItem(field: DescriptionField) | LabelItem(assignment: LabelAssignment)

  /** `getIndex`: the entry's position number. */
  function GetIndex(o: FieldOrLabel): (index: int) {
    match o
    case FieldItem(f) => f.positionNumber
    case LabelItem(a) => a.positionNumber
  }

  /** The last of the first `n` entries whose position number is `k`. */
  function LastPlacedAt(list: seq<FieldOrLabel>, n: nat, k: int): (r: Option<FieldOrLabel>)
    requires n <= |list|
    ensures r.Some? ==> GetIndex(r.value) == k && r.value in list[..n]
  {
    if n == 0 then None
    else if GetIndex(list[n - 1]) == k then Some(list[n - 1])
    else LastPlacedAt(list, n - 1, k)
  }

  /**
   * What `sort` makes of a list: each slot holds the last entry whose
   * position number is that slot, or keeps its own entry if none has it.
   */
  function Placement(list: seq<FieldOrLabel>): (result: seq<FieldOrLabel>)
    ensures |result| == |list|
  {
    PlacedAfter(list, |list|)
  }

  /** The list after the first `n` entries are written into their slots. */
  function PlacedAfter(list: seq<FieldOrLabel>, n: nat): (result: seq<FieldOrLabel>)
    requires n <= |list|
    ensures |result| == |list|
  {
    seq(|list|, k requires 0 <= k < |list| =>
      match LastPlacedAt(list, n, k) case Some(o) => o case None => list[k])
  }

  /** Writing one more entry changes only the slot of its position number, if that is a slot. */
  lemma PlacedAfterStep(list: seq<FieldOrLabel>, n: nat)
    requires n < |list|
    ensures var index := GetIndex(list[n]);
      PlacedAfter(list, n + 1) ==
        if 0 <= index < |list| then PlacedAfter(list, n)[index := list[n]] else PlacedAfter(list, n)
  {
  }

  /** `sort`: copies the list, then writes each entry into the slot of its position number when that is a slot. */
  method SortFieldsAndLabels(list: seq<FieldOrLabel>) returns (result: seq<FieldOrLabel>)
    ensures result == Placement(list)
  {
    result := list;
    var i := 0;
    assert result == PlacedAfter(list, 0);
    while i < |list|
      invariant 0 <= i <= |list| && result == PlacedAfter(list, i)
    {
      PlacedAfterStep(list, i);
      var index := GetIndex(list[i]);
      if 0 <= index < |list| {
        result := result[index := list[i]];
      }
      i := i + 1;
    }
  }

  /** Position numbers that number the entries 0, 1, 2, ... in some order. */
  predicate NumbersEntries(list: seq<FieldOrLabel>) {
    (forall i :: 0 <= i < |list| ==> 0 <= GetIndex(list[i]) < |list|)
    && (forall i, j :: 0 <= i < j < |list| ==> GetIndex(list[i]) != GetIndex(list[j]))
  }

  /**
   * When the position numbers number the entries, `sort` puts every entry
   * in the slot of its number: the result is ordered by position number
   * and holds each entry of the list.
   */
  lemma PlacementOrdersByPosition(list: seq<FieldOrLabel>)
    requires NumbersEntries(list)
    ensures forall k :: 0 <= k < |list| ==> GetIndex(Placement(list)[k]) == k
    ensures forall i :: 0 <= i < |list| ==> Placement(list)[GetIndex(list[i])] == list[i]
  {
    forall i | 0 <= i < |list|
      ensures LastPlacedAt(list, |list|, GetIndex(list[i])) == Some(list[i])
    {
      OnlyEntryPlaced(list, |list|, i);
    }
    forall k | 0 <= k < |list|
      ensures GetIndex(Placement(list)[k]) == k
    {
      var i := SlotIsTaken(list, k);
      OnlyEntryPlaced(list, |list|, i);
    }
  }

  lemma {:induction false} OnlyEntryPlaced(list: seq<FieldOrLabel>, n: nat, i: nat)
    requires NumbersEntries(list) && i < n <= |list|
    ensures LastPlacedAt(list, n, GetIndex(list[i])) == Some(list[i])
  {
    if n - 1 != i {
      assert GetIndex(list[n - 1]) != GetIndex(list[i]);
      OnlyEntryPlaced(list, n - 1, i);
    }
  }

  /** With distinct numbers below the length, every slot is some entry's number. */
  lemma SlotIsTaken(list: seq<FieldOrLabel>, k: int) returns (i: nat)
    requires NumbersEntries(list) && 0 <= k < |list|
    ensures i < |list| && GetIndex(list[i]) == k
  {
    var numbers := NumbersOf(list, |list|);
    var slots := Slots(|list|);
    NumbersOfMembers(list, |list|);
    assert numbers <= slots;
    NumbersAreDistinct(list, |list|);
    if k !in numbers {
      SubsetSize(numbers, slots - {k});
      assert false;
    }
    var j :| 0 <= j < |list| && GetIndex(list[j]) == k;
    i := j;
  }

  /** The position numbers of the first `n` entries. */
  function NumbersOf(list: seq<FieldOrLabel>, n: nat): set<int>
    requires n <= |list|
  {
    if n == 0 then {} else NumbersOf(list, n - 1) + {GetIndex(list[n - 1])}
  }

  lemma {:induction false} NumbersOfMembers(list: seq<FieldOrLabel>, n: nat)
    requires n <= |list|
    ensures forall x :: x in NumbersOf(list, n) <==> exists j :: 0 <= j < n && GetIndex(list[j]) == x
  {
    if n > 0 {
      NumbersOfMembers(list, n - 1);
    }
  }

  /** The slots 0 .. n - 1. */
  function Slots(n: nat): (r: set<int>)
    ensures |r| == n && forall s :: s in r <==> 0 <= s < n
  {
    if n == 0 then {} else Slots(n - 1) + {n - 1}
  }

  lemma {:induction false} SubsetSize<T>(a: set<T>, b: set<T>)
    requires a <= b
    ensures |a| <= |b|
    decreases a
  {
    if a != {} {
      var x :| x in a;
      SubsetSize(a - {x}, b - {x});
    }
  }

  lemma {:induction false} NumbersAreDistinct(list: seq<FieldOrLabel>, n: nat)
    requires NumbersEntries(list) && n <= |list|
    ensures |NumbersOf(list, n)| == n
  {
    if n > 0 {
      NumbersAreDistinct(list, n - 1);
      NumbersOfMembers(list, n - 1);
      assert GetIndex(list[n - 1]) !in NumbersOf(list, n - 1);
    }
  }

  // ---------------------------------------------------------------------
  // First-offender scans
  // ---------------------------------------------------------------------

  /** The loop of the `validate*` scans: the first entry that fails, if any. */
  method FirstOffender<T>(items: seq<T>, offends: T -> bool) returns (r: Option<T>)
    ensures r.None? ==> forall i :: 0 <= i < |items| ==> !offends(items[i])
    ensures r.Some? ==> exists i :: 0 <= i < |items| && items[i] == r.value && offends(items[i])
                                    && forall j :: 0 <= j < i ==> !offends(items[j])
  {
    var i := 0;
    while i < |items|
      invariant 0 <= i <= |items|
      invariant forall j :: 0 <= j < i ==> !offends(items[j])
    {
      if offends(items[i]) {
        return Some(items[i]);
      }
      i := i + 1;
    }
    return None;
  }

  predicate BadLength(f: DescriptionField) {
    f.length.None? || f.length.value <= 0
  }

  predicate MissingDefaultLabel(a: LabelAssignment) {
    a.defaultLabel.None?
  }

  predicate BadFieldName(f: DescriptionField, repeated: DescriptionField -> bool) {
    f.fieldName.None? || f.fieldName.value == "" || repeated(f)
  }

  predicate BadLabelType(a: LabelAssignment, repeated: LabelAssignment -> bool) {
    a.labelType.None? || repeated(a)
  }

  // ---------------------------------------------------------------------
  // The template and the model
  // ---------------------------------------------------------------------

  /** A `WorkReportType`: the parts the editor reads and writes. */
  class WorkReportType {
    const id: nat
    const isPersonalTimesheetsType: bool
    const isJiraTimesheetsType: bool
    var name: string
    var code: string
    var lineFields: seq<DescriptionField>
    var headingFields: seq<DescriptionField>
    /** The label assignments, in the iteration order of their set. */
    var labelAssignments: seq<LabelAssignment>

    constructor (id: nat, personal: bool, jira: bool, name: string, code: string,
                 lineFields: seq<DescriptionField>, headingFields: seq<DescriptionField>,
                 labelAssignments: seq<LabelAssignment>)
      ensures this.id == id && isPersonalTimesheetsType == personal && isJiraTimesheetsType == jira
      ensures this.name == name && this.code == code && this.lineFields == lineFields
      ensures this.headingFields == headingFields && this.labelAssignments == labelAssignments
    {
      this.id := id;
      isPersonalTimesheetsType := personal;
      isJiraTimesheetsType := jira;
      this.name := name;
      this.code := code;
      this.lineFields := lineFields;
      this.headingFields := headingFields;
      this.labelAssignments := labelAssignments;
    }
  }

  /** Why a name or code is refused. */
  datatype ValidationError = NameCannotBeEmpty | NameNotUnique | CodeCannotBeEmpty | CodeHasUnderscore | CodeNotUnique

  /** The predefined templates cannot be edited or removed. */
  datatype IllegalArgument = IllegalArgument

  /** A request to move a field or label to a position of the heading or the lines. */
  datatype MoveRequest = MoveRequest(item: FieldOrLabel, intoHeading: bool, newPosition: int)

  class WorkReportTypeModel {
    var workReportType: Option<WorkReportType>
    var editing: bool
    var listing: bool
    /** The templates removed from the database, in order. */
    var removed: seq<nat>
    /** The moves asked of the template, in order. */
    var moves: seq<MoveRequest>

    constructor ()
      ensures workReportType.None? && !editing && listing && removed == [] && moves == []
    {
      workReportType := None;
      editing := false;
      listing := true;
      removed := [];
      moves := [];
    }

    /** `initEdit`: the predefined templates are refused before anything changes. */
    method InitEdit(template: WorkReportType) returns (r: Result<(), IllegalArgument>)
      modifies this`listing, this`editing, this`workReportType
      ensures r.Err? <==> template.isPersonalTimesheetsType || template.isJiraTimesheetsType
      ensures r.Err? ==> listing == old(listing) && editing == old(editing) && workReportType == old(workReportType)
      ensures r.Ok? ==> !listing && editing && workReportType == Some(template)
    {
      if template.isPersonalTimesheetsType {
        return Err(IllegalArgument);
      }
      if template.isJiraTimesheetsType {
        return Err(IllegalArgument);
      }
      listing := false;
      editing := true;
      workReportType := Some(template);
      return Ok(());
    }

    /** `confirmRemove`: the predefined templates are refused; any other is removed. */
    method ConfirmRemove(template: WorkReportType) returns (r: Result<(), IllegalArgument>)
      modifies this`removed
      ensures r.Err? <==> template.isPersonalTimesheetsType || template.isJiraTimesheetsType
      ensures removed == if r.Ok? then old(removed) + [template.id] else old(removed)
    {
      if template.isPersonalTimesheetsType {
        return Err(IllegalArgument);
      }
      if template.isJiraTimesheetsType {
        return Err(IllegalArgument);
      }
      removed := removed + [template.id];
      return Ok(());
    }

    /** `getDescriptionFields`: the line fields, then the heading fields. */
    function GetDescriptionFields(): (fields: seq<DescriptionField>)
      reads this, if workReportType.Some? then {workReportType.value} else {}
      ensures workReportType.None? ==> fields == []
      ensures workReportType.Some? ==>
        |fields| == |workReportType.value.lineFields| + |workReportType.value.headingFields|
        && fields[..|workReportType.value.lineFields|] == workReportType.value.lineFields
        && fields[|workReportType.value.lineFields|..] == workReportType.value.headingFields
    {
      if workReportType.None? then [] else workReportType.value.lineFields + workReportType.value.headingFields
    }

    /** `getPosition(DescriptionField)`: the heading if the heading holds it, else the lines. */
    function GetFieldPosition(field: DescriptionField): (p: Position)
      requires workReportType.Some?
      reads this, workReportType.value
      ensures p == Heading <==> field in workReportType.value.headingFields
    {
      if field in workReportType.value.headingFields then Heading else Line
    }

    /**
     * `validateWorkReportTypeName`: an empty name is refused as it is;
     * any other is set, then refused if the template's uniqueness check
     * (`unique`, its answer for the new name) fails.
     */
    method ValidateWorkReportTypeName(name: Option<string>, unique: bool) returns (r: Result<(), ValidationError>)
      requires workReportType.Some?
      modifies workReportType.value`name
      ensures name.None? || name.value == "" ==>
        r == Err(NameCannotBeEmpty) && workReportType.value.name == old(workReportType.value.name)
      ensures name.Some? && name.value != "" ==>
        workReportType.value.name == name.value && (r.Ok? <==> unique) && (r.Err? ==> r.error == NameNotUnique)
    {
      if name.None? || name.value == "" {
        return Err(NameCannotBeEmpty);
      }
      workReportType.value.name := name.value;
      if !unique {
        return Err(NameNotUnique);
      }
      return Ok(());
    }

    /**
     * `validateWorkReportTypeCode`: an empty code, then a code holding
     * '_', are refused as they are; any other is set, then refused if
     * the uniqueness check fails.
     */
    method ValidateWorkReportTypeCode(code: Option<string>, unique: bool) returns (r: Result<(), ValidationError>)
      requires workReportType.Some?
      modifies workReportType.value`code
      ensures code.None? || code.value == "" ==>
        r == Err(CodeCannotBeEmpty) && workReportType.value.code == old(workReportType.value.code)
      ensures code.Some? && code.value != "" && '_' in code.value ==>
        r == Err(CodeHasUnderscore) && workReportType.value.code == old(workReportType.value.code)
      ensures code.Some? && code.value != "" && '_' !in code.value ==>
        workReportType.value.code == code.value && (r.Ok? <==> unique) && (r.Err? ==> r.error == CodeNotUnique)
    {
      if code.None? || code.value == "" {
        return Err(CodeCannotBeEmpty);
      }
      if '_' in code.value {
        return Err(CodeHasUnderscore);
      }
      workReportType.value.code := code.value;
      if !unique {
        return Err(CodeNotUnique);
      }
      return Ok(());
    }

    /** `validateLengthLineFields`: the first line field without a positive length. */
    method ValidateLengthLineFields() returns (r: Option<DescriptionField>)
      requires workReportType.Some?
      ensures r.None? ==> forall f :: f in workReportType.value.lineFields ==> !BadLength(f)
      ensures r.Some? ==>
        exists i :: 0 <= i < |workReportType.value.lineFields|
                    && workReportType.value.lineFields[i] == r.value && BadLength(r.value)
                    && forall j :: 0 <= j < i ==> !BadLength(workReportType.value.lineFields[j])
    {
      r := FirstOffender(workReportType.value.lineFields, BadLength);
    }

    /**
     * `validateFieldNameLineFields`: the first description field without a
     * name, or whose name the template reports as repeated (`repeated`).
     * Without a template there are no description fields.
     */
    method ValidateFieldNameLineFields(repeated: DescriptionField -> bool) returns (r: Option<DescriptionField>)
      ensures workReportType.None? ==> r.None?
      ensures r.None? ==> forall f :: f in GetDescriptionFields() ==> !BadFieldName(f, repeated)
      ensures r.Some? ==>
        exists i :: 0 <= i < |GetDescriptionFields()|
                    && GetDescriptionFields()[i] == r.value && BadFieldName(r.value, repeated)
                    && forall j :: 0 <= j < i ==> !BadFieldName(GetDescriptionFields()[j], repeated)
    {
      var fields := GetDescriptionFields();
      var offends := (f: DescriptionField) => BadFieldName(f, repeated);
      r := FirstOffender(fields, offends);
      if r.Some? {
        var i :| 0 <= i < |fields| && fields[i] == r.value && offends(fields[i])
                 && forall j :: 0 <= j < i ==> !offends(fields[j]);
        assert fields == GetDescriptionFields();
      }
    }

    /**
     * `validateLabelTypes`: the first assignment without a label type, or
     * whose type the template reports as repeated. Without a template there
     * are no assignments.
     */
    method ValidateLabelTypes(repeated: LabelAssignment -> bool) returns (r: Option<LabelAssignment>)
      ensures workReportType.None? ==> r.None?
      ensures r.None? && workReportType.Some? ==>
        forall a :: a in workReportType.value.labelAssignments ==> !BadLabelType(a, repeated)
      ensures r.Some? ==> workReportType.Some?
      ensures r.Some? && workReportType.Some? ==>
        exists i :: 0 <= i < |workReportType.value.labelAssignments|
                    && workReportType.value.labelAssignments[i] == r.value && BadLabelType(r.value, repeated)
                    && forall j :: 0 <= j < i ==> !BadLabelType(workReportType.value.labelAssignments[j], repeated)
    {
      if workReportType.None? {
        return None;
      }
      r := FirstOffender(workReportType.value.labelAssignments, (a: LabelAssignment) => BadLabelType(a, repeated));
    }

    /** `validateLabels`: the first assignment without a default label. */
    method ValidateLabels() returns (r: Option<LabelAssignment>)
      ensures workReportType.None? ==> r.None?
      ensures r.None? && workReportType.Some? ==>
        forall a :: a in workReportType.value.labelAssignments ==> !MissingDefaultLabel(a)
      ensures r.Some? ==> workReportType.Some?
      ensures r.Some? && workReportType.Some? ==>
        exists i :: 0 <= i < |workReportType.value.labelAssignments|
                    && workReportType.value.labelAssignments[i] == r.value && MissingDefaultLabel(r.value)
                    && forall j :: 0 <= j < i ==> !MissingDefaultLabel(workReportType.value.labelAssignments[j])
    {
      if workReportType.None? {
        return None;
      }
      r := FirstOffender(workReportType.value.labelAssignments, MissingDefaultLabel);
    }

    /** `getOrderedListHeading` / `getOrderedListLines` over the list the template gives. */
    method GetOrderedList(fieldsAndLabels: seq<FieldOrLabel>) returns (result: seq<FieldOrLabel>)
      ensures workReportType.None? ==> result == []
      ensures workReportType.Some? ==> result == Placement(fieldsAndLabels)
    {
      if workReportType.None? {
        return [];
      }
      result := SortFieldsAndLabels(fieldsAndLabels);
    }

    /** `upFieldOrLabel`: a move to one position before. */
    method UpFieldOrLabel(item: FieldOrLabel, intoHeading: bool)
      modifies this`moves
      ensures moves == old(moves) + [MoveRequest(item, intoHeading, GetIndex(item) - 1)]
    {
      moves := moves + [MoveRequest(item, intoHeading, GetIndex(item) - 1)];
    }

    /** `downFieldOrLabel`: a move to one position after. */
    method DownFieldOrLabel(item: FieldOrLabel, intoHeading: bool)
      modifies this`moves
      ensures moves == old(moves) + [MoveRequest(item, intoHeading, GetIndex(item) + 1)]
    {
      moves := moves + [MoveRequest(item, intoHeading, GetIndex(item) + 1)];
    }
  }
}
