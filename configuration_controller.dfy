/**
 * The main-settings window (`ConfigurationController`): entity sequences
 * with one active sequence per entity, the connector property validators,
 * the LDAP role lists and the LDAP role strategy.
 */
module ConfigurationController {
  import opened Collections
  import opened Numbers

  /**
   * `EntitySequence`: the entity it numbers (an `EntityNameEnum` ordinal),
   * its prefix and digits, and its flags.
   */
  datatype EntitySequence = EntitySequence(
    entityName: nat, prefix: string, numberOfDigits: nat, active: bool, alreadyInUse: bool)

  /** `getEntitySequences(entityName)`: the sequences of one entity, in the stored order. */
  function SequencesOf(all: seq<EntitySequence>, name: nat): (r: seq<EntitySequence>)
    ensures |r| <= |all|
    ensures forall i :: 0 <= i < |r| ==> r[i].entityName == name
    ensures forall i :: 0 <= i < |all| && all[i].entityName == name ==> all[i] in r
  {
    if all == [] then []
    else (if all[0].entityName == name then [all[0]] else []) + SequencesOf(all[1..], name)
  }

  lemma {:induction false} SequencesOfAppend(a: seq<EntitySequence>, b: seq<EntitySequence>, name: nat)
    ensures SequencesOf(a + b, name) == SequencesOf(a, name) + SequencesOf(b, name)
    decreases |a|
  {
    if a == [] {
      assert a + b == b;
    } else {
      assert (a + b)[0] == a[0] && (a + b)[1..] == a[1..] + b;
      SequencesOfAppend(a[1..], b, name);
    }
  }

  /** An entity has no sequences listed exactly when none of `all` belongs to it. */
  lemma {:induction false} SequencesOfEmpty(all: seq<EntitySequence>, name: nat)
    ensures SequencesOf(all, name) == [] <==> forall j :: 0 <= j < |all| ==> all[j].entityName != name
    decreases |all|
  {
    if all != [] {
      SequencesOfEmpty(all[1..], name);
      assert forall j :: 1 <= j < |all| ==> all[j] == all[1..][j - 1];
    }
  }

  /** Sequence `k` is its entity's only one exactly when no other sequence belongs to that entity. */
  lemma {:induction false} SequencesOfOnlyOne(all: seq<EntitySequence>, k: nat)
    requires k < |all|
    ensures |SequencesOf(all, all[k].entityName)| == 1 <==>
      forall j :: 0 <= j < |all| && j != k ==> all[j].entityName != all[k].entityName
    decreases |all|
  {
    var name := all[k].entityName;
    if k == 0 {
      SequencesOfEmpty(all[1..], name);
      assert forall j :: 1 <= j < |all| ==> all[j] == all[1..][j - 1];
    } else {
      assert all[1..][k - 1] == all[k];
      SequencesOfOnlyOne(all[1..], k - 1);
      assert forall j :: 1 <= j < |all| ==> all[j] == all[1..][j - 1];
      if all[0].entityName == name {
        assert all[k] in SequencesOf(all[1..], name);
      }
    }
  }

  /** No entity has two active sequences. */
  ghost predicate AtMostOneActivePerEntity(all: seq<EntitySequence>) {
    forall i, j :: 0 <= i < j < |all| && all[i].active && all[j].active ==> all[i].entityName != all[j].entityName
  }

  /** `EntitySequenceComparator`: by entity name only (the enum's `compareTo`). */
  function Compare(a: EntitySequence, b: EntitySequence): int {
    a.entityName - b.entityName
  }

  predicate OrderedByEntity(r: seq<EntitySequence>) {
    forall i, j :: 0 <= i < j < |r| ==> Compare(r[i], r[j]) <= 0
  }

  /** The sequences of entities `0 .. count - 1`, one entity after another. */
  function ByEntity(all: seq<EntitySequence>, count: nat): seq<EntitySequence> {
    if count == 0 then [] else ByEntity(all, count - 1) + SequencesOf(all, count - 1)
  }

  /** The sequences of entities below `count`, in the stored order. */
  function Below(all: seq<EntitySequence>, count: nat): seq<EntitySequence> {
    if all == [] then []
    else (if all[0].entityName < count then [all[0]] else []) + Below(all[1..], count)
  }

  lemma {:induction false} BelowNext(all: seq<EntitySequence>, count: nat)
    requires count > 0
    ensures multiset(Below(all, count)) == multiset(Below(all, count - 1)) + multiset(SequencesOf(all, count - 1))
    decreases |all|
  {
    if all != [] {
      BelowNext(all[1..], count);
    }
  }

  lemma {:induction false} BelowEverything(all: seq<EntitySequence>, count: nat)
    requires forall s :: s in all ==> s.entityName < count
    ensures Below(all, count) == all
    decreases |all|
  {
    if all != [] {
      BelowEverything(all[1..], count);
      assert all == [all[0]] + all[1..];
    }
  }

  lemma {:induction false} ByEntityOrdered(all: seq<EntitySequence>, count: nat)
    ensures OrderedByEntity(ByEntity(all, count))
    ensures forall s :: s in ByEntity(all, count) ==> s.entityName < count
    decreases count
  {
    if count > 0 {
      ByEntityOrdered(all, count - 1);
      var a, b := ByEntity(all, count - 1), SequencesOf(all, count - 1);
      assert ByEntity(all, count) == a + b;
      forall i, j | 0 <= i < j < |a + b| ensures Compare((a + b)[i], (a + b)[j]) <= 0 {
        if j < |a| {
          assert (a + b)[i] == a[i] && (a + b)[j] == a[j];
        } else if i < |a| {
          assert (a + b)[i] == a[i] && a[i] in a;
        }
      }
    }
  }

  /** Listing entity by entity loses and adds nothing among the entities below `count`. */
  ghost predicate SameSequences(all: seq<EntitySequence>, count: nat) {
    multiset(ByEntity(all, count)) == multiset(Below(all, count))
  }

  lemma {:induction false} ByEntityBelow(all: seq<EntitySequence>, count: nat)
    ensures SameSequences(all, count)
    decreases count
  {
    if count > 0 {
      ByEntityBelow(all, count - 1);
      ByEntityBelowStep(all, count);
    } else {
      BelowZero(all);
    }
  }

  lemma ByEntityBelowStep(all: seq<EntitySequence>, count: nat)
    requires count > 0 && SameSequences(all, count - 1)
    ensures SameSequences(all, count)
  {
    var a, b := ByEntity(all, count - 1), SequencesOf(all, count - 1);
    assert ByEntity(all, count) == a + b;
    assert multiset(a + b) == multiset(a) + multiset(b);
    BelowNext(all, count);
  }

  /**
   * `getAllEntitySequences` lists every sequence of an entity among the
   * first `count` exactly once, grouped by entity in declaration order,
   * so it is ordered by `EntitySequenceComparator`.
   */
  lemma AllEntitySequencesOrdered(all: seq<EntitySequence>, count: nat)
    ensures OrderedByEntity(ByEntity(all, count))
    ensures multiset(ByEntity(all, count)) == multiset(Below(all, count))
    ensures (forall s :: s in all ==> s.entityName < count) ==> multiset(ByEntity(all, count)) == multiset(all)
  {
    ByEntityOrdered(all, count);
    ByEntityBelow(all, count);
    if forall s :: s in all ==> s.entityName < count {
      BelowEverything(all, count);
    }
  }

  lemma {:induction false} BelowZero(all: seq<EntitySequence>)
    ensures Below(all, 0) == []
    decreases |all|
  {
    if all != [] {
      BelowZero(all[1..]);
    }
  }

  /** `checkPropertyValue`'s verdict on a connector property. */
  datatype PropertyCheck =
    | Accepted
    | OnlyYesOrNoAllowed
    | OnlyDigitsAllowed
      /** The text box gets the "no empty" constraint instead. */
    | NoEmptyConstraint

  datatype PropertyKey =
    | ACTIVATED | SERVER_URL | USERNAME | PASSWORD | JIRA_HOURS_TYPE
    | TIM_NR_DAYS_TIMESHEET | TIM_NR_DAYS_ROSTER | OtherKey(key: string)

  /** `equalsIgnoreCase` against a one-letter ASCII word. */
  predicate EqualsIgnoringCase(s: string, upper: char, lower: char) {
    s == [upper] || s == [lower]
  }

  /** `isNumeric`: what `Integer.parseInt` accepts. */
  predicate IsNumeric(s: string) {
    ParseInt(s).Some?
  }

  /**
   * The constraint of `checkPropertyValue`: the activation flag takes only
   * Y or N in either case, the TIM day counts only what `Integer.parseInt`
   * accepts, the URL, user, password and hours type must not be empty, and
   * any other property takes anything.
   */
  function CheckPropertyValue(key: PropertyKey, value: string): (r: PropertyCheck)
    ensures key == ACTIVATED ==> (r == Accepted <==> value in {"Y", "y", "N", "n"})
    ensures key == ACTIVATED ==> r in {Accepted, OnlyYesOrNoAllowed}
    ensures key in {TIM_NR_DAYS_TIMESHEET, TIM_NR_DAYS_ROSTER} ==> (r == Accepted <==> ParseInt(value).Some?)
    ensures key in {TIM_NR_DAYS_TIMESHEET, TIM_NR_DAYS_ROSTER} ==> r in {Accepted, OnlyDigitsAllowed}
    ensures key in {SERVER_URL, USERNAME, PASSWORD, JIRA_HOURS_TYPE} ==> r == NoEmptyConstraint
    ensures key.OtherKey? ==> r == Accepted
  {
    match key
    case ACTIVATED =>
      if !EqualsIgnoringCase(value, 'Y', 'y') && !EqualsIgnoringCase(value, 'N', 'n') then OnlyYesOrNoAllowed
      else Accepted
    case SERVER_URL => NoEmptyConstraint
    case USERNAME => NoEmptyConstraint
    case PASSWORD => NoEmptyConstraint
    case JIRA_HOURS_TYPE => NoEmptyConstraint
    case TIM_NR_DAYS_TIMESHEET => if !IsNumeric(value) then OnlyDigitsAllowed else Accepted
    case TIM_NR_DAYS_ROSTER => if !IsNumeric(value) then OnlyDigitsAllowed else Accepted
    case OtherKey(_) => Accepted
  }

  /** Why `addNewEntitySequence` refuses. */
  datatype AddError = SelectEntityPlease | PrefixCannotBeEmpty | DigitsRejected(message: string)

  /** The sequence `addNewEntitySequence` hands to the configuration model. */
  datatype NewSequence = NewSequence(entityName: nat, prefix: string, digits: int)

  /**
   * `addNewEntitySequence` with the widgets in place: the entity is checked
   * before the prefix, and a missing or empty prefix is refused. The
   * configuration model's refusal of the sequence (`modelRefusal`, its
   * message) is reported on the digits box, and nothing is added.
   */
  function AddNewEntitySequence(entity: Option<nat>, prefix: Option<string>, digits: int,
                                modelRefusal: Option<string>): (r: Result<NewSequence, AddError>)
    ensures entity.None? ==> r == Err(SelectEntityPlease)
    ensures entity.Some? && (prefix.None? || prefix.value == "") ==> r == Err(PrefixCannotBeEmpty)
    ensures r.Err? && r.error.DigitsRejected? <==>
      entity.Some? && prefix.Some? && prefix.value != "" && modelRefusal.Some?
    ensures r.Err? && r.error.DigitsRejected? ==> r.error == DigitsRejected(modelRefusal.value)
    ensures r.Ok? <==> entity.Some? && prefix.Some? && prefix.value != "" && modelRefusal.None?
    ensures r.Ok? ==> r.value == NewSequence(entity.value, prefix.value, digits)
  {
    if entity.None? then Err(SelectEntityPlease)
    else if prefix.None? || prefix.value == "" then Err(PrefixCannotBeEmpty)
    else if modelRefusal.Some? then Err(DigitsRejected(modelRefusal.value))
    else Ok(NewSequence(entity.value, prefix.value, digits))
  }

  /** A connector and its properties, as keys and values. */
  datatype Connector = Connector(name: string, properties: seq<(PropertyKey, string)>)

  /** The getter of an LDAP role list finds no list stored for the role. */
  datatype MissingRoleList = MissingRoleList(role: string)

  class ConfigurationController {
    /** The entity sequences of the configuration model, all entities together. */
    var sequences: seq<EntitySequence>
    var selectedConnector: Option<Connector>
    /** `getMapMatchingRoles` of the LDAP configuration. */
    var matchingRoles: map<string, seq<string>>
    var ldapGroupStrategy: bool
    /** The selected radio of the strategy group: 0 for group, 1 for property. */
    var strategySelectedIndex: nat
    var groupPathDisabled: bool

    constructor (sequences: seq<EntitySequence>, matchingRoles: map<string, seq<string>>, groupStrategy: bool)
      ensures this.sequences == sequences && this.matchingRoles == matchingRoles
      ensures ldapGroupStrategy == groupStrategy && selectedConnector == None
      ensures strategySelectedIndex == (if groupStrategy then 0 else 1) && groupPathDisabled == !groupStrategy
    {
      this.sequences := sequences;
      this.matchingRoles := matchingRoles;
      ldapGroupStrategy := groupStrategy;
      selectedConnector := None;
      strategySelectedIndex := if groupStrategy then 0 else 1;
      groupPathDisabled := !groupStrategy;
    }

    /** `updateOtherSequences`: every sequence of the entity is deactivated. */
    method UpdateOtherSequences(name: nat)
      modifies this`sequences
      ensures |sequences| == |old(sequences)|
      ensures forall i :: 0 <= i < |sequences| ==>
        sequences[i] == if old(sequences[i]).entityName == name then old(sequences[i]).(active := false) else old(sequences[i])
    {
      var i := 0;
      while i < |sequences|
        invariant 0 <= i <= |sequences| == |old(sequences)|
        invariant forall k :: 0 <= k < i ==>
          sequences[k] == if old(sequences[k]).entityName == name then old(sequences[k]).(active := false) else old(sequences[k])
        invariant forall k :: i <= k < |sequences| ==> sequences[k] == old(sequences[k])
      {
        if sequences[i].entityName == name {
          sequences := sequences[i := sequences[i].(active := false)];
        }
        i := i + 1;
      }
    }

    /**
     * The setter of the active radio box of sequence `k`: the entity's
     * sequences are deactivated first, then `k` takes the value. Afterwards
     * `k` is the entity's only possible active sequence, and other
     * entities are untouched.
     */
    method SetActive(k: nat, value: bool)
      requires k < |sequences|
      modifies this`sequences
      ensures |sequences| == |old(sequences)|
      ensures sequences[k] == old(sequences[k]).(active := value)
      ensures forall i :: 0 <= i < |sequences| && i != k && old(sequences[i]).entityName == old(sequences[k]).entityName ==>
        sequences[i] == old(sequences[i]).(active := false)
      ensures forall i :: 0 <= i < |sequences| && old(sequences[i]).entityName != old(sequences[k]).entityName ==>
        sequences[i] == old(sequences[i])
      ensures forall i :: 0 <= i < |sequences| && sequences[i].entityName == sequences[k].entityName && sequences[i].active ==>
        i == k && value
      ensures AtMostOneActivePerEntity(old(sequences)) ==> AtMostOneActivePerEntity(sequences)
    {
      UpdateOtherSequences(sequences[k].entityName);
      sequences := sequences[k := sequences[k].(active := value)];
    }

    /** `isLastOne`: the sequence is its entity's only one. */
    function IsLastOne(k: nat): (last: bool)
      requires k < |sequences|
      reads this
      ensures last <==> forall j :: 0 <= j < |sequences| && j != k ==> sequences[j].entityName != sequences[k].entityName
    {
      SequencesOfOnlyOne(sequences, k);
      |SequencesOf(sequences, sequences[k].entityName)| == 1
    }

    /**
     * The remove button of sequence `k`, enabled while the sequence is not
     * in use. The last sequence of an entity is kept (a message is shown),
     * and so is one the configuration model refuses to remove; otherwise
     * it is removed and its entity keeps at least one sequence.
     */
    method OnRemove(k: nat, modelRefuses: bool) returns (removed: bool)
      requires k < |sequences| && !sequences[k].alreadyInUse
      modifies this`sequences
      ensures removed <==> !old(IsLastOne(k)) && !modelRefuses
      ensures !removed ==> sequences == old(sequences)
      ensures removed ==> sequences == old(sequences[..k] + sequences[k + 1..])
      ensures forall name: nat :: |SequencesOf(old(sequences), name)| > 0 ==> |SequencesOf(sequences, name)| > 0
    {
      if IsLastOne(k) {
        return false;
      }
      if modelRefuses {
        return false;
      }
      var name := sequences[k].entityName;
      var before, after := sequences[..k], sequences[k + 1..];
      assert sequences == before + [sequences[k]] + after;
      forall n: nat ensures |SequencesOf(sequences, n)| == |SequencesOf(before + after, n)| + (if n == name then 1 else 0) {
        SequencesOfAppend(before + [sequences[k]], after, n);
        SequencesOfAppend(before, [sequences[k]], n);
        SequencesOfAppend(before, after, n);
      }
      sequences := before + after;
      removed := true;
    }

    /** `getAllEntitySequences`: the sequences of each entity, in `EntityNameEnum` order. */
    method GetAllEntitySequences(entityCount: nat) returns (all: seq<EntitySequence>)
      ensures all == ByEntity(sequences, entityCount)
      ensures OrderedByEntity(all)
      ensures (forall s :: s in sequences ==> s.entityName < entityCount) ==> multiset(all) == multiset(sequences)
    {
      var stored := sequences;
      all := [];
      var name := 0;
      while name < entityCount
        invariant 0 <= name <= entityCount
        invariant all == ByEntity(stored, name)
      {
        assert ByEntity(stored, name + 1) == ByEntity(stored, name) + SequencesOf(stored, name);
        all := all + SequencesOf(stored, name);
        name := name + 1;
      }
      AllEntitySequencesOrdered(stored, entityCount);
    }

    method SetSelectedConnector(connector: Option<Connector>)
      modifies this`selectedConnector
      ensures selectedConnector == connector
    {
      selectedConnector := connector;
    }

    /** `getConnectorPropertries`: none without a selected connector. */
    method GetConnectorProperties() returns (properties: seq<(PropertyKey, string)>)
      ensures selectedConnector.None? ==> properties == []
      ensures selectedConnector.Some? ==> properties == selectedConnector.value.properties
    {
      if selectedConnector.None? {
        return [];
      }
      properties := selectedConnector.value.properties;
    }

    /** `loadRoleStrategyRows`: the group radio and an enabled group path exactly with group strategy. */
    method LoadRoleStrategyRows()
      modifies this`strategySelectedIndex, this`groupPathDisabled
      ensures strategySelectedIndex == 0 <==> ldapGroupStrategy
      ensures strategySelectedIndex == 1 <==> !ldapGroupStrategy
      ensures groupPathDisabled <==> !ldapGroupStrategy
    {
      if ldapGroupStrategy {
        strategySelectedIndex := 0;
        groupPathDisabled := false;
      } else {
        strategySelectedIndex := 1;
        groupPathDisabled := true;
      }
    }

    /** `changeRoleStrategy`: group strategy exactly when the "group" radio is chosen. */
    method ChangeRoleStrategy(selectedValue: string)
      modifies this`ldapGroupStrategy, this`strategySelectedIndex, this`groupPathDisabled
      ensures ldapGroupStrategy <==> selectedValue == "group"
      ensures strategySelectedIndex == (if selectedValue == "group" then 0 else 1)
      ensures groupPathDisabled <==> selectedValue != "group"
    {
      ldapGroupStrategy := selectedValue == "group";
      LoadRoleStrategyRows();
    }

    /**
     * The setter of a role's LDAP list: the text is split on ';' without
     * empty tokens and kept as a set; `order` is the order in which the
     * stored set lists its roles.
     */
    method SetRolesText(role: string, value: string, order: seq<string>)
      requires NoDuplicates(order) && Elements(order) == Elements(Split(value, ';'))
      modifies this`matchingRoles
      ensures matchingRoles == old(matchingRoles)[role := order]
    {
      matchingRoles := matchingRoles[role := order];
    }

    /**
     * The getter of a role's LDAP list: the stored list is sorted in place
     * and joined with ';'. A role without a stored list fails.
     */
    method GetRolesText(role: string) returns (r: Result<string, MissingRoleList>)
      modifies this`matchingRoles
      ensures role !in old(matchingRoles) ==> r == Err(MissingRoleList(role)) && matchingRoles == old(matchingRoles)
      ensures role in old(matchingRoles) ==>
        && matchingRoles == old(matchingRoles)[role := SortStrings(old(matchingRoles)[role])]
        && r == Ok(Join(SortStrings(old(matchingRoles)[role]), ";"))
    {
      if role !in matchingRoles {
        return Err(MissingRoleList(role));
      }
      var listRoles := SortStrings(matchingRoles[role]);
      matchingRoles := matchingRoles[role := listRoles];
      r := Ok(Join(listRoles, ";"));
    }
  }

  /**
   * What the getter shows after the setter stored a text: the distinct
   * non-empty roles of the text, sorted, which split back into the same
   * list.
   */
  lemma RolesTextShown(value: string, order: seq<string>)
    requires NoDuplicates(order) && Elements(order) == Elements(Split(value, ';'))
    ensures SortStrings(order) == SortedDistinct(Split(value, ';'))
    ensures NoDuplicates(SortStrings(order))
    ensures Split(Join(SortStrings(order), ";"), ';') == SortStrings(order)
  {
    var shown := SortStrings(order);
    SortKeepsElements(order);
    PermutationNoDuplicates(order, shown);
    StrictlySortedUnique(shown, SortedDistinct(Split(value, ';')));
    forall t | t in shown ensures t != "" && ';' !in t {
      assert t in Elements(shown);
      assert t in Elements(Split(value, ';'));
    }
    SplitJoin(shown, ';');
  }

  /** Writing the shown text back, the getter shows the same text again. */
  lemma RolesTextRoundTrip(value: string, order: seq<string>, order2: seq<string>)
    requires NoDuplicates(order) && Elements(order) == Elements(Split(value, ';'))
    requires NoDuplicates(order2) && Elements(order2) == Elements(Split(Join(SortStrings(order), ";"), ';'))
    ensures Join(SortStrings(order2), ";") == Join(SortStrings(order), ";")
  {
    var shown := SortStrings(order);
    var text := Join(shown, ";");
    RolesTextShown(value, order);
    RolesTextShown(text, order2);
    StrictlySortedUnique(SortedDistinct(shown), shown);
  }
}
