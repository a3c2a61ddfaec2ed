/**
 * The user settings page (`SettingsController`): the order of the
 * language list, the filters cleared when their search boxes are empty,
 * and the outcome of saving.
 */
module SettingsController {
  import opened Collections

  /** A `Language`: the browser's own language, or a locale with its display name. */
  datatype Language = BrowserLanguage | Locale(code: string, displayName: string)

  /**
   * The comparator of `getLanguages`: the browser language before every
   * other, the others by display name.
   */
  predicate LanguageLe(a: Language, b: Language) {
    a == BrowserLanguage || (b != BrowserLanguage && LexLe(a.displayName, b.displayName))
  }

  lemma LanguageLeIsTotalPreorder()
    ensures TotalPreorder(LanguageLe)
  {
    forall a: Language, b: Language ensures LanguageLe(a, b) || LanguageLe(b, a) {
      if a != BrowserLanguage && b != BrowserLanguage {
        LexLeTotal(a.displayName, b.displayName);
      }
    }
    forall a: Language, b: Language, c: Language | LanguageLe(a, b) && LanguageLe(b, c)
      ensures LanguageLe(a, c)
    {
      if a != BrowserLanguage {
        LexLeTransitive(a.displayName, b.displayName, c.displayName);
      }
    }
  }

  /**
   * `getLanguages`: the values of `Language` sorted in place by the
   * comparator. The result holds every language once, the browser
   * language first and the others by display name.
   */
  method GetLanguages(values: seq<Language>) returns (languages: seq<Language>)
    requires BrowserLanguage in values && NoDuplicates(values)
    ensures multiset(languages) == multiset(values)
    ensures languages != [] && languages[0] == BrowserLanguage
    ensures forall i :: 1 <= i < |languages| ==> languages[i].Locale?
    ensures forall i, j :: 1 <= i < j < |languages| ==>
      LexLe(languages[i].displayName, languages[j].displayName)
  {
    LanguageLeIsTotalPreorder();
    languages := Sort(values, LanguageLe);
    BrowserLanguageFirst(values, languages);
  }

  /** In a sorted permutation of distinct languages holding the browser language, it comes first and only there. */
  lemma BrowserLanguageFirst(values: seq<Language>, languages: seq<Language>)
    requires BrowserLanguage in values && NoDuplicates(values)
    requires multiset(languages) == multiset(values) && SortedBy(languages, LanguageLe)
    ensures languages != [] && languages[0] == BrowserLanguage
    ensures forall i :: 1 <= i < |languages| ==> languages[i] != BrowserLanguage
  {
    assert BrowserLanguage in multiset(languages);
    var k :| 0 <= k < |languages| && languages[k] == BrowserLanguage;
    if k != 0 {
      assert LanguageLe(languages[0], languages[k]);
    }
    PermutationNoDuplicates(values, languages);
  }

  /** A message shown to the user. */
  datatype Message = SettingsSaved | InvalidValues

  /** The settings of the user being edited (`ISettingsModel`) and the page's messages. */
  class SettingsModel {
    var projectsFilterLabel: Option<nat>
    var resourcesLoadFilterCriterion: Option<nat>
    /** Whether the filters kept in the session are cleared. */
    var sessionCleared: bool
    /** Whether the settings are stored. */
    var saved: bool
    var messages: seq<Message>

    constructor (filterLabel: Option<nat>, criterion: Option<nat>)
      ensures projectsFilterLabel == filterLabel && resourcesLoadFilterCriterion == criterion
      ensures !sessionCleared && !saved && messages == []
    {
      projectsFilterLabel := filterLabel;
      resourcesLoadFilterCriterion := criterion;
      sessionCleared := false;
      saved := false;
      messages := [];
    }

    /**
     * `checkEmptyBandboxes`: a filter whose search box has nothing
     * selected is cleared; a filter with a selection is left alone.
     */
    method CheckEmptyBandboxes(labelSelection: Option<nat>, criterionSelection: Option<nat>)
      modifies this`projectsFilterLabel, this`resourcesLoadFilterCriterion
      ensures projectsFilterLabel == (if labelSelection.None? then None else old(projectsFilterLabel))
      ensures resourcesLoadFilterCriterion ==
        (if criterionSelection.None? then None else old(resourcesLoadFilterCriterion))
    {
      if labelSelection.None? {
        projectsFilterLabel := None;
      }
      if criterionSelection.None? {
        resourcesLoadFilterCriterion := None;
      }
    }

    /**
     * `save`: the empty filters are cleared and the session's filters
     * forgotten before confirming; a validation failure shows the invalid
     * values and answers false, success shows that the settings are saved
     * and answers true.
     */
    method Save(labelSelection: Option<nat>, criterionSelection: Option<nat>, validationFails: bool)
      returns (success: bool)
      modifies this
      ensures success <==> !validationFails
      ensures saved == (old(saved) || success)
      ensures messages == old(messages) + [if success then SettingsSaved else InvalidValues]
      ensures sessionCleared
      ensures projectsFilterLabel == (if labelSelection.None? then None else old(projectsFilterLabel))
      ensures resourcesLoadFilterCriterion ==
        (if criterionSelection.None? then None else old(resourcesLoadFilterCriterion))
    {
      CheckEmptyBandboxes(labelSelection, criterionSelection);
      sessionCleared := true;
      if validationFails {
        messages := messages + [InvalidValues];
        return false;
      }
      saved := true;
      messages := messages + [SettingsSaved];
      return true;
    }
  }
}
