/** The preferences editor's save state machine (`UserPreferencesTestable` in
    `src/UserPreferences.e2e.test.js`, and its `forwardRef` twin in
    `src/UserPreferences.test.js`, whose only difference is the extra `section`
    argument of `handleChange`). Each `setTimeout` callback is an explicit timer
    event; the model does not track deadlines, so any pending timer may fire next. */
module PreferencesEditor {
  import opened Wrappers
  import opened Preferences

  /** `saveStatus`: `null`, `'saving'`, `'success'` or `'error'`. */
  datatype SaveStatus = Idle | Saving | Success | Error

  /** A scheduled `setTimeout` callback. */
  datatype Timer =
    | MarkSaved              // the 500 ms callback after a successful write
    | ClearStatus(ms: nat)   // `setSaveStatus(null)` after 2000 ms (success) or 3000 ms (error)

  /** The editor's defaults. The component spells out its own literal, which holds the
      same eighteen values as the store's defaults and has no `blockedKeywords`. */
  function EditorDefaults(): (d: Prefs)
    ensures d.Keys == DefaultKeys() - {"blockedKeywords"}
  {
    Defaults() - {"blockedKeywords"}
  }

  /** The values the editor's scenarios rely on. */
  lemma EditorDefaultsValues()
    ensures "articlesPerPage" in EditorDefaults() && EditorDefaults()["articlesPerPage"] == Num(10)
    ensures HasList(EditorDefaults(), CategoriesKey) && EditorDefaults()[CategoriesKey].items == []
    ensures "blockedKeywords" !in EditorDefaults()
  {
    DefaultsValues();
    assert "articlesPerPage" in EditorDefaults();
    assert CategoriesKey in EditorDefaults();
  }

  /** `disabled={!hasUnsavedChanges || saveStatus === 'saving'}`, negated. */
  function SaveEnabled(dirty: bool, status: SaveStatus): (b: bool)
    ensures !dirty ==> !b
    ensures status == Saving ==> !b
    ensures dirty && status in {Idle, Success, Error} ==> b
  {
    dirty && status != Saving
  }

  /** The Save button's label. */
  function SaveLabel(status: SaveStatus): (caption: string)
    ensures caption == "Saving..." <==> status == Saving
    ensures caption == "Saved!" <==> status == Success
    ensures caption == "Save Changes" <==> status == Idle || status == Error
  {
    match status
    case Saving => "Saving..."
    case Success => "Saved!"
    case _ => "Save Changes"
  }

  /** The error banner. */
  function ErrorBanner(status: SaveStatus): (text: Option<string>)
    ensures text.Some? <==> status == Error
    ensures text.Some? ==> text.value == "Failed to save preferences. Please try again."
  {
    if status == Error then Some("Failed to save preferences. Please try again.") else None
  }

  /** Some pending timer will reset the status to `null`. */
  predicate ClearPending(pending: seq<Timer>)
  {
    exists i :: 0 <= i < |pending| && pending[i].ClearStatus?
  }

  /** Some pending timer will finish a save. */
  predicate MarkPending(pending: seq<Timer>)
  {
    exists i :: 0 <= i < |pending| && pending[i] == MarkSaved
  }

  /** The editor: preferences, the dirty flag, the save status, the pending timers and
      the storage slot `userPreferences`. */
  class Editor {
    var preferences: Prefs
    var hasUnsavedChanges: bool
    var saveStatus: SaveStatus
    var pending: seq<Timer>
    var stored: Option<Stored>
    var loadErrors: nat

    /** Every status other than `null` is transient: a pending timer will move it on. */
    ghost predicate Valid()
      reads this
    {
      && (saveStatus == Saving ==> MarkPending(pending))
      && (saveStatus == Success || saveStatus == Error ==> ClearPending(pending))
    }

    /** First render. */
    constructor (stored: Option<Stored>)
      ensures Valid()
      ensures preferences == EditorDefaults() && !hasUnsavedChanges && saveStatus == Idle
      ensures pending == [] && this.stored == stored && loadErrors == 0
    {
      preferences := EditorDefaults();
      hasUnsavedChanges := false;
      saveStatus := Idle;
      pending := [];
      this.stored := stored;
      loadErrors := 0;
    }

    /** The mount effect: merge stored preferences over the current ones; text that
        does not parse keeps them and logs an error. The dirty flag is untouched. */
    method Mount()
      requires Valid()
      modifies this`preferences, this`loadErrors
      ensures Valid()
      ensures preferences == LoadOver(old(preferences), stored).prefs
      ensures loadErrors == old(loadErrors) + (if LoadOver(old(preferences), stored).logged then 1 else 0)
    {
      var outcome := LoadOver(preferences, stored);
      preferences := outcome.prefs;
      if outcome.logged {
        loadErrors := loadErrors + 1;
      }
    }

    /** `handleChange(key, value)`. */
    method HandleChange(key: string, value: PrefValue)
      requires Valid()
      modifies this`preferences, this`hasUnsavedChanges, this`saveStatus
      ensures Valid()
      ensures preferences == Update(old(preferences), key, value)
      ensures hasUnsavedChanges && saveStatus == Idle
    {
      preferences := Update(preferences, key, value);
      hasUnsavedChanges := true;
      saveStatus := Idle;
    }

    /** `handleChange(section, key, value)` of the `forwardRef` variant: `section` is ignored. */
    method HandleSectionChange(section: string, key: string, value: PrefValue)
      requires Valid()
      modifies this`preferences, this`hasUnsavedChanges, this`saveStatus
      ensures Valid()
      ensures preferences == Update(old(preferences), key, value)
      ensures hasUnsavedChanges && saveStatus == Idle
    {
      HandleChange(key, value);
    }

    /** `handleArrayToggle(key, value)`; the category buttons pass the list-valued key. */
    method HandleArrayToggle(key: string, value: string)
      requires Valid() && HasList(preferences, key)
      modifies this`preferences, this`hasUnsavedChanges, this`saveStatus
      ensures Valid()
      ensures preferences == ToggleArray(old(preferences), key, value)
      ensures hasUnsavedChanges && saveStatus == Idle
    {
      preferences := ToggleArray(preferences, key, value);
      hasUnsavedChanges := true;
      saveStatus := Idle;
    }

    /** `handleSave()`, reachable only through the enabled Save button. `writeOk` is
        false when `localStorage.setItem` throws. */
    method HandleSave(writeOk: bool)
      requires Valid() && SaveEnabled(hasUnsavedChanges, saveStatus)
      modifies this`saveStatus, this`pending, this`stored
      ensures Valid()
      ensures writeOk ==>
                stored == Some(Serialized(preferences)) && saveStatus == Saving
                && pending == old(pending) + [MarkSaved]
      ensures !writeOk ==>
                stored == old(stored) && saveStatus == Error
                && pending == old(pending) + [ClearStatus(3000)]
    {
      saveStatus := Saving;
      if writeOk {
        stored := Some(Serialized(preferences));
        pending := pending + [MarkSaved];
        assert pending[|pending| - 1] == MarkSaved;
      } else {
        saveStatus := Error;
        pending := pending + [ClearStatus(3000)];
        assert pending[|pending| - 1].ClearStatus?;
      }
    }

    /** `handleReset()`: every default back, and the form is dirty even if nothing changed. */
    method HandleReset()
      requires Valid()
      modifies this`preferences, this`hasUnsavedChanges, this`saveStatus
      ensures Valid()
      ensures preferences == EditorDefaults() && hasUnsavedChanges && saveStatus == Idle
    {
      preferences := EditorDefaults();
      hasUnsavedChanges := true;
      saveStatus := Idle;
    }

    /** The pending timer at position `i` fires. */
    method FireTimer(i: nat)
      requires Valid() && i < |pending|
      modifies this`saveStatus, this`hasUnsavedChanges, this`pending
      ensures Valid()
      ensures old(pending[i]) == MarkSaved ==>
        saveStatus == Success && !hasUnsavedChanges
        && pending == old(pending[..i] + pending[i + 1..]) + [ClearStatus(2000)]
      ensures old(pending[i]).ClearStatus? ==>
        saveStatus == Idle && hasUnsavedChanges == old(hasUnsavedChanges)
        && pending == old(pending[..i] + pending[i + 1..])
    {
      var t := pending[i];
      pending := pending[..i] + pending[i + 1..];
      match t
      case MarkSaved =>
        saveStatus := Success;
        hasUnsavedChanges := false;
        pending := pending + [ClearStatus(2000)];
        assert pending[|pending| - 1].ClearStatus?;
      case ClearStatus(_) =>
        saveStatus := Idle;
    }

    /** What the page shows: Save enabled, its label, the error banner and the warning. */
    method View() returns (enabled: bool, caption: string, error: Option<string>, warning: bool)
      ensures enabled <==> hasUnsavedChanges && saveStatus != Saving
      ensures caption == SaveLabel(saveStatus) && error == ErrorBanner(saveStatus)
      ensures warning <==> hasUnsavedChanges
    {
      enabled := SaveEnabled(hasUnsavedChanges, saveStatus);
      caption := SaveLabel(saveStatus);
      error := ErrorBanner(saveStatus);
      warning := hasUnsavedChanges;
    }
  }

  /** A first save from a clean editor: one change, a save whose write succeeds, then both
      timers fire. Save is disabled at the start, enabled after the change, disabled while
      saving, labelled "Saved!" with the warning gone after 500 ms, and back to
      "Save Changes" and disabled after another 2000 ms. */
  method FirstSaveJourney(e: Editor)
    requires e.Valid() && !e.hasUnsavedChanges && e.saveStatus == Idle && e.pending == []
    modifies e
    ensures e.Valid() && !e.hasUnsavedChanges && e.saveStatus == Idle && e.pending == []
    ensures e.preferences == Update(old(e.preferences), "articlesPerPage", Num(15))
    ensures e.stored == Some(Serialized(e.preferences))
  {
    assert !SaveEnabled(e.hasUnsavedChanges, e.saveStatus);
    e.HandleChange("articlesPerPage", Num(15));
    assert SaveEnabled(e.hasUnsavedChanges, e.saveStatus);
    e.HandleSave(true);
    assert e.pending == [MarkSaved];
    assert !SaveEnabled(e.hasUnsavedChanges, e.saveStatus) && SaveLabel(e.saveStatus) == "Saving...";
    e.FireTimer(0);
    assert e.pending == [ClearStatus(2000)];
    assert SaveLabel(e.saveStatus) == "Saved!" && !e.hasUnsavedChanges;
    e.FireTimer(0);
  }

  /** Selecting tech, then science, then deselecting tech, starting from an empty
      category list, leaves exactly `["science"]`. */
  method CategoryJourney(e: Editor)
    requires e.Valid() && HasList(e.preferences, CategoriesKey) && e.preferences[CategoriesKey].items == []
    modifies e
    ensures e.Valid() && e.hasUnsavedChanges && e.saveStatus == Idle
    ensures CategoriesKey in e.preferences && e.preferences[CategoriesKey] == List(["science"])
  {
    e.HandleArrayToggle(CategoriesKey, "tech");
    e.HandleArrayToggle(CategoriesKey, "science");
    assert e.preferences[CategoriesKey] == List(["tech", "science"]);
    e.HandleArrayToggle(CategoriesKey, "tech");
    assert Seqs.Filter(["tech", "science"], x => x != "tech") == ["science"];
  }

  /** A throwing write after a change: the error banner shows, the form stays dirty,
      storage is untouched, and the 3000 ms timer brings the status back to `null`. */
  method FailedSaveJourney(e: Editor)
    requires e.Valid() && e.saveStatus == Idle && e.pending == []
    modifies e
    ensures e.Valid() && e.hasUnsavedChanges && e.saveStatus == Idle && e.pending == []
    ensures e.stored == old(e.stored)
  {
    e.HandleChange("articlesPerPage", Num(20));
    e.HandleSave(false);
    assert ErrorBanner(e.saveStatus) == Some("Failed to save preferences. Please try again.");
    assert e.hasUnsavedChanges && e.pending == [ClearStatus(3000)];
    e.FireTimer(0);
  }

  /** An edit made after the write but before the 500 ms timer is not in storage, yet the
      timer clears the dirty flag: the page no longer warns about an unsaved change. */
  method EditDuringSaveWindow(e: Editor)
    requires e.Valid() && e.saveStatus == Idle && e.pending == []
    modifies e
    ensures e.Valid() && !e.hasUnsavedChanges && e.saveStatus == Success
    ensures e.stored != Some(Serialized(e.preferences))
  {
    e.HandleChange("articlesPerPage", Num(15));
    e.HandleSave(true);
    var saved := e.preferences;
    e.HandleChange("articlesPerPage", Num(30));
    assert e.preferences["articlesPerPage"] != saved["articlesPerPage"];
    assert e.pending == [MarkSaved];
    e.FireTimer(0);
  }
}
