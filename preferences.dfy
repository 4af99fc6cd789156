/** The preferences store of `src/contexts/PreferencesContext.js`: a record of
    settings with defaults, single- and multi-key updates, reset, set-like
    toggling of list-valued settings, and the load/save effects against browser
    storage. Storage is the single key `userPreferences`; its text is either the
    serialisation of a record or text that does not parse. */
module Preferences {
  import opened Wrappers
  import opened Seqs

  /** A JSON value a preference can hold. */
  datatype PrefValue = Num(n: int) | Text(s: string) | Flag(b: bool) | List(items: seq<string>)

  type Prefs = map<string, PrefValue>

  /** What `localStorage.getItem('userPreferences')` returns, once `JSON.parse` has been
      applied: the text written by a save (it parses back to the record that was
      saved), or text that fails to parse. `Unparsable("")` is the empty string,
      which the load treats as absent. */
  datatype Stored = Serialized(prefs: Prefs) | Unparsable(raw: string)

  /** What the effects write to the console. */
  datatype LogEntry = LoadError | SaveError

  const CategoriesKey: string := "preferredCategories"

  /** The nineteen settings of `defaultPreferences`. */
  function DefaultKeys(): set<string>
  {
    {
      "articlesPerPage", "defaultView", "showImages", "compactMode",
      "preferredCategories", "blockedKeywords", "contentLanguage", "hideReadArticles",
      "emailNotifications", "pushNotifications", "newsletterFrequency", "breakingNews",
      "fontSize", "lineHeight", "readingTime", "autoPlayVideos",
      "shareReadingData", "personalizedAds", "analyticsTracking"
    }
  }

  /** `defaultPreferences`. */
  function Defaults(): (d: Prefs)
    ensures d.Keys == DefaultKeys()
  {
    map[
      "articlesPerPage" := Num(10),
      "defaultView" := Text("grid"),
      "showImages" := Flag(true),
      "compactMode" := Flag(false),
      "preferredCategories" := List([]),
      "blockedKeywords" := List([]),
      "contentLanguage" := Text("en"),
      "hideReadArticles" := Flag(false),
      "emailNotifications" := Flag(true),
      "pushNotifications" := Flag(false),
      "newsletterFrequency" := Text("daily"),
      "breakingNews" := Flag(true),
      "fontSize" := Text("medium"),
      "lineHeight" := Text("normal"),
      "readingTime" := Flag(true),
      "autoPlayVideos" := Flag(false),
      "shareReadingData" := Flag(false),
      "personalizedAds" := Flag(true),
      "analyticsTracking" := Flag(true)
    ]
  }

  /** The defaults show ten articles per page and start with empty category and keyword lists. */
  lemma DefaultsValues()
    ensures Defaults()["articlesPerPage"] == Num(10)
    ensures HasList(Defaults(), CategoriesKey) && Defaults()[CategoriesKey].items == []
    ensures HasList(Defaults(), "blockedKeywords") && Defaults()["blockedKeywords"].items == []
  {
    assert "articlesPerPage" in Defaults();
    assert CategoriesKey in Defaults();
    assert "blockedKeywords" in Defaults();
  }

  /** `{ ...prev, [key]: value }`: the named key takes the new value, nothing else changes. */
  function Update(p: Prefs, key: string, value: PrefValue): (r: Prefs)
    ensures key in r && r[key] == value
    ensures r.Keys == p.Keys + {key}
    ensures forall k :: k in p && k != key ==> r[k] == p[k]
  {
    p[key := value]
  }

  /** `{ ...prev, ...updates }`: every key of `updates` is overwritten, every other key kept. */
  function Merge(p: Prefs, updates: Prefs): (r: Prefs)
    ensures r.Keys == p.Keys + updates.Keys
    ensures forall k :: k in updates ==> r[k] == updates[k]
    ensures forall k :: k in p && k !in updates ==> r[k] == p[k]
  {
    p + updates
  }

  /** `list.includes(v) ? list.filter(item => item !== v) : [...list, v]`. */
  function ToggleItem(xs: seq<string>, v: string): (r: seq<string>)
    ensures v in r <==> v !in xs
  {
    if v in xs then Filter(xs, x => x != v) else xs + [v]
  }

  /** Toggling a value that is absent appends it at the end; earlier elements are kept. */
  lemma ToggleAbsentAppends(xs: seq<string>, v: string)
    requires v !in xs
    ensures |ToggleItem(xs, v)| == |xs| + 1
    ensures ToggleItem(xs, v)[..|xs|] == xs && ToggleItem(xs, v)[|xs|] == v
  {
  }

  /** Toggling a value that is present removes every occurrence of it; every other
      value keeps its number of occurrences and the list keeps its order. */
  lemma TogglePresentRemovesAll(xs: seq<string>, v: string)
    requires v in xs
    ensures v !in ToggleItem(xs, v)
    ensures forall x :: x != v ==> multiset(ToggleItem(xs, v))[x] == multiset(xs)[x]
    ensures |ToggleItem(xs, v)| == |xs| - multiset(xs)[v]
    ensures IsSubsequence(ToggleItem(xs, v), xs)
  {
    var p := (x: string) => x != v;
    forall x | x != v
      ensures multiset(ToggleItem(xs, v))[x] == multiset(xs)[x]
    {
      FilterMultiset(xs, p, x);
    }
    FilterIsSubsequence(xs, p);
    FilterLength(xs, v);
  }

  /** Removing every `v` shortens the list by the number of times `v` occurred. */
  lemma {:induction false} FilterLength(xs: seq<string>, v: string)
    ensures |Filter(xs, x => x != v)| == |xs| - multiset(xs)[v]
    decreases |xs|
  {
    if xs != [] {
      FilterLength(xs[1..], v);
      assert xs == [xs[0]] + xs[1..];
      assert multiset(xs) == multiset([xs[0]]) + multiset(xs[1..]);
    }
  }

  /** Toggling an absent value twice gives back the original list. */
  lemma ToggleTwiceRestores(xs: seq<string>, v: string)
    requires v !in xs
    ensures ToggleItem(ToggleItem(xs, v), v) == xs
  {
    var p := (x: string) => x != v;
    FilterConcat(xs, [v], p);
    FilterKeepsAll(xs, p);
    assert Filter([v], p) == [];
  }

  /** The preference under `key` is a list (what `includes`/`filter` need). */
  predicate HasList(p: Prefs, key: string)
  {
    key in p && p[key].List?
  }

  /** `toggleArrayPreference(key, value)`: only the list under `key` changes, by `ToggleItem`. */
  function ToggleArray(p: Prefs, key: string, value: string): (r: Prefs)
    requires HasList(p, key)
    ensures HasList(r, key) && r.Keys == p.Keys
    ensures (value in r[key].items) <==> (value !in p[key].items)
    ensures forall k :: k in p && k != key ==> r[k] == p[k]
  {
    p[key := List(ToggleItem(p[key].items, value))]
  }

  /** `isPreferredCategory(category)`. */
  predicate IsPreferred(p: Prefs, category: string)
    requires HasList(p, CategoriesKey)
  {
    category in p[CategoriesKey].items
  }

  /** `addPreferredCategory(category)`: toggles only when the category is absent. */
  function AddCategory(p: Prefs, category: string): (r: Prefs)
    requires HasList(p, CategoriesKey)
    ensures HasList(r, CategoriesKey)
  {
    if !IsPreferred(p, category) then ToggleArray(p, CategoriesKey, category) else p
  }

  /** `removePreferredCategory(category)`: toggles only when the category is present. */
  function RemoveCategory(p: Prefs, category: string): (r: Prefs)
    requires HasList(p, CategoriesKey)
    ensures HasList(r, CategoriesKey)
  {
    if IsPreferred(p, category) then ToggleArray(p, CategoriesKey, category) else p
  }

  /** After adding, the category is present at the end of the list, and adding again
      changes nothing. */
  lemma AddCategoryProperties(p: Prefs, category: string)
    requires HasList(p, CategoriesKey)
    ensures IsPreferred(AddCategory(p, category), category)
    ensures AddCategory(AddCategory(p, category), category) == AddCategory(p, category)
    ensures !IsPreferred(p, category) ==>
      AddCategory(p, category)[CategoriesKey].items == p[CategoriesKey].items + [category]
  {
  }

  /** After removing, the category is absent; removing an absent category changes nothing. */
  lemma RemoveCategoryProperties(p: Prefs, category: string)
    requires HasList(p, CategoriesKey)
    ensures !IsPreferred(RemoveCategory(p, category), category)
    ensures !IsPreferred(p, category) ==> RemoveCategory(p, category) == p
    ensures forall k :: k in p && k != CategoriesKey ==> RemoveCategory(p, category)[k] == p[k]
  {
  }

  /** Adding a category that was absent and then removing it restores the record. */
  lemma AddThenRemoveRestores(p: Prefs, category: string)
    requires HasList(p, CategoriesKey) && !IsPreferred(p, category)
    ensures RemoveCategory(AddCategory(p, category), category) == p
  {
    ToggleTwiceRestores(p[CategoriesKey].items, category);
    var r := RemoveCategory(AddCategory(p, category), category);
    assert r.Keys == p.Keys;
    assert forall k :: k in p ==> r[k] == p[k];
  }

  /** The mount effect: stored text that is present and non-empty is parsed and laid
      over `base`; text that fails to parse leaves `base` and logs an error. */
  datatype LoadOutcome = LoadOutcome(prefs: Prefs, logged: bool)

  function LoadOver(base: Prefs, saved: Option<Stored>): (r: LoadOutcome)
    ensures saved.None? || saved == Some(Unparsable("")) ==> r == LoadOutcome(base, false)
    ensures saved.Some? && saved.value.Unparsable? && saved.value.raw != "" ==> r == LoadOutcome(base, true)
    ensures saved.Some? && saved.value.Serialized? ==>
      !r.logged && r.prefs.Keys == base.Keys + saved.value.prefs.Keys &&
      (forall k :: k in saved.value.prefs ==> r.prefs[k] == saved.value.prefs[k]) &&
      (forall k :: k in base && k !in saved.value.prefs ==> r.prefs[k] == base[k])
  {
    match saved
    case None => LoadOutcome(base, false)
    case Some(Unparsable(raw)) => LoadOutcome(base, raw != "")
    case Some(Serialized(q)) => LoadOutcome(Merge(base, q), false)
  }

  /** The state held by `PreferencesProvider`, with the storage slot it reads and writes. */
  class Provider {
    var preferences: Prefs
    var isLoading: bool
    /** `localStorage['userPreferences']`. */
    var stored: Option<Stored>
    var log: seq<LogEntry>

    /** First render: defaults, still loading. */
    constructor (stored: Option<Stored>)
      ensures preferences == Defaults() && isLoading
      ensures this.stored == stored && log == []
    {
      preferences := Defaults();
      isLoading := true;
      this.stored := stored;
      log := [];
    }

    /** The mount effect: merge what storage holds over the current record; loading
        ends either way. */
    method LoadEffect()
      modifies this
      ensures preferences == LoadOver(old(preferences), old(stored)).prefs
      ensures log == old(log) + (if LoadOver(old(preferences), old(stored)).logged then [LoadError] else [])
      ensures !isLoading && stored == old(stored)
    {
      var outcome := LoadOver(preferences, stored);
      preferences := outcome.prefs;
      if outcome.logged {
        log := log + [LoadError];
      }
      isLoading := false;
    }

    /** The save effect, run after every change of `preferences` or `isLoading`.
        `writeOk` is false when `setItem` throws. Nothing is written while loading. */
    method SaveEffect(writeOk: bool)
      modifies this`stored, this`log
      ensures old(isLoading) ==> stored == old(stored) && log == old(log)
      ensures !isLoading && writeOk ==> stored == Some(Serialized(preferences)) && log == old(log)
      ensures !isLoading && !writeOk ==> stored == old(stored) && log == old(log) + [SaveError]
    {
      if !isLoading {
        if writeOk {
          stored := Some(Serialized(preferences));
        } else {
          log := log + [SaveError];
        }
      }
    }

    /** `updatePreference(key, value)`. */
    method UpdatePreference(key: string, value: PrefValue)
      modifies this`preferences
      ensures preferences == Update(old(preferences), key, value)
    {
      preferences := Update(preferences, key, value);
    }

    /** `updateMultiplePreferences(updates)`. */
    method UpdateMultiplePreferences(updates: Prefs)
      modifies this`preferences
      ensures preferences == Merge(old(preferences), updates)
    {
      preferences := Merge(preferences, updates);
    }

    /** `resetPreferences()`. */
    method ResetPreferences()
      modifies this`preferences
      ensures preferences == Defaults()
    {
      preferences := Defaults();
    }

    /** `toggleArrayPreference(key, value)`; callers pass list-valued keys only. */
    method ToggleArrayPreference(key: string, value: string)
      requires HasList(preferences, key)
      modifies this`preferences
      ensures preferences == ToggleArray(old(preferences), key, value)
    {
      preferences := ToggleArray(preferences, key, value);
    }

    /** `isPreferredCategory(category)`. */
    method IsPreferredCategory(category: string) returns (b: bool)
      requires HasList(preferences, CategoriesKey)
      ensures b <==> category in preferences[CategoriesKey].items
    {
      b := category in preferences[CategoriesKey].items;
    }

    /** `addPreferredCategory(category)`. */
    method AddPreferredCategory(category: string)
      requires HasList(preferences, CategoriesKey)
      modifies this`preferences
      ensures preferences == AddCategory(old(preferences), category)
    {
      var present := IsPreferredCategory(category);
      if !present {
        ToggleArrayPreference(CategoriesKey, category);
      }
    }

    /** `removePreferredCategory(category)`. */
    method RemovePreferredCategory(category: string)
      requires HasList(preferences, CategoriesKey)
      modifies this`preferences
      ensures preferences == RemoveCategory(old(preferences), category)
    {
      var present := IsPreferredCategory(category);
      if present {
        ToggleArrayPreference(CategoriesKey, category);
      }
    }
  }
}
