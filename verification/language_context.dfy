/** The language preference provider of
    src/components/contexts/LanguagecContext.tsx: the three supported codes,
    reading the saved preference from a primary key with a legacy fallback,
    and saving it under both keys whenever the language changes. */
module LanguageContext {
  import opened Types

  /** The language set of the app-wide translations (src/i18n/translations.ts). */
  datatype Language = Vi | En | Zh

  function Code(l: Language): string {
    match l
    case Vi => "vi"
    case En => "en"
    case Zh => "zh"
  }

  const ValidLanguages: seq<Language> := [Vi, En, Zh]
  const PrimaryKey := "app-language"
  const LegacyKey := "sweet-hut-cash-counter-language"

  type Storage = map<string, string>

  /** Whether some language in the list has the given code. */
  function SomeCodeIs(langs: seq<Language>, value: string): (b: bool)
    ensures b <==> exists i :: 0 <= i < |langs| && Code(langs[i]) == value
  {
    if langs == [] then false
    else Code(langs[0]) == value || SomeCodeIs(langs[1..], value)
  }

  /** Whether a stored value is the code of a supported language. */
  function IsValidLanguage(value: string): bool {
    SomeCodeIs(ValidLanguages, value)
  }

  /** A value is a valid language exactly when it is one of the three codes. */
  lemma ValidLanguageCodes(value: string)
    ensures IsValidLanguage(value) <==> value == "vi" || value == "en" || value == "zh"
  {
    assert Code(ValidLanguages[0]) == "vi";
    assert Code(ValidLanguages[1]) == "en";
    assert Code(ValidLanguages[2]) == "zh";
  }

  /** The language a valid code names. */
  function FromCode(value: string): (l: Language)
    requires IsValidLanguage(value)
    ensures Code(l) == value
  {
    if value == "vi" then Vi else if value == "en" then En else Zh
  }

  /** Every language's code is valid and names that language again. */
  lemma CodeRoundTrip(l: Language)
    ensures IsValidLanguage(Code(l)) && FromCode(Code(l)) == l
  {
    assert Code(ValidLanguages[if l.Vi? then 0 else if l.En? then 1 else 2]) == Code(l);
    assert "vi"[0] != "en"[0] && "en"[0] != "zh"[0] && "vi"[0] != "zh"[0];
  }

  /** `getItem(STORAGE_KEY) ?? getItem(LEGACY_STORAGE_KEY)`: the legacy key is
      read only when the primary key is absent. */
  function SavedValue(st: Storage): Option<string> {
    if PrimaryKey in st then Some(st[PrimaryKey])
    else if LegacyKey in st then Some(st[LegacyKey])
    else None
  }

  /** `getSavedLanguage`: the saved code when it is non-empty and valid;
      `"vi"` when storage cannot be read, nothing is saved, or the saved
      value is empty or invalid. */
  function GetSavedLanguage(st: Storage, readable: bool): Language {
    if !readable then Vi
    else match SavedValue(st)
      case Some(saved) => if saved != "" && IsValidLanguage(saved) then FromCode(saved) else Vi
      case None => Vi
  }

  /** What the fallbacks come to: anything but a valid code under the key
      that is read yields Vietnamese, and a valid code yields its language. */
  lemma GetSavedLanguageFallbacks(st: Storage, readable: bool)
    ensures !readable || SavedValue(st).None? ==> GetSavedLanguage(st, readable) == Vi
    ensures readable && SavedValue(st).Some? && !IsValidLanguage(SavedValue(st).value) ==>
      GetSavedLanguage(st, readable) == Vi
    ensures readable && SavedValue(st).Some? && IsValidLanguage(SavedValue(st).value) ==>
      Code(GetSavedLanguage(st, readable)) == SavedValue(st).value
  {
    ValidLanguageCodes("");
  }

  /** The legacy key matters only when the primary key is absent: with the
      primary key present, even holding an invalid value, the legacy value is
      never consulted; without it, the legacy value is read as if it were
      primary. */
  lemma LegacyOnlyWithoutPrimary(st: Storage, readable: bool, legacy: string)
    ensures PrimaryKey in st ==>
      GetSavedLanguage(st[LegacyKey := legacy], readable) == GetSavedLanguage(st, readable)
    ensures PrimaryKey !in st ==>
      GetSavedLanguage(st[LegacyKey := legacy], readable) == GetSavedLanguage(map[PrimaryKey := legacy], readable)
  {
    assert PrimaryKey != LegacyKey by {
      assert |PrimaryKey| != |LegacyKey|;
    }
  }

  /** The store after `saveLanguage(l)` succeeds: the same code under both
      keys. */
  function WithLanguage(st: Storage, l: Language): (r: Storage)
    ensures PrimaryKey in r && r[PrimaryKey] == Code(l)
    ensures LegacyKey in r && r[LegacyKey] == Code(l)
    ensures forall k :: k != PrimaryKey && k != LegacyKey ==> (k in r <==> k in st)
    ensures r - {PrimaryKey, LegacyKey} == st - {PrimaryKey, LegacyKey}
  {
    st[PrimaryKey := Code(l)][LegacyKey := Code(l)]
  }

  /** After a save, the saved language is read back. */
  lemma SaveThenGet(st: Storage, l: Language)
    ensures GetSavedLanguage(WithLanguage(st, l), true) == l
  {
    CodeRoundTrip(l);
    assert Code(l) != "" by {
      assert |Code(l)| == 2;
    }
  }

  /** `setLanguage`'s choice: a valid code is taken, anything else becomes
      Vietnamese. */
  function ChosenLanguage(code: string): (l: Language)
    ensures IsValidLanguage(code) ==> Code(l) == code
    ensures !IsValidLanguage(code) ==> l == Vi
  {
    if IsValidLanguage(code) then FromCode(code) else Vi
  }

  /** The provider's state: the current language and the store. `available`
      says whether the browser store can be used at all. */
  class LanguageProvider {
    const available: bool
    var language: Language
    var storage: Storage

    /** The save effect has run for the current language. */
    ghost predicate Valid()
      reads this
    {
      available ==> GetSavedLanguage(storage, true) == language
    }

    /** Mount: the language is read from the store, then the save effect
        writes it back under both keys. `readable` says whether reading the
        store succeeds; a store that is present but fails on read yields
        Vietnamese, which the effect then writes. */
    constructor(initial: Storage, available: bool, readable: bool)
      ensures Valid() && this.available == available
      ensures language == GetSavedLanguage(initial, available && readable)
      ensures available && !readable ==> language == Vi
      ensures storage == if available then WithLanguage(initial, language) else initial
    {
      this.available := available;
      var l := GetSavedLanguage(initial, available && readable);
      language := l;
      storage := if available then WithLanguage(initial, l) else initial;
      SaveThenGet(initial, l);
    }

    /** `saveLanguage`: both keys get the code; nothing happens without a
        store. */
    method SaveLanguage(l: Language)
      modifies this
      ensures storage == if available then WithLanguage(old(storage), l) else old(storage)
      ensures language == old(language)
    {
      if !available {
        return;
      }
      storage := storage[PrimaryKey := Code(l)];
      storage := storage[LegacyKey := Code(l)];
    }

    /** `setLanguage` followed by the save effect, which runs only when the
        language actually changed. */
    method SetLanguage(code: string)
      requires Valid()
      modifies this
      ensures Valid()
      ensures language == ChosenLanguage(code)
      ensures storage == if language != old(language) && available
                         then WithLanguage(old(storage), language) else old(storage)
    {
      var next := if IsValidLanguage(code) then FromCode(code) else Vi;
      if next != language {
        language := next;
        SaveLanguage(next);
        SaveThenGet(old(storage), next);
      }
    }
  }
}
