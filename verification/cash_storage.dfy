/** What src/App.tsx keeps in the browser's string key/value store: the three
    keys, the loaders that read them back at start-up with their fallbacks,
    and the string forms the persistence effects write. */
module CashStorage {
  import opened Types

  const StorageKey := "cash-counter-state"
  const ResetSkipKey := "cash-counter-reset-skip"
  const LanguageKey := "cash-counter-language"

  /** The key/value store: string keys to string values. */
  type Storage = map<string, string>

  /** The three keys are distinct, so a write to one leaves the others. */
  lemma KeysDistinct()
    ensures StorageKey != ResetSkipKey && StorageKey != LanguageKey && ResetSkipKey != LanguageKey
  {
    assert StorageKey[13] != ResetSkipKey[13];
    assert StorageKey[13] != LanguageKey[13];
    assert ResetSkipKey[13] != LanguageKey[13];
  }

  // ---------------------------------------------------------------------
  // The tally record

  /** What parsing a stored record gives: the parser fails on malformed
      text, yields null for the text `null`, and otherwise an object read as
      a tally (a JSON value that is not an object has no denomination keys
      and reads as the empty tally). */
  datatype Parsed = Malformed | Null | Object(state: CashState)

  /** The law the serialiser and the parser obey together: every tally is
      written as non-empty text that parses back to the same tally. */
  ghost predicate Lawful(encode: CashState -> string, decode: string -> Parsed) {
    forall s :: encode(s) != "" && decode(encode(s)) == Object(s)
  }

  /** `loadCashState`: an absent or empty record, a record that fails to
      parse, and a record that parses to null all load as the empty tally. */
  function LoadCashState(st: Storage, decode: string -> Parsed): (r: CashState)
    ensures StorageKey !in st || st[StorageKey] == "" ==> r == map[]
    ensures StorageKey in st && !decode(st[StorageKey]).Object? ==> r == map[]
    ensures StorageKey in st && st[StorageKey] != "" && decode(st[StorageKey]).Object? ==>
      r == decode(st[StorageKey]).state
  {
    if StorageKey !in st || st[StorageKey] == "" then map[]
    else match decode(st[StorageKey])
      case Object(s) => s
      case _ => map[]
  }

  /** A record written by the persistence effect loads back as the tally it
      was written from. */
  lemma TallyRoundTrip(st: Storage, encode: CashState -> string, decode: string -> Parsed, s: CashState)
    requires Lawful(encode, decode)
    ensures LoadCashState(st[StorageKey := encode(s)], decode) == s
  {
    assert encode(s) != "" && decode(encode(s)) == Object(s);
  }

  // ---------------------------------------------------------------------
  // The skip-confirmation flag

  /** The text a boolean is stored as: `"true"` or `"false"`. */
  function BoolString(b: bool): string {
    if b then "true" else "false"
  }

  /** `loadResetSkip`: true exactly when the stored string is `"true"`. */
  function LoadResetSkip(st: Storage): bool {
    ResetSkipKey in st && st[ResetSkipKey] == "true"
  }

  /** The flag survives being written with `String` and read back; any other
      stored text than `"true"` reads as false. */
  lemma ResetSkipRoundTrip(st: Storage, b: bool, other: string)
    ensures LoadResetSkip(st[ResetSkipKey := BoolString(b)]) == b
    ensures other != "true" ==> !LoadResetSkip(st[ResetSkipKey := other])
  {
    assert "false"[0] != "true"[0];
  }

  // ---------------------------------------------------------------------
  // The display language of the counter page

  /** The language set of the counter page's copy tables (src/lib/i18n.ts). */
  datatype AppLanguage = Vi | Zh

  function AppLanguageCode(l: AppLanguage): string {
    match l
    case Vi => "vi"
    case Zh => "zh"
  }

  /** `loadLanguage`: `"zh"` only when the stored value is exactly `"zh"`,
      otherwise `"vi"`. */
  function LoadLanguage(st: Storage): AppLanguage {
    if LanguageKey in st && st[LanguageKey] == "zh" then Zh else Vi
  }

  /** The language survives being written and read back; any other stored
      value than `"zh"` reads as Vietnamese. */
  lemma LanguageRoundTrip(st: Storage, l: AppLanguage, other: string)
    ensures LoadLanguage(st[LanguageKey := AppLanguageCode(l)]) == l
    ensures other != "zh" ==> LoadLanguage(st[LanguageKey := other]) == Vi
  {
    assert "vi"[0] != "zh"[0];
  }

  // ---------------------------------------------------------------------
  // All three together

  /** The store holds what the three persistence effects last wrote. */
  ghost predicate Persisted(st: Storage, encode: CashState -> string, cash: CashState, skip: bool, lang: AppLanguage) {
    && StorageKey in st && st[StorageKey] == encode(cash)
    && ResetSkipKey in st && st[ResetSkipKey] == BoolString(skip)
    && LanguageKey in st && st[LanguageKey] == AppLanguageCode(lang)
  }

  /** Reloading the page from a store in that state restores the tally, the
      flag and the language. */
  lemma ReloadRestores(st: Storage, encode: CashState -> string, decode: string -> Parsed,
                       cash: CashState, skip: bool, lang: AppLanguage)
    requires Lawful(encode, decode)
    requires Persisted(st, encode, cash, skip, lang)
    ensures LoadCashState(st, decode) == cash
    ensures LoadResetSkip(st) == skip
    ensures LoadLanguage(st) == lang
  {
    TallyRoundTrip(st, encode, decode, cash);
    assert st[StorageKey := encode(cash)] == st;
    ResetSkipRoundTrip(st, skip, "");
    assert st[ResetSkipKey := BoolString(skip)] == st;
    LanguageRoundTrip(st, lang, "");
    assert st[LanguageKey := AppLanguageCode(lang)] == st;
  }
}
