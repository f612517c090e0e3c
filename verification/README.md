# Cash counter: a Dafny model of its tally, reset and language logic

The cash counter is a browser page for counting Vietnamese bank notes. The
user taps one of nine denominations. A sheet opens, and the user enters how
many notes of that denomination there are, with a ±1 stepper or by typing
digits. The page keeps a tally from denomination to count. It derives the
active entries, the total number of notes and the total amount from that
tally. It persists the tally, a "skip reset confirmation" flag and the
language in the browser's key/value store. A reset empties the tally, after
a confirmation dialog unless the skip flag is set.

This project models that logic in Dafny and proves what it promises:

- `types.dfy` (module `Types`): the nine denominations, the partial tally map
  and a bill entry.
- `cash_tally.dfy` (module `CashTally`): the ordered denomination list, the
  derived entries and totals, and the two map updates (save a count, remove
  a denomination). Proved: the entries are exactly the active counts in
  descending order; the totals equal an independent per-denomination sum;
  how each update moves both totals; bounds that tie "no entries" to "zero
  totals".
- `cash_storage.dfy` (module `CashStorage`): the three storage keys, the
  start-up loaders with their fallbacks, and round trips between what the
  persistence effects write and what the loaders read. JSON serialisation is
  not modelled. It is a pair of functions `encode`/`decode`, passed in, that
  obey one law: every tally is written as non-empty text that parses back to
  itself (`Lawful`).
- `app.dfy` (module `App`): class `CashCounter`, the page's state. It has
  the handlers, the reset state machine, the persistence effects, and the
  wiring that connects the two sheets' callbacks to the handlers.
- `count_input_sheet.dfy` (module `CountInputSheet`): the clamp, the digit
  filter, decimal parsing and display, and the commit guard. Class `Session`
  is one open count-entry sheet. Its methods report the callbacks they fire
  (`onSave`, `onRemove`, `onClose`) as a returned sequence.
- `reset_confirm_sheet.dfy` (module `ResetConfirmSheet`): class `Dialog`,
  holding the "skip next time" checkbox.
- `language_context.dfy` (module `LanguageContext`): language validation,
  reading the saved language (primary key, then legacy key), and class
  `LanguageProvider`, which saves every change under both keys.

Behaviour the model follows from the code:

- `handleCountChange` stores any positive count exactly as given. It does
  not clamp to 9999. Counts stay at or below 9999 only because the sheet
  clamps every input and guards its commit (`App.CommitKeepsBounded`). A
  direct call with 10000 stores 10000.
- `performReset` removes the tally record. The persistence effect then runs
  because the tally changed, and writes the serialised empty tally. So after
  a reset the store holds a record that loads as empty; the record is not
  absent.
- Direct digit entry clamps out-of-range numbers. It never reports an error.
  The two error branches of `commit` cannot be reached from the sheet's
  inputs. The model still states them, over any integer (`CommitDecision`).
- A tally loaded from storage may contain keys outside the nine
  denominations and counts of 0 or less. Every reader ignores them
  (`EntriesIgnoreInactiveKeys`). Only maps that satisfy `WellFormed` satisfy
  the data-model invariant, and both updates preserve it.
- Two language sets coexist. The page (`src/App.tsx`) knows only `vi` and
  `zh`: it loads `"zh"` as Chinese and anything else as Vietnamese. The
  language provider knows `vi`, `en` and `zh`. Each is modelled as written.

## Model

| member | source | states |
|---|---|---|
| `Types.DenominationBounds` | src/lib/types.ts:1-10 | every denomination is a positive face value between 1000 and 500000 |
| `CashTally.DenominationOrder` | src/App.tsx:12-22 | the display list has nine distinct denominations in strictly descending order, and a value is in it exactly when it is a denomination |
| `CashTally.EntriesAreActiveCountsInOrder` | src/App.tsx:77-82 | `entries` holds a denomination iff it is one of the nine and its count is greater than 0; each entry carries the stored count; the entries are in strictly descending order |
| `CashTally.EntriesDependOnActiveCountsOnly` | src/App.tsx:77-92 | two tallies with the same active count for every denomination have the same entries and the same totals, because the derived values are recomputed from the map |
| `CashTally.EntriesIgnoreInactiveKeys` | src/App.tsx:77-82 | storing a key outside the set, or a count of 0 or less, leaves the entries as if the key were absent |
| `CashTally.TotalsAreSums` | src/App.tsx:84-92 | the reduce over the entries equals the sum, over all nine denominations, of the active count (note total) and of face value × active count (amount) |
| `CashTally.SetCount` | src/App.tsx:96-105 | a count greater than 0 is stored as given at d; a count of 0 or less deletes d; every other key is unchanged |
| `CashTally.RemoveDenom` | src/App.tsx:116-122 | d is absent afterwards; every other key is unchanged; removing an absent key changes nothing |
| `CashTally.RemoveDenomIdempotent` | src/App.tsx:116-122 | removing twice is removing once, and saving a count of 0 or less is the same as removing |
| `CashTally.UpdatesPreserveWellFormed` | src/App.tsx:96-122 | both updates keep a tally with only known denominations and positive counts in that shape; for such a tally the entries cover exactly the stored keys |
| `CashTally.TotalsAfterSetCount` | src/App.tsx:96-105 | after a save, the note total changes by the new active count minus the old one, and the amount changes by that difference times the face value |
| `CashTally.TotalsAfterRemove` | src/App.tsx:116-122 | after a removal, the denomination's notes and their value are taken out of both totals |
| `CashTally.EmptyTally` | src/App.tsx:133-139 | the empty tally that a reset leaves has no entries and zero totals |
| `CashTally.TotalsBounds` | src/App.tsx:124-125 | 1000 × notes ≤ amount ≤ 500000 × notes; the tally has no entries iff the note total is 0 iff the amount is 0, so the reset guard's two tests agree |
| `CashTally.CountingScenario` | src/App.tsx:84-122 | saving 3 × 1000 and 2 × 5000 gives 5 notes worth 13000, and removing the 1000s leaves 10000 |
| `CashStorage.KeysDistinct` | src/App.tsx:24-26 | the three storage keys are distinct, so writing one never overwrites another |
| `CashStorage.LoadCashState` | src/App.tsx:28-39 | an absent or empty record, a record that fails to parse, and a record that parses to null all load as the empty tally; otherwise the parsed tally is loaded |
| `CashStorage.TallyRoundTrip` | src/App.tsx:62-65 | a record written by the tally's persistence effect loads back as the tally it was written from |
| `CashStorage.ResetSkipRoundTrip` | src/App.tsx:41-44 | the flag written as `String(b)` loads back as b; any stored text other than `"true"` loads as false |
| `CashStorage.LanguageRoundTrip` | src/App.tsx:46-50 | the page's language written by its effect loads back unchanged; any stored value other than `"zh"` loads as Vietnamese |
| `CashStorage.ReloadRestores` | src/App.tsx:53-75 | from a store holding what the three effects last wrote, the three loaders restore the tally, the flag and the language |
| `App.CommitKeepsBounded` | src/components/CountInputSheet.tsx:69-81 | a count that the commit guard accepts, saved or removed, keeps every stored count between 1 and 9999 for a known denomination |
| `App.SubtotalJoinsTotal` | src/components/CountInputSheet.tsx:67 | the subtotal shown in the sheet is what a save adds to the page's amount, in place of the denomination's previous value |
| `App.CashCounter.constructor` | src/App.tsx:53-75 | start-up loads the tally, the flag and the language with their fallbacks, with nothing pending and no sheet open; the three effects then write all three back |
| `App.CashCounter.HandleCountChange` | src/App.tsx:96-105 | the tally becomes `SetCount` of the old tally and the record is rewritten; the flag, language, reset state and open sheet are unchanged |
| `App.CashCounter.HandleRemoveDenom` | src/App.tsx:116-122 | the tally becomes `RemoveDenom` of the old tally and the record is rewritten; nothing else changes |
| `App.CashCounter.PerformReset` | src/App.tsx:133-139 | the tally is empty, confirmation is no longer pending, and the store holds a record that loads as empty (removed, then rewritten by the effect) |
| `App.CashCounter.RequestReset` | src/App.tsx:124-131 | with no entries it is a no-op; with the skip flag set it clears the tally without entering confirm-pending; otherwise it enters confirm-pending and leaves the tally and store untouched |
| `App.CashCounter.ConfirmReset` | src/App.tsx:192-201 | the skip flag takes the dialog's checkbox value, the tally is cleared, and confirm-pending ends; the store holds the empty tally record and the new flag, written in the effects' declaration order after the tally record's removal |
| `App.CashCounter.CancelReset` | src/App.tsx:192-194 | confirm-pending ends; the tally, the flag and the store are unchanged |
| `App.CashCounter.OpenSheet` | src/App.tsx:164-184 | selecting a denomination opens a fresh sheet for it, in stepper mode with no error, whose pending count is the clamp of the stored count (0 when absent) |
| `App.CashCounter.OnSheetCallback` | src/App.tsx:181-190 | `onSave(c)` saves c for the active denomination, `onRemove` removes it, and `onClose` closes the sheet without touching the tally |
| `App.CashCounter.CommitSheet` | src/App.tsx:185-186 | an accepted count is saved for the active denomination and the sheet closes; a rejected one leaves the tally, the store and the open sheet, with the error set; the sheet's count and mode are kept either way |
| `App.CashCounter.DeleteFromSheet` | src/components/CountInputSheet.tsx:200-210 | the denomination is removed whatever count was pending, and the sheet closes with its count at 0 and its error and mode kept |
| `App.CashCounter.CancelSheet` | src/components/CountInputSheet.tsx:192-199 | the sheet closes and the tally and store are untouched |
| `App.CashCounter.SheetKeyDown` | src/components/CountInputSheet.tsx:41-50 | Escape closes the sheet like cancel; other keys change nothing |
| `App.CashCounter.ChangeLanguage` | src/App.tsx:72-75 | the language is set, and the language record is rewritten when the language changed |
| `App.SkipConfirmationScenario` | src/App.tsx:124-139 | after confirming with "skip next time" checked, a later reset request on a non-empty tally clears it without asking again |
| `CountInputSheet.Clamp` | src/components/CountInputSheet.tsx:17 | the result lies in [0, 9999]; it is the identity on values in range, 0 below and 9999 above |
| `CountInputSheet.StepperDisabledAtBounds` | src/components/CountInputSheet.tsx:127-150 | on an in-range count, −1 is a no-op exactly at 0 and +1 exactly at 9999, which is where the buttons are disabled; elsewhere they step by one |
| `CountInputSheet.KeepDigits` | src/components/CountInputSheet.tsx:166 | the filtered text consists of digits only and is no longer than the input |
| `CountInputSheet.KeepDigitsAppend` | src/components/CountInputSheet.tsx:166 | the filter distributes over concatenation, so it keeps each digit in order and drops each other character |
| `CountInputSheet.KeepDigitsOfDigits` | src/components/CountInputSheet.tsx:166 | text made only of digits passes the filter unchanged |
| `CountInputSheet.DecimalString` | src/components/CountInputSheet.tsx:163 | the decimal form of a count is non-empty, made of digits, and has no leading zero |
| `CountInputSheet.ParseDecimalString` | src/components/CountInputSheet.tsx:163-171 | parsing the decimal form of a number gives the number back |
| `CountInputSheet.InputValue` | src/components/CountInputSheet.tsx:165-172 | the count from any typed text lies in [0, 9999], and text with no digits gives 0 |
| `CountInputSheet.DisplayRoundTrip` | src/components/CountInputSheet.tsx:163-172 | the field's text for a count (empty for 0), fed back through the input handler, gives the same count |
| `CountInputSheet.InputIgnoresNonDigits` | src/components/CountInputSheet.tsx:165-172 | a non-digit typed anywhere into the field does not change the resulting count |
| `CountInputSheet.CommitDecision` | src/components/CountInputSheet.tsx:69-81 | over any integer: below 0 is the invalid-count error, above 9999 the maximum error, and every count in [0, 9999] is saved as it is |
| `CountInputSheet.Session.constructor` | src/components/CountInputSheet.tsx:27 | a new sheet's pending count is the clamp of the initial count, with no error, in stepper mode |
| `CountInputSheet.Session.InitialCountChanged` | src/components/CountInputSheet.tsx:37-39 | a new initial count resets the pending count to its clamp |
| `CountInputSheet.Session.ToggleInputMode` | src/components/CountInputSheet.tsx:117-123 | the header button switches between stepper and direct entry, keeping the count |
| `CountInputSheet.Session.AdjustCount` | src/components/CountInputSheet.tsx:83-85 | the pending count becomes the clamp of the old count plus the delta |
| `CountInputSheet.Session.PressDecrement` | src/components/CountInputSheet.tsx:128-135 | a press on the disabled-at-0 "−" button leaves the count at clamp(count − 1), so it stays in [0, 9999] |
| `CountInputSheet.Session.PressIncrement` | src/components/CountInputSheet.tsx:142-149 | a press on the disabled-at-9999 "+" button leaves the count at clamp(count + 1), so it stays in [0, 9999] |
| `CountInputSheet.Session.EditText` | src/components/CountInputSheet.tsx:165-172 | the pending count becomes `InputValue` of the typed text |
| `CountInputSheet.Session.Commit` | src/components/CountInputSheet.tsx:69-81 | a rejected count sets its error and fires nothing; an accepted one clears the error and fires `onSave(count)` once, then `onClose` |
| `CountInputSheet.Session.Delete` | src/components/CountInputSheet.tsx:200-210 | the count drops to 0 and `onRemove` then `onClose` fire; `onSave` never does |
| `CountInputSheet.Session.Cancel` | src/components/CountInputSheet.tsx:104-109 | the scrim, and the cancel button at line 196, fire `onClose` only |
| `CountInputSheet.Session.KeyDown` | src/components/CountInputSheet.tsx:41-50 | Escape fires `onClose`; any other key fires nothing |
| `CountInputSheet.Session.ShownSubtotal` | src/components/CountInputSheet.tsx:67 | the shown subtotal lies between 0 and 9999 × face value, and is 0 exactly when the pending count is 0 |
| `ResetConfirmSheet.Dialog.constructor` | src/components/ResetConfirmSheet.tsx:11 | `skipNext` starts false each time the dialog is created |
| `ResetConfirmSheet.Dialog.SetSkipNext` | src/components/ResetConfirmSheet.tsx:25-26 | the checkbox sets `skipNext` to its checked value |
| `ResetConfirmSheet.Dialog.Confirm` | src/components/ResetConfirmSheet.tsx:41 | confirm reports the current `skipNext` value |
| `ResetConfirmSheet.Dialog.Cancel` | src/components/ResetConfirmSheet.tsx:16 | the scrim, and the cancel button at line 34, report `onCancel` and never `onConfirm` |
| `LanguageContext.SomeCodeIs` | src/components/contexts/LanguagecContext.tsx:22-23 | the membership test holds iff some listed language has the given code |
| `LanguageContext.ValidLanguageCodes` | src/components/contexts/LanguagecContext.tsx:20-23 | a value is valid iff it is `"vi"`, `"en"` or `"zh"` |
| `LanguageContext.FromCode` | src/components/contexts/LanguagecContext.tsx:33 | a valid code names a language whose code it is |
| `LanguageContext.CodeRoundTrip` | src/components/contexts/LanguagecContext.tsx:20-23 | every language's code is valid and names that language again |
| `LanguageContext.GetSavedLanguageFallbacks` | src/components/contexts/LanguagecContext.tsx:25-40 | a failed read, a missing value, or an empty or invalid value yields `"vi"`; a valid saved code yields that language |
| `LanguageContext.LegacyOnlyWithoutPrimary` | src/components/contexts/LanguagecContext.tsx:31 | with the primary key present, even holding an invalid value, the legacy key is never consulted; without it, the legacy value is read as if it were primary |
| `LanguageContext.WithLanguage` | src/components/contexts/LanguagecContext.tsx:42-53 | a save writes the same code under both the primary and the legacy key; every other key keeps its presence and its value |
| `LanguageContext.SaveThenGet` | src/components/contexts/LanguagecContext.tsx:42-53 | after a save of l, reading the saved language gives l |
| `LanguageContext.ChosenLanguage` | src/components/contexts/LanguagecContext.tsx:62-69 | `setLanguage` takes a valid code as given, and anything else becomes `"vi"` |
| `LanguageContext.LanguageProvider.constructor` | src/components/contexts/LanguagecContext.tsx:55-60 | the provider starts with the saved language (Vietnamese when the store is present but fails on read), and the save effect writes it back under both keys |
| `LanguageContext.LanguageProvider.SaveLanguage` | src/components/contexts/LanguagecContext.tsx:42-53 | both keys get the code; with no usable store nothing is written |
| `LanguageContext.LanguageProvider.SetLanguage` | src/components/contexts/LanguagecContext.tsx:58-69 | the language becomes the chosen one, and every change is saved under both keys, so reading it back gives the current language |

## Left out

- Rendering, styles, and the layout of the page and its dialogs are not modelled. Nor is the sheet's input focus effect (src/components/CountInputSheet.tsx:52-56).
- Press-and-hold auto-repeat of the stepper (src/components/CountInputSheet.tsx:87-100, 228-247) is left out. It is timer-driven repetition of `AdjustCount`, and each repetition is modelled by that method.
- The "recently changed denomination" highlight timer (src/App.tsx:106-113) is left out. It is timing only and touches no modelled state.
- The animated total (src/hooks/useAnimatedNumber.ts) is left out. It is floating-point easing driven by animation frames.
- Currency and number formatting, and the copy tables (src/lib/currency.ts, src/lib/i18n.ts, src/i18n/translations.ts), are left out. They are locale lookups and foreign formatting calls.
- JSON serialisation is left out. `JSON.stringify` and `JSON.parse` are the `encode`/`decode` parameters of `App.CashCounter`, constrained only by `CashStorage.Lawful`.
- The tally map is `map<int, int>`. Stored keys that are not integers, and counts that are fractions, strings or other non-integer JSON values, are not modelled; the readers ignore non-integer keys anyway. A parsed JSON value that is not an object is modelled as the empty tally.
- `CountInputSheet.CommitDecision`: the `Number.isNaN` branch is not modelled, because counts are integers. Parsing a non-empty digit string never yields NaN.
- Very long digit strings are parsed as exact integers. In the browser they become large floating-point numbers. Both clamp to 9999, so the resulting count is the same.
- The server-rendering branches (`typeof window === "undefined"`) of the page's loaders and effects are left out; the page is modelled in a browser with a store. In the language provider, a missing store is modelled by `available`, and a store that is present but fails on read by `readable` (in `GetSavedLanguage` and in the provider's constructor).
- The page's loaders do not model a store that throws on read. `loadCashState` would fall back to empty in that case; `loadResetSkip` and `loadLanguage` do not catch it.
- `LanguageContext.LanguageProvider.SaveLanguage`: a write that fails after the primary key was written is not modelled. Such a write leaves only the primary key updated. Write failures are modelled only as the whole store being unavailable.
- The page and the language provider share one browser store. Each class holds its own copy of it. Their keys are disjoint, so neither writes what the other reads.
- React's batching is not modelled. Each handler is one atomic step, followed by the effects its state change triggers, in declaration order.
- Error containment and bootstrap (src/components/ErrorBoundary.tsx, src/main.tsx, src/serviceWorkerRegistration.ts) and the pure view components are left out. They are presentation.
