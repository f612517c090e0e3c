/** The counter page of src/App.tsx as a state holder: the tally, the
    persisted "skip confirmation" flag, the language, the reset
    confirm-pending flag, the denomination being edited, and the browser
    store. Each handler applies its state change and then the persistence
    effects that the change triggers. */
module App {
  import opened Types
  import opened CashTally
  import opened CashStorage
  import CountInputSheet
  import ResetConfirmSheet

  /** A tally every count of which came through the sheet: only known
      denominations, each with a count in [1, 9999]. */
  ghost predicate Bounded(s: CashState) {
    WellFormed(s) && forall k :: k in s ==> s[k] <= CountInputSheet.MaxCount
  }

  /** A count the sheet lets through keeps such a tally bounded: the page
      stores the committed count without a clamp of its own, and the sheet's
      guard is what keeps counts at 9999 or less. */
  lemma CommitKeepsBounded(s: CashState, d: Denomination, c: int)
    requires Bounded(s)
    requires CountInputSheet.CommitDecision(c).Save?
    ensures Bounded(SetCount(s, d, c)) && Bounded(RemoveDenom(s, d))
  {
    UpdatesPreserveWellFormed(s, d, c);
  }

  /** The subtotal the sheet shows is what a save adds to the page's amount
      in place of the denomination's previous value. */
  lemma SubtotalJoinsTotal(s: CashState, d: Denomination, c: int)
    requires CountInputSheet.CommitDecision(c).Save?
    ensures TotalAmount(SetCount(s, d, c)) ==
      TotalAmount(s) - d * Positive(CountOf(s, d)) + CountInputSheet.Subtotal(c, d)
  {
    TotalsAfterSetCount(s, d, c);
  }

  class CashCounter {
    const encode: CashState -> string
    const decode: string -> Parsed
    var cash: CashState
    var skipResetConfirm: bool
    var language: AppLanguage
    var showResetConfirm: bool
    var activeDenom: Option<Denomination>
    var storage: Storage

    /** The serialiser and parser agree, and the store holds what the three
        persistence effects last wrote. */
    ghost predicate Valid()
      reads this
    {
      Lawful(encode, decode) && Persisted(storage, encode, cash, skipResetConfirm, language)
    }

    /** Mount: the three states are loaded from the store, then the three
        persistence effects write them back. */
    constructor(initial: Storage, encode: CashState -> string, decode: string -> Parsed)
      requires Lawful(encode, decode)
      ensures Valid()
      ensures this.encode == encode && this.decode == decode
      ensures cash == LoadCashState(initial, decode)
      ensures skipResetConfirm == LoadResetSkip(initial)
      ensures language == LoadLanguage(initial)
      ensures !showResetConfirm && activeDenom == None
      ensures storage == initial[StorageKey := encode(cash)][ResetSkipKey := BoolString(skipResetConfirm)]
                                [LanguageKey := AppLanguageCode(language)]
    {
      var c := LoadCashState(initial, decode);
      var skip := LoadResetSkip(initial);
      var lang := LoadLanguage(initial);
      this.encode := encode;
      this.decode := decode;
      cash := c;
      skipResetConfirm := skip;
      language := lang;
      showResetConfirm := false;
      activeDenom := None;
      storage := initial[StorageKey := encode(c)][ResetSkipKey := BoolString(skip)][LanguageKey := AppLanguageCode(lang)];
      KeysDistinct();
    }

    /** `handleCountChange` and the tally's persistence effect. */
    method HandleCountChange(d: Denomination, count: int)
      requires Valid()
      modifies this
      ensures Valid()
      ensures cash == SetCount(old(cash), d, count)
      ensures storage == old(storage)[StorageKey := encode(cash)]
      ensures skipResetConfirm == old(skipResetConfirm) && language == old(language)
      ensures showResetConfirm == old(showResetConfirm) && activeDenom == old(activeDenom)
    {
      cash := SetCount(cash, d, count);
      storage := storage[StorageKey := encode(cash)];
      KeysDistinct();
    }

    /** `handleRemoveDenom` and the tally's persistence effect. */
    method HandleRemoveDenom(d: Denomination)
      requires Valid()
      modifies this
      ensures Valid()
      ensures cash == RemoveDenom(old(cash), d)
      ensures storage == old(storage)[StorageKey := encode(cash)]
      ensures skipResetConfirm == old(skipResetConfirm) && language == old(language)
      ensures showResetConfirm == old(showResetConfirm) && activeDenom == old(activeDenom)
    {
      cash := RemoveDenom(cash, d);
      storage := storage[StorageKey := encode(cash)];
      KeysDistinct();
    }

    /** `performReset`: the tally is emptied and its record removed, but the
        persistence effect then writes the empty tally, so the store ends up
        holding a record that loads as empty. */
    method PerformReset()
      requires Valid()
      modifies this
      ensures Valid()
      ensures cash == map[] && !showResetConfirm
      ensures storage == old(storage)[StorageKey := encode(map[])]
      ensures LoadCashState(storage, decode) == map[]
      ensures skipResetConfirm == old(skipResetConfirm) && language == old(language)
      ensures activeDenom == old(activeDenom)
    {
      cash := map[];
      storage := storage - {StorageKey};
      showResetConfirm := false;
      storage := storage[StorageKey := encode(cash)];
      assert storage == old(storage)[StorageKey := encode(map[])];
      KeysDistinct();
      TallyRoundTrip(old(storage), encode, decode, map[]);
    }

    /** `handleResetRequest`: nothing to reset is a no-op; with the skip flag
        set the tally is cleared at once; otherwise the confirmation is
        asked for and the tally is left as it is. */
    method RequestReset()
      requires Valid()
      modifies this
      ensures Valid()
      ensures old(Entries(cash)) == [] ==>
        cash == old(cash) && showResetConfirm == old(showResetConfirm) && storage == old(storage)
      ensures old(Entries(cash)) != [] && old(skipResetConfirm) ==>
        cash == map[] && !showResetConfirm && storage == old(storage)[StorageKey := encode(map[])]
      ensures old(Entries(cash)) != [] && !old(skipResetConfirm) ==>
        cash == old(cash) && showResetConfirm && storage == old(storage)
      ensures skipResetConfirm == old(skipResetConfirm) && language == old(language)
      ensures activeDenom == old(activeDenom)
    {
      TotalsBounds(cash);
      if |Entries(cash)| == 0 && TotalAmount(cash) == 0 {
        return;
      }
      if skipResetConfirm {
        PerformReset();
      } else {
        showResetConfirm := true;
      }
    }

    /** The dialog's `onConfirm`: the skip flag takes the dialog's checkbox
        value and the tally is reset. In the store, the reset removes the
        tally record, then the effects run in declaration order: the empty
        tally is written, then the flag if it changed. */
    method ConfirmReset(dialog: ResetConfirmSheet.Dialog)
      requires Valid() && showResetConfirm
      modifies this
      ensures Valid()
      ensures cash == map[] && !showResetConfirm
      ensures skipResetConfirm == dialog.skipNext
      ensures storage == old(storage)[StorageKey := encode(map[])][ResetSkipKey := BoolString(dialog.skipNext)]
      ensures language == old(language) && activeDenom == old(activeDenom)
    {
      var fired := dialog.Confirm();
      var skipNext := fired.skipNext;
      KeysDistinct();
      PerformReset();
      if skipNext != skipResetConfirm {
        skipResetConfirm := skipNext;
        storage := storage[ResetSkipKey := BoolString(skipNext)];
      }
    }

    /** The dialog's `onCancel`: the dialog closes and nothing else changes. */
    method CancelReset(dialog: ResetConfirmSheet.Dialog)
      requires Valid() && showResetConfirm
      modifies this
      ensures Valid() && !showResetConfirm
      ensures cash == old(cash) && skipResetConfirm == old(skipResetConfirm)
      ensures storage == old(storage) && language == old(language) && activeDenom == old(activeDenom)
    {
      var fired := dialog.Cancel();
      if fired == ResetConfirmSheet.OnCancel {
        showResetConfirm := false;
      }
    }

    /** Selecting a denomination opens the sheet on its stored count. */
    method OpenSheet(d: Denomination) returns (sheet: CountInputSheet.Session)
      requires Valid()
      modifies this
      ensures Valid() && activeDenom == Some(d)
      ensures fresh(sheet) && sheet.Valid() && sheet.denom == d
      ensures sheet.count == CountInputSheet.Clamp(CountOf(cash, d)) && sheet.error == None
      ensures sheet.showStepper
      ensures cash == old(cash) && storage == old(storage) && skipResetConfirm == old(skipResetConfirm)
      ensures language == old(language) && showResetConfirm == old(showResetConfirm)
    {
      activeDenom := Some(d);
      sheet := new CountInputSheet.Session(d, CountOf(cash, d));
    }

    /** The three callbacks the page hands to the open sheet: `onSave` and
        `onRemove` go to the handlers for the active denomination, `onClose`
        closes the sheet. */
    method OnSheetCallback(cb: CountInputSheet.Callback)
      requires Valid() && activeDenom.Some?
      modifies this
      ensures Valid()
      ensures match cb
        case OnSave(c) =>
          cash == SetCount(old(cash), old(activeDenom).value, c) && activeDenom == old(activeDenom)
          && storage == old(storage)[StorageKey := encode(cash)]
        case OnRemove =>
          cash == RemoveDenom(old(cash), old(activeDenom).value) && activeDenom == old(activeDenom)
          && storage == old(storage)[StorageKey := encode(cash)]
        case OnClose =>
          cash == old(cash) && activeDenom == None && storage == old(storage)
      ensures skipResetConfirm == old(skipResetConfirm) && language == old(language)
      ensures showResetConfirm == old(showResetConfirm)
    {
      match cb
      case OnSave(c) => HandleCountChange(activeDenom.value, c);
      case OnRemove => HandleRemoveDenom(activeDenom.value);
      case OnClose => activeDenom := None;
    }

    /** The sheet's confirm button: a count the guard accepts is saved for
        the active denomination and the sheet closes; a rejected count
        leaves the tally, the store and the open sheet as they were. */
    method CommitSheet(sheet: CountInputSheet.Session) returns (outcome: CountInputSheet.CommitOutcome)
      requires Valid() && activeDenom == Some(sheet.denom)
      modifies this, sheet
      ensures Valid()
      ensures outcome == CountInputSheet.CommitDecision(old(sheet.count)) && sheet.count == old(sheet.count)
      ensures sheet.showStepper == old(sheet.showStepper)
      ensures outcome.Save? ==>
        cash == SetCount(old(cash), sheet.denom, outcome.count) && activeDenom == None
        && storage == old(storage)[StorageKey := encode(cash)] && sheet.error == None
      ensures outcome.Reject? ==>
        cash == old(cash) && activeDenom == old(activeDenom) && storage == old(storage)
        && sheet.error == Some(outcome.error)
      ensures skipResetConfirm == old(skipResetConfirm) && language == old(language)
      ensures showResetConfirm == old(showResetConfirm)
    {
      outcome := CountInputSheet.CommitDecision(sheet.count);
      var fired := sheet.Commit();
      if fired != [] {
        OnSheetCallback(fired[0]);
        OnSheetCallback(fired[1]);
      }
    }

    /** The sheet's delete button: the denomination is removed and the sheet
        closes, whatever count was pending. */
    method DeleteFromSheet(sheet: CountInputSheet.Session)
      requires Valid() && activeDenom == Some(sheet.denom)
      modifies this, sheet
      ensures Valid()
      ensures cash == RemoveDenom(old(cash), sheet.denom) && activeDenom == None
      ensures storage == old(storage)[StorageKey := encode(cash)] && sheet.count == 0
      ensures sheet.error == old(sheet.error) && sheet.showStepper == old(sheet.showStepper)
      ensures skipResetConfirm == old(skipResetConfirm) && language == old(language)
      ensures showResetConfirm == old(showResetConfirm)
    {
      var fired := sheet.Delete();
      OnSheetCallback(fired[0]);
      OnSheetCallback(fired[1]);
    }

    /** The sheet's cancel button or scrim: the sheet closes and the tally
        is untouched. */
    method CancelSheet(sheet: CountInputSheet.Session)
      requires Valid() && activeDenom == Some(sheet.denom)
      modifies this
      ensures Valid() && activeDenom == None
      ensures cash == old(cash) && storage == old(storage)
      ensures skipResetConfirm == old(skipResetConfirm) && language == old(language)
      ensures showResetConfirm == old(showResetConfirm)
    {
      var fired := sheet.Cancel();
      OnSheetCallback(fired[0]);
    }

    /** A key press while the sheet is open: Escape closes it like cancel,
        other keys change nothing. */
    method SheetKeyDown(sheet: CountInputSheet.Session, key: string)
      requires Valid() && activeDenom == Some(sheet.denom)
      modifies this
      ensures Valid()
      ensures activeDenom == if key == "Escape" then None else old(activeDenom)
      ensures cash == old(cash) && storage == old(storage)
      ensures skipResetConfirm == old(skipResetConfirm) && language == old(language)
      ensures showResetConfirm == old(showResetConfirm)
    {
      var fired := sheet.KeyDown(key);
      if fired != [] {
        OnSheetCallback(fired[0]);
      }
    }

    /** The page's language setter and its persistence effect, which runs
        only when the language changed. */
    method ChangeLanguage(l: AppLanguage)
      requires Valid()
      modifies this
      ensures Valid() && language == l
      ensures storage == if l != old(language) then old(storage)[LanguageKey := AppLanguageCode(l)] else old(storage)
      ensures cash == old(cash) && skipResetConfirm == old(skipResetConfirm)
      ensures showResetConfirm == old(showResetConfirm) && activeDenom == old(activeDenom)
    {
      KeysDistinct();
      if l != language {
        language := l;
        storage := storage[LanguageKey := AppLanguageCode(l)];
      }
    }
  }

  /** Confirming with "skip next time" checked makes the next reset request
      on a non-empty tally clear it at once, without asking again. */
  method SkipConfirmationScenario(app: CashCounter, dialog: ResetConfirmSheet.Dialog, d: Denomination, c: int)
    requires app.Valid() && app.showResetConfirm && c > 0
    modifies app, dialog
    ensures app.Valid() && app.cash == map[] && !app.showResetConfirm && app.skipResetConfirm
  {
    dialog.SetSkipNext(true);
    app.ConfirmReset(dialog);
    app.HandleCountChange(d, c);
    EntriesAreActiveCountsInOrder(app.cash);
    assert d in Denoms(Entries(app.cash));
    app.RequestReset();
  }
}
