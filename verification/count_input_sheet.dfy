/** The count-entry sheet of src/components/CountInputSheet.tsx: a pending
    count kept in [0, 9999], changed by a ±1 stepper or by direct digit
    entry, and three exits (commit, delete, cancel) that report to the page
    through callbacks. */
module CountInputSheet {
  import opened Types

  const MaxCount := 9999

  function Min(a: int, b: int): int { if a < b then a else b }

  function Max(a: int, b: int): int { if a > b then a else b }

  /** `clamp`: the value pulled into [0, 9999]. */
  function Clamp(value: int): (r: int)
    ensures 0 <= r <= MaxCount
    ensures 0 <= value <= MaxCount ==> r == value
    ensures value < 0 ==> r == 0
    ensures value > MaxCount ==> r == MaxCount
  {
    Max(0, Min(MaxCount, value))
  }

  /** The stepper buttons are disabled (decrement at 0, increment at 9999 or
      more) exactly where a press would leave an in-range count as it is. */
  lemma StepperDisabledAtBounds(c: int)
    requires 0 <= c <= MaxCount
    ensures Clamp(c - 1) == c <==> c == 0
    ensures Clamp(c + 1) == c <==> c >= MaxCount
    ensures c > 0 ==> Clamp(c - 1) == c - 1
    ensures c < MaxCount ==> Clamp(c + 1) == c + 1
  {
  }

  // ---------------------------------------------------------------------
  // Direct entry: digit filter, decimal parse and display

  predicate IsDigit(c: char) {
    '0' <= c <= '9'
  }

  predicate AllDigits(s: string) {
    forall i :: 0 <= i < |s| ==> IsDigit(s[i])
  }

  /** `value.replace(/[^0-9]/g, "")`: the digits of the text, in order. */
  function KeepDigits(s: string): (r: string)
    ensures AllDigits(r)
    ensures |r| <= |s|
  {
    if s == [] then []
    else (if IsDigit(s[0]) then [s[0]] else []) + KeepDigits(s[1..])
  }

  /** The filter distributes over concatenation, so it keeps every digit in
      its place and drops every other character. */
  lemma {:induction false} KeepDigitsAppend(a: string, b: string)
    ensures KeepDigits(a + b) == KeepDigits(a) + KeepDigits(b)
  {
    if a == [] {
      assert a + b == b;
    } else {
      assert (a + b)[0] == a[0] && (a + b)[1..] == a[1..] + b;
      KeepDigitsAppend(a[1..], b);
    }
  }

  /** Text made of digits only passes the filter unchanged; filtering twice
      is filtering once. */
  lemma {:induction false} KeepDigitsOfDigits(s: string)
    requires AllDigits(s)
    ensures KeepDigits(s) == s
  {
    if s != [] {
      KeepDigitsOfDigits(s[1..]);
    }
  }

  function DigitValue(c: char): nat
    requires IsDigit(c)
  {
    c as int - '0' as int
  }

  function DigitChar(n: nat): char
    requires n < 10
  {
    (n + '0' as int) as char
  }

  /** `Number.parseInt(raw, 10)` on a non-empty string of decimal digits. */
  function ParseDecimal(s: string): nat
    requires AllDigits(s)
  {
    if s == [] then 0 else 10 * ParseDecimal(s[..|s| - 1]) + DigitValue(s[|s| - 1])
  }

  /** `n.toString()` for a non-negative integer: its decimal digits, without
      leading zeros. */
  function DecimalString(n: nat): (s: string)
    ensures |s| > 0 && AllDigits(s)
    ensures n > 0 ==> s[0] != '0'
  {
    if n < 10 then [DigitChar(n)] else DecimalString(n / 10) + [DigitChar(n % 10)]
  }

  /** Parsing the decimal form of a number gives the number back. */
  lemma {:induction false} ParseDecimalString(n: nat)
    ensures ParseDecimal(DecimalString(n)) == n
  {
    var s := DecimalString(n);
    if n >= 10 {
      ParseDecimalString(n / 10);
      assert s[..|s| - 1] == DecimalString(n / 10);
    }
  }

  /** What the direct-entry field shows for a count: empty for 0 (the
      placeholder "0" is shown instead), the decimal form otherwise. */
  function DisplayText(count: nat): string {
    if count == 0 then "" else DecimalString(count)
  }

  /** The `onChange` handler of the direct-entry field: non-digits are
      dropped, empty digit text means 0, and the parsed number is clamped. */
  function InputValue(text: string): (c: int)
    ensures 0 <= c <= MaxCount
    ensures KeepDigits(text) == [] ==> c == 0
  {
    var raw := KeepDigits(text);
    if raw == [] then 0 else Clamp(ParseDecimal(raw))
  }

  /** Feeding the shown text back through the input handler gives the same
      count, for every count the sheet can hold. */
  lemma DisplayRoundTrip(count: nat)
    requires count <= MaxCount
    ensures InputValue(DisplayText(count)) == count
  {
    if count > 0 {
      KeepDigitsOfDigits(DecimalString(count));
      ParseDecimalString(count);
    }
  }

  /** A character that is not a digit, typed anywhere into the field,
      changes nothing. */
  lemma InputIgnoresNonDigits(before: string, c: char, after: string)
    requires !IsDigit(c)
    ensures InputValue(before + [c] + after) == InputValue(before + after)
  {
    KeepDigitsAppend(before + [c], after);
    KeepDigitsAppend(before, [c]);
    KeepDigitsAppend(before, after);
    assert [c][1..] == [];
    assert KeepDigits([c]) == [];
    assert KeepDigits(before + [c]) == KeepDigits(before);
    assert KeepDigits(before + [c] + after) == KeepDigits(before + after);
  }

  /** The subtotal the sheet shows: pending count times face value. */
  function Subtotal(count: int, denom: Denomination): int {
    count * denom
  }

  // ---------------------------------------------------------------------
  // Commit and the exits

  datatype SheetError = InvalidCount | MaxCountExceeded

  /** The callbacks the sheet invokes on the page. */
  datatype Callback = OnSave(count: int) | OnRemove | OnClose

  datatype CommitOutcome = Save(count: int) | Reject(error: SheetError)

  /** The guard of `commit`, over any integer: a negative count is an
      invalid count, a count above 9999 exceeds the maximum, anything else
      is saved as it is. */
  function CommitDecision(count: int): (r: CommitOutcome)
    ensures r.Save? <==> 0 <= count <= MaxCount
    ensures r.Save? ==> r.count == count
    ensures r == Reject(InvalidCount) <==> count < 0
    ensures r == Reject(MaxCountExceeded) <==> count > MaxCount
  {
    if count < 0 then Reject(InvalidCount)
    else if count > MaxCount then Reject(MaxCountExceeded)
    else Save(count)
  }

  /** One open sheet for one denomination. */
  class Session {
    const denom: Denomination
    var count: int
    var error: Option<SheetError>
    var showStepper: bool

    /** Every path that sets the pending count clamps it. */
    ghost predicate Valid()
      reads this
    {
      0 <= count <= MaxCount
    }

    /** Opening the sheet: the pending count starts as the clamped initial
        count, with no error, in stepper mode. */
    constructor(denom: Denomination, initialCount: int)
      ensures Valid()
      ensures this.denom == denom && count == Clamp(initialCount)
      ensures error == None && showStepper
    {
      this.denom := denom;
      count := Clamp(initialCount);
      error := None;
      showStepper := true;
    }

    /** The effect on a new `initialCount`: the pending count is reset to its
        clamp. */
    method InitialCountChanged(initialCount: int)
      modifies this
      ensures Valid() && count == Clamp(initialCount)
      ensures error == old(error) && showStepper == old(showStepper)
    {
      count := Clamp(initialCount);
    }

    /** The header button switches between stepper and direct entry. */
    method ToggleInputMode()
      modifies this
      ensures showStepper == !old(showStepper)
      ensures count == old(count) && error == old(error)
    {
      showStepper := !showStepper;
    }

    /** `adjustCount`: add the delta and clamp. */
    method AdjustCount(delta: int)
      modifies this
      ensures Valid() && count == Clamp(old(count) + delta)
      ensures error == old(error) && showStepper == old(showStepper)
    {
      count := Clamp(count + delta);
    }

    /** A press on the "−" button, which is disabled at 0. */
    method PressDecrement()
      requires Valid()
      modifies this
      ensures Valid() && count == Clamp(old(count) - 1)
      ensures error == old(error) && showStepper == old(showStepper)
    {
      if count == 0 {
        return;
      }
      AdjustCount(-1);
    }

    /** A press on the "+" button, which is disabled at 9999 or more. */
    method PressIncrement()
      requires Valid()
      modifies this
      ensures Valid() && count == Clamp(old(count) + 1)
      ensures error == old(error) && showStepper == old(showStepper)
    {
      if count >= MaxCount {
        return;
      }
      AdjustCount(1);
    }

    /** A change of the direct-entry field's text. */
    method EditText(text: string)
      modifies this
      ensures Valid() && count == InputValue(text)
      ensures error == old(error) && showStepper == old(showStepper)
    {
      var raw := KeepDigits(text);
      if raw == [] {
        count := 0;
      } else {
        count := Clamp(ParseDecimal(raw));
      }
    }

    /** `commit`: on a rejected count it sets the error and fires nothing;
        otherwise it clears the error, fires `onSave(count)` once and then
        `onClose`. */
    method Commit() returns (fired: seq<Callback>)
      modifies this
      ensures count == old(count) && showStepper == old(showStepper)
      ensures match CommitDecision(count)
        case Save(c) => error == None && fired == [OnSave(c), OnClose]
        case Reject(e) => error == Some(e) && fired == []
    {
      if count < 0 {
        error := Some(InvalidCount);
        return [];
      }
      if count > MaxCount {
        error := Some(MaxCountExceeded);
        return [];
      }
      error := None;
      fired := [OnSave(count), OnClose];
    }

    /** The delete button: the pending count drops to 0, then `onRemove` and
        `onClose` fire; `onSave` never does. */
    method Delete() returns (fired: seq<Callback>)
      modifies this
      ensures Valid() && count == 0
      ensures fired == [OnRemove, OnClose]
      ensures error == old(error) && showStepper == old(showStepper)
    {
      count := 0;
      fired := [OnRemove, OnClose];
    }

    /** The cancel button and the scrim: only `onClose` fires. */
    method Cancel() returns (fired: seq<Callback>)
      ensures fired == [OnClose]
      ensures forall c :: c in fired ==> !c.OnSave? && !c.OnRemove?
    {
      fired := [OnClose];
    }

    /** A key press anywhere on the page while the sheet is open: Escape
        closes the sheet, every other key is ignored. */
    method KeyDown(key: string) returns (fired: seq<Callback>)
      ensures key == "Escape" ==> fired == [OnClose]
      ensures key != "Escape" ==> fired == []
    {
      if key == "Escape" {
        fired := [OnClose];
      } else {
        fired := [];
      }
    }

    /** The subtotal line of the sheet. */
    function ShownSubtotal(): (r: int)
      reads this
      requires Valid()
      ensures 0 <= r <= MaxCount * denom
      ensures r == 0 <==> count == 0
    {
      DenominationBounds(denom);
      Subtotal(count, denom)
    }
  }
}
