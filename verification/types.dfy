/** The data model of the cash counter: the closed set of note denominations,
    the partial tally map and one bill entry (src/lib/types.ts). */
module Types {

  datatype Option<+T> = None | Some(value: T)

  /** The nine note face values the counter knows about. */
  predicate IsDenomination(d: int) {
    d == 1000 || d == 2000 || d == 5000 || d == 10000 || d == 20000
    || d == 50000 || d == 100000 || d == 200000 || d == 500000
  }

  type Denomination = d: int | IsDenomination(d) witness 1000

  /** The tally: a partial map from denomination to note count. A map decoded
      from storage may hold keys outside the set and counts of 0 or less;
      every reader ignores those. */
  type CashState = map<int, int>

  /** One active line of the tally. */
  datatype BillEntry = BillEntry(denom: Denomination, count: int)

  /** A missing key reads as 0 (`cashState[denom] ?? 0`). */
  function CountOf(s: CashState, d: int): int {
    if d in s then s[d] else 0
  }

  /** The part of a count that contributes to the totals: counts of 0 or
      less are not active entries. */
  function Positive(c: int): nat {
    if c > 0 then c else 0
  }

  /** Every denomination is a positive face value between 1000 and 500000. */
  lemma DenominationBounds(d: Denomination)
    ensures 1000 <= d <= 500000
  {
    assert IsDenomination(d);
  }
}
