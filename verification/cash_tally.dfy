/** The pure part of the tally store in src/App.tsx: the display order of the
    denominations, the derived entry list and totals (recomputed from the map,
    never stored), and the two map updates the count handlers apply. */
module CashTally {
  import opened Types

  /** The order in which denominations are listed, largest first. */
  const Denominations: seq<Denomination> :=
    [500000, 200000, 100000, 50000, 20000, 10000, 5000, 2000, 1000]

  predicate Descending(ds: seq<int>) {
    forall i, j :: 0 <= i < j < |ds| ==> ds[i] > ds[j]
  }

  predicate Distinct(ds: seq<int>) {
    forall i, j :: 0 <= i < j < |ds| ==> ds[i] != ds[j]
  }

  /** The ordered list holds each of the nine denominations exactly once,
      strictly descending. */
  lemma DenominationOrder()
    ensures |Denominations| == 9
    ensures Descending(Denominations) && Distinct(Denominations)
    ensures forall d :: d in Denominations <==> IsDenomination(d)
  {
  }

  // ---------------------------------------------------------------------
  // Derived entries and totals

  /** The filter/map over a list of denominations: one entry per
      denomination whose count is greater than 0, in list order. */
  function EntriesOver(ds: seq<Denomination>, s: CashState): seq<BillEntry> {
    if ds == [] then []
    else if CountOf(s, ds[0]) > 0 then [BillEntry(ds[0], CountOf(s, ds[0]))] + EntriesOver(ds[1..], s)
    else EntriesOver(ds[1..], s)
  }

  /** `entries`: the active lines of the tally, in display order. */
  function Entries(s: CashState): seq<BillEntry> {
    EntriesOver(Denominations, s)
  }

  /** The denominations of a list of entries, in order. */
  function Denoms(es: seq<BillEntry>): (ds: seq<int>)
    ensures |ds| == |es|
    ensures forall i :: 0 <= i < |es| ==> ds[i] == es[i].denom
  {
    if es == [] then [] else [es[0].denom] + Denoms(es[1..])
  }

  /** The number of notes over a list of entries: the sum of their counts. */
  function SumCounts(es: seq<BillEntry>): int {
    if es == [] then 0 else es[0].count + SumCounts(es[1..])
  }

  /** The value of a list of entries: the sum of count times face value. */
  function SumAmounts(es: seq<BillEntry>): int {
    if es == [] then 0 else es[0].count * es[0].denom + SumAmounts(es[1..])
  }

  function TotalNotes(s: CashState): int {
    SumCounts(Entries(s))
  }

  function TotalAmount(s: CashState): int {
    SumAmounts(Entries(s))
  }

  /** Reference definition of the note total: the active count of every
      listed denomination, added up, with no filtering step. */
  function NotesOver(ds: seq<Denomination>, s: CashState): nat {
    if ds == [] then 0 else Positive(CountOf(s, ds[0])) + NotesOver(ds[1..], s)
  }

  /** Reference definition of the amount: face value times active count,
      added up over the listed denominations. */
  function AmountOver(ds: seq<Denomination>, s: CashState): nat {
    if ds == [] then 0 else ds[0] * Positive(CountOf(s, ds[0])) + AmountOver(ds[1..], s)
  }

  lemma {:induction false} EntriesOverShape(ds: seq<Denomination>, s: CashState)
    ensures forall i :: 0 <= i < |EntriesOver(ds, s)| ==>
      EntriesOver(ds, s)[i].count > 0 && EntriesOver(ds, s)[i].count == CountOf(s, EntriesOver(ds, s)[i].denom)
    ensures forall d :: d in Denoms(EntriesOver(ds, s)) <==> d in ds && CountOf(s, d) > 0
    ensures Descending(ds) ==> Descending(Denoms(EntriesOver(ds, s)))
  {
    if ds != [] {
      EntriesOverShape(ds[1..], s);
      var tail := EntriesOver(ds[1..], s);
      assert forall d :: d in ds <==> d == ds[0] || d in ds[1..];
      if CountOf(s, ds[0]) > 0 {
        var e := BillEntry(ds[0], CountOf(s, ds[0]));
        assert ([e] + tail)[1..] == tail;
        assert Denoms([e] + tail) == [ds[0]] + Denoms(tail);
        if Descending(ds) {
          forall j | 0 <= j < |Denoms(tail)|
            ensures ds[0] > Denoms(tail)[j]
          {
            assert Denoms(tail)[j] in Denoms(tail);
            var k :| 0 <= k < |ds[1..]| && ds[1..][k] == Denoms(tail)[j];
            assert ds[k + 1] == Denoms(tail)[j];
          }
        }
      }
    }
  }

  /** `entries` lists exactly the denominations with a count greater than 0,
      each with its stored count, in strictly descending order; keys outside
      the set and counts of 0 or less never appear. */
  lemma EntriesAreActiveCountsInOrder(s: CashState)
    ensures forall i :: 0 <= i < |Entries(s)| ==>
      Entries(s)[i].count > 0 && Entries(s)[i].count == CountOf(s, Entries(s)[i].denom)
    ensures forall d :: d in Denoms(Entries(s)) <==> IsDenomination(d) && CountOf(s, d) > 0
    ensures Descending(Denoms(Entries(s)))
  {
    DenominationOrder();
    EntriesOverShape(Denominations, s);
  }

  lemma {:induction false} EntriesOverFrame(ds: seq<Denomination>, s: CashState, t: CashState)
    requires forall d :: d in ds ==> Positive(CountOf(s, d)) == Positive(CountOf(t, d))
    ensures EntriesOver(ds, s) == EntriesOver(ds, t)
  {
    if ds != [] {
      assert ds[0] in ds;
      EntriesOverFrame(ds[1..], s, t);
    }
  }

  /** The entries, and so both totals, depend on nothing but the active count
      of each denomination. */
  lemma EntriesDependOnActiveCountsOnly(s: CashState, t: CashState)
    requires forall d :: IsDenomination(d) ==> Positive(CountOf(s, d)) == Positive(CountOf(t, d))
    ensures Entries(s) == Entries(t)
    ensures TotalNotes(s) == TotalNotes(t) && TotalAmount(s) == TotalAmount(t)
  {
    EntriesOverFrame(Denominations, s, t);
  }

  /** A key outside the denomination set, or a count of 0 or less, is
      ignored by the entry list. */
  lemma EntriesIgnoreInactiveKeys(s: CashState, k: int, v: int)
    requires !IsDenomination(k) || v <= 0
    ensures Entries(s[k := v]) == Entries(s - {k})
    ensures !IsDenomination(k) ==> Entries(s[k := v]) == Entries(s)
  {
    EntriesDependOnActiveCountsOnly(s[k := v], s - {k});
    if !IsDenomination(k) {
      EntriesDependOnActiveCountsOnly(s[k := v], s);
    }
  }

  lemma {:induction false} EntriesOverSums(ds: seq<Denomination>, s: CashState)
    ensures SumCounts(EntriesOver(ds, s)) == NotesOver(ds, s)
    ensures SumAmounts(EntriesOver(ds, s)) == AmountOver(ds, s)
  {
    if ds != [] {
      EntriesOverSums(ds[1..], s);
      var tail := EntriesOver(ds[1..], s);
      if CountOf(s, ds[0]) > 0 {
        var e := BillEntry(ds[0], CountOf(s, ds[0]));
        assert ([e] + tail)[1..] == tail;
      }
    }
  }

  /** The reduce over the entries equals the per-denomination sum. */
  lemma TotalsAreSums(s: CashState)
    ensures TotalNotes(s) == NotesOver(Denominations, s)
    ensures TotalAmount(s) == AmountOver(Denominations, s)
  {
    EntriesOverSums(Denominations, s);
  }

  // ---------------------------------------------------------------------
  // The map updates

  /** The update of `handleCountChange`: a count greater than 0 is stored as
      given (there is no clamp at this level), a count of 0 or less deletes
      the key; no other key changes. */
  function SetCount(s: CashState, d: Denomination, count: int): (r: CashState)
    ensures count > 0 ==> d in r && r[d] == count
    ensures count <= 0 ==> d !in r
    ensures r - {d} == s - {d}
  {
    if count > 0 then s[d := count] else s - {d}
  }

  /** The update of `handleRemoveDenom`: the key is gone and no other key
      changes. */
  function RemoveDenom(s: CashState, d: Denomination): (r: CashState)
    ensures d !in r
    ensures r - {d} == s - {d}
    ensures d !in s ==> r == s
  {
    s - {d}
  }

  /** Removing twice is removing once, and saving a count of 0 or less is a
      removal. */
  lemma RemoveDenomIdempotent(s: CashState, d: Denomination, c: int)
    ensures RemoveDenom(RemoveDenom(s, d), d) == RemoveDenom(s, d)
    ensures c <= 0 ==> SetCount(s, d, c) == RemoveDenom(s, d)
  {
  }

  /** The invariant the data model asks of a tally: only known
      denominations, only positive counts. */
  ghost predicate WellFormed(s: CashState) {
    forall k :: k in s ==> IsDenomination(k) && s[k] > 0
  }

  /** Both updates keep a well-formed tally well-formed, and on a well-formed
      tally the entry list covers exactly the stored keys. */
  lemma UpdatesPreserveWellFormed(s: CashState, d: Denomination, c: int)
    requires WellFormed(s)
    ensures WellFormed(SetCount(s, d, c)) && WellFormed(RemoveDenom(s, d))
    ensures forall k :: k in Denoms(Entries(s)) <==> k in s
  {
    EntriesAreActiveCountsInOrder(s);
  }

  // ---------------------------------------------------------------------
  // Totals after each update

  lemma {:induction false} SumsOverChange(ds: seq<Denomination>, s: CashState, t: CashState, d: Denomination)
    requires Distinct(ds)
    requires forall x :: x != d ==> CountOf(s, x) == CountOf(t, x)
    ensures NotesOver(ds, t) ==
      NotesOver(ds, s) + (if d in ds then Positive(CountOf(t, d)) - Positive(CountOf(s, d)) else 0)
    ensures AmountOver(ds, t) ==
      AmountOver(ds, s) + (if d in ds then d * (Positive(CountOf(t, d)) - Positive(CountOf(s, d))) else 0)
  {
    if ds != [] {
      assert Distinct(ds[1..]) by {
        forall i, j | 0 <= i < j < |ds[1..]| ensures ds[1..][i] != ds[1..][j] {
          assert ds[1..][i] == ds[i + 1] && ds[1..][j] == ds[j + 1];
        }
      }
      SumsOverChange(ds[1..], s, t, d);
      assert forall x :: x in ds <==> x == ds[0] || x in ds[1..];
      if ds[0] == d {
        assert d !in ds[1..] by {
          forall k | 0 <= k < |ds[1..]| ensures ds[1..][k] != d {
            assert ds[1..][k] == ds[k + 1];
          }
        }
        var a: int, b: int := Positive(CountOf(t, d)), Positive(CountOf(s, d));
        assert d * a == d * b + d * (a - b);
      }
    }
  }

  /** Saving a count changes the note total by the difference of the active
      counts, and the amount by that difference times the face value. */
  lemma TotalsAfterSetCount(s: CashState, d: Denomination, c: int)
    ensures TotalNotes(SetCount(s, d, c)) == TotalNotes(s) - Positive(CountOf(s, d)) + Positive(c)
    ensures TotalAmount(SetCount(s, d, c)) == TotalAmount(s) + d * (Positive(c) - Positive(CountOf(s, d)))
  {
    var t := SetCount(s, d, c);
    assert CountOf(t, d) == (if c > 0 then c else 0);
    assert forall x :: x != d ==> CountOf(s, x) == CountOf(t, x) by {
      forall x | x != d ensures CountOf(s, x) == CountOf(t, x) {
        assert x in s <==> x in s - {d};
        assert x in t <==> x in t - {d};
      }
    }
    DenominationOrder();
    SumsOverChange(Denominations, s, t, d);
    TotalsAreSums(s);
    TotalsAreSums(t);
  }

  /** Removing a denomination takes its notes and their value out of the
      totals. */
  lemma TotalsAfterRemove(s: CashState, d: Denomination)
    ensures TotalNotes(RemoveDenom(s, d)) == TotalNotes(s) - Positive(CountOf(s, d))
    ensures TotalAmount(RemoveDenom(s, d)) == TotalAmount(s) - d * Positive(CountOf(s, d))
  {
    RemoveDenomIdempotent(s, d, 0);
    TotalsAfterSetCount(s, d, 0);
  }

  /** The empty tally has no entries and zero totals. */
  lemma EmptyTally()
    ensures Entries(map[]) == [] && TotalNotes(map[]) == 0 && TotalAmount(map[]) == 0
  {
    EntriesAreActiveCountsInOrder(map[]);
  }

  lemma {:induction false} SumsOverBounds(ds: seq<Denomination>, s: CashState)
    ensures 1000 * NotesOver(ds, s) <= AmountOver(ds, s) <= 500000 * NotesOver(ds, s)
  {
    if ds != [] {
      SumsOverBounds(ds[1..], s);
      var p := Positive(CountOf(s, ds[0]));
      DenominationBounds(ds[0]);
      assert 1000 * p <= ds[0] * p <= 500000 * p;
    }
  }

  lemma {:induction false} SumCountsAtLeastLength(es: seq<BillEntry>)
    requires forall i :: 0 <= i < |es| ==> es[i].count > 0
    ensures SumCounts(es) >= |es|
  {
    if es != [] {
      SumCountsAtLeastLength(es[1..]);
    }
  }

  /** Every note is worth between 1000 and 500000, so the amount is bounded
      by the note total; the tally has no entries exactly when either total
      is zero. */
  lemma TotalsBounds(s: CashState)
    ensures TotalNotes(s) >= 0
    ensures 1000 * TotalNotes(s) <= TotalAmount(s) <= 500000 * TotalNotes(s)
    ensures Entries(s) == [] <==> TotalNotes(s) == 0
    ensures Entries(s) == [] <==> TotalAmount(s) == 0
  {
    TotalsAreSums(s);
    SumsOverBounds(Denominations, s);
    EntriesAreActiveCountsInOrder(s);
    SumCountsAtLeastLength(Entries(s));
  }

  /** Start empty, save 3 notes of 1000 and 2 of 5000: 5 notes worth 13000;
      removing the 1000s leaves 10000. */
  lemma CountingScenario()
    ensures var s1 := SetCount(map[], 1000, 3);
            var s2 := SetCount(s1, 5000, 2);
            TotalNotes(s2) == 5 && TotalAmount(s2) == 13000
            && TotalAmount(RemoveDenom(s2, 1000)) == 10000
  {
    var s1 := SetCount(map[], 1000, 3);
    var s2 := SetCount(s1, 5000, 2);
    EmptyTally();
    TotalsAfterSetCount(map[], 1000, 3);
    TotalsAfterSetCount(s1, 5000, 2);
    TotalsAfterRemove(s2, 1000);
  }
}
