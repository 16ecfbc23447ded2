/** The ledger arithmetic shared by the app shell and the vault: the daily
    allowance and the per-date spending sum (`filter` on `dateString`, then
    `reduce` over `amount`). */
module Budget {
  import opened Types
  import Seqs

  /** `Math.floor(monthlyIncome / 30)`. Dafny's `/` by a positive divisor
      rounds down, as `Math.floor` does, for negative incomes too. */
  function StandardDaily(monthlyIncome: int): (r: int)
    ensures 30 * r <= monthlyIncome < 30 * r + 30
  {
    monthlyIncome / 30
  }

  /** Today's spending limit: the standard allowance plus the signed carryover. */
  function LimitToday(monthlyIncome: int, dailySavingsBalance: int): int {
    StandardDaily(monthlyIncome) + dailySavingsBalance
  }

  /** `transactions.filter(t => t.dateString === day)`. */
  function DatedOn(ts: seq<Transaction>, day: DateKey): (r: seq<Transaction>)
    ensures forall t :: t in r <==> t in ts && t.dateString == day
  {
    Seqs.Filter(ts, (t: Transaction) => t.dateString == day)
  }

  /** `reduce((sum, t) => sum + t.amount, 0)`. */
  function Total(ts: seq<Transaction>): int {
    if ts == [] then 0 else ts[0].amount + Total(ts[1..])
  }

  /** What was spent on `day`. */
  function SpentOn(ts: seq<Transaction>, day: DateKey): int {
    Total(DatedOn(ts, day))
  }

  lemma {:induction false} TotalConcat(a: seq<Transaction>, b: seq<Transaction>)
    ensures Total(a + b) == Total(a) + Total(b)
  {
    if a == [] {
      assert a + b == b;
    } else {
      assert (a + b)[1..] == a[1..] + b;
      TotalConcat(a[1..], b);
    }
  }

  /** The daily sum splits over the two halves of a ledger. */
  lemma SpentOnConcat(a: seq<Transaction>, b: seq<Transaction>, day: DateKey)
    ensures SpentOn(a + b, day) == SpentOn(a, day) + SpentOn(b, day)
  {
    Seqs.FilterConcat(a, b, (t: Transaction) => t.dateString == day);
    TotalConcat(DatedOn(a, day), DatedOn(b, day));
  }

  /** Prepending one transaction changes only the sum of its own date, by its amount. */
  lemma SpentOnPrepend(t: Transaction, ts: seq<Transaction>, day: DateKey)
    ensures SpentOn([t] + ts, day) == (if t.dateString == day then t.amount else 0) + SpentOn(ts, day)
  {
    SpentOnConcat([t], ts, day);
    assert [t][1..] == [];
  }

  /** A date nobody spent on sums to zero. */
  lemma {:induction false} SpentOnNothing(ts: seq<Transaction>, day: DateKey)
    requires forall i :: 0 <= i < |ts| ==> ts[i].dateString != day
    ensures SpentOn(ts, day) == 0
  {
    if ts != [] {
      SpentOnNothing(ts[1..], day);
      SpentOnPrepend(ts[0], ts[1..], day);
      assert [ts[0]] + ts[1..] == ts;
    }
  }

  /** With positive amounts (the only ones the vault lets through), a daily
      sum is never negative. */
  lemma {:induction false} SpentOnNonNegative(ts: seq<Transaction>, day: DateKey)
    requires forall i :: 0 <= i < |ts| ==> ts[i].amount > 0
    ensures SpentOn(ts, day) >= 0
  {
    if ts != [] {
      SpentOnNonNegative(ts[1..], day);
      SpentOnPrepend(ts[0], ts[1..], day);
      assert [ts[0]] + ts[1..] == ts;
    }
  }
}
