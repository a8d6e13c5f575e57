/**
  Stage 2 of the list endpoint: one pass over the fetched records adding each
  `amount` to the income or the expense total according to the record's
  `type`; records of any other type are skipped. The balance is income minus
  expense.
 */
module Totals {
  import opened Ledger

  /** The three figures of the reply. */
  datatype Figures = Figures(totalIncome: int, totalExpense: int, remainingBalance: int)

  /** Reference definition: the sum of amounts over the records of kind `k`. */
  function TotalOf(ts: seq<Transaction>, k: Kind): int {
    SumAmount(Select(ts, OfKind(k)))
  }

  /**
    The running accumulators of the single pass: starting from `income` and
    `expense`, visit the records front to back, adding each amount to the
    accumulator its kind selects.
   */
  function Accumulate(ts: seq<Transaction>, income: int, expense: int): (r: (int, int))
    ensures r.0 == income + TotalOf(ts, Income)
    ensures r.1 == expense + TotalOf(ts, Expense)
  {
    if |ts| == 0 then (income, expense)
    else
      var t := ts[0];
      if t.kind == Income then Accumulate(ts[1..], income + t.amount, expense)
      else if t.kind == Expense then Accumulate(ts[1..], income, expense + t.amount)
      else Accumulate(ts[1..], income, expense)
  }

  /** Both accumulators start at zero; the balance is derived from them. */
  function Aggregate(ts: seq<Transaction>): (r: Figures)
    ensures r.totalIncome == TotalOf(ts, Income)
    ensures r.totalExpense == TotalOf(ts, Expense)
    ensures r.remainingBalance == r.totalIncome - r.totalExpense
  {
    var (income, expense) := Accumulate(ts, 0, 0);
    Figures(income, expense, income - expense)
  }

  /** Records of another type contribute to neither total, wherever they occur. */
  lemma OtherKindIgnored(a: seq<Transaction>, t: Transaction, b: seq<Transaction>)
    requires t.kind == Other
    ensures Aggregate(a + [t] + b) == Aggregate(a + b)
  {
    SkipOther(a, t, b, Income);
    SkipOther(a, t, b, Expense);
  }

  lemma {:induction false} SkipOther(a: seq<Transaction>, t: Transaction, b: seq<Transaction>, k: Kind)
    requires t.kind == Other && k != Other
    ensures TotalOf(a + [t] + b, k) == TotalOf(a + b, k)
  {
    SelectAppend(a + [t], b, OfKind(k));
    SelectAppend(a, [t], OfKind(k));
    SelectAppend(a, b, OfKind(k));
    assert Select([t], OfKind(k)) == [];
    assert Select(a + [t], OfKind(k)) == Select(a, OfKind(k));
  }

  /** The totals of a concatenation are the sums of the parts' totals. */
  lemma {:induction false} TotalsAppend(a: seq<Transaction>, b: seq<Transaction>)
    ensures Aggregate(a + b).totalIncome == Aggregate(a).totalIncome + Aggregate(b).totalIncome
    ensures Aggregate(a + b).totalExpense == Aggregate(a).totalExpense + Aggregate(b).totalExpense
    ensures Aggregate(a + b).remainingBalance == Aggregate(a).remainingBalance + Aggregate(b).remainingBalance
  {
    forall k
      ensures TotalOf(a + b, k) == TotalOf(a, k) + TotalOf(b, k)
    {
      SelectAppend(a, b, OfKind(k));
      SumAppend(Select(a, OfKind(k)), Select(b, OfKind(k)));
    }
  }

  /** The totals do not depend on the order in which the records are visited. */
  lemma {:induction false} TotalsPermutation(a: seq<Transaction>, b: seq<Transaction>)
    requires multiset(a) == multiset(b)
    ensures Aggregate(a) == Aggregate(b)
  {
    forall k
      ensures TotalOf(a, k) == TotalOf(b, k)
    {
      var sa := Select(a, OfKind(k));
      var sb := Select(b, OfKind(k));
      assert multiset(sa) == multiset(sb) by {
        SelectCount(a, OfKind(k));
        SelectCount(b, OfKind(k));
        forall t
          ensures multiset(sa)[t] == multiset(sb)[t]
        {
        }
      }
      SumPermutation(sa, sb);
    }
  }
}
