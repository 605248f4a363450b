/** The all-months summary: one row per budget, latest month first, comparing the
    recomputed planned total with the month's net spending. */
module MonthlyAnalysis {
  import opened Wrappers
  import opened Records
  import Text
  import Analysis
  import Budgets

  /** Outflows booked against month `m` (anything but "Money Recovered"). */
  function MonthOutflows(txs: seq<Transaction>, m: string): int
    decreases |txs|
  {
    if |txs| == 0 then 0
    else
      var t := txs[|txs| - 1];
      MonthOutflows(txs[..|txs| - 1], m)
        + (if t.budgetMonth == m && t.category != Analysis.MoneyRecovered then t.amount else 0)
  }

  /** "Money Recovered" amounts booked against month `m`. */
  function MonthRecovered(txs: seq<Transaction>, m: string): int
    decreases |txs|
  {
    if |txs| == 0 then 0
    else
      var t := txs[|txs| - 1];
      MonthRecovered(txs[..|txs| - 1], m)
        + (if t.budgetMonth == m && t.category == Analysis.MoneyRecovered then t.amount else 0)
  }

  /** `getTotalSpent(month)`. */
  function GetTotalSpent(txs: seq<Transaction>, m: string): int {
    MonthOutflows(txs, m) - MonthRecovered(txs, m)
  }

  /** The summary's figure for a month agrees with the single-month page's net spending
      over that month's transactions. */
  lemma {:induction false} TotalSpentIsMonthSpending(txs: seq<Transaction>, m: string)
    ensures GetTotalSpent(txs, m) == Analysis.AmountSpent(InMonth(txs, m))
    decreases |txs|
  {
    if |txs| > 0 {
      var init := txs[..|txs| - 1];
      var t := txs[|txs| - 1];
      TotalSpentIsMonthSpending(init, m);
      var before := InMonth(init, m);
      assert GetTotalSpent(txs, m) == GetTotalSpent(init, m)
        + (if t.budgetMonth == m then Analysis.Outflow(t) else 0);
      if t.budgetMonth == m {
        assert InMonth(txs, m) == before + [t];
        Analysis.SpendingAfterOneMore(before, t);
      } else {
        assert InMonth(txs, m) == before;
      }
    }
  }

  lemma {:induction false} MonthTotalsAppend(a: seq<Transaction>, b: seq<Transaction>, m: string)
    ensures MonthOutflows(a + b, m) == MonthOutflows(a, m) + MonthOutflows(b, m)
    ensures MonthRecovered(a + b, m) == MonthRecovered(a, m) + MonthRecovered(b, m)
    decreases |b|
  {
    if |b| == 0 {
      assert a + b == a;
    } else {
      MonthTotalsAppend(a, b[..|b| - 1], m);
      assert (a + b)[..|a + b| - 1] == a + b[..|b| - 1];
      assert (a + b)[|a + b| - 1] == b[|b| - 1];
    }
  }

  /** A transaction of another month leaves a month's figure unchanged, wherever it
      sits in the list. */
  lemma OtherMonthIgnored(a: seq<Transaction>, t: Transaction, b: seq<Transaction>, m: string)
    requires t.budgetMonth != m
    ensures GetTotalSpent(a + [t] + b, m) == GetTotalSpent(a + b, m)
  {
    MonthTotalsAppend(a + [t], b, m);
    MonthTotalsAppend(a, [t], m);
    MonthTotalsAppend(a, b, m);
    assert [t][..0] == [];
  }

  /** One row of the summary. */
  datatype MonthRow = MonthRow(month: string, totalDebited: int, totalBudgeted: int, totalSpent: int, balance: int)

  /** The row for budget `b`: the planned total is recomputed from the rows (empty ones
      count 0) rather than read from the stored total, and the balance may be negative. */
  function RowFor(b: BudgetDoc, txs: seq<Transaction>): (r: MonthRow)
    ensures r.month == b.month && r.totalDebited == b.totalDebited
    ensures r.totalSpent == Analysis.AmountSpent(InMonth(txs, b.month))
    ensures r.balance == r.totalBudgeted - r.totalSpent
  {
    TotalSpentIsMonthSpending(txs, b.month);
    var budgeted := PlannedTotal(b.categories);
    var spent := GetTotalSpent(txs, b.month);
    MonthRow(b.month, b.totalDebited, budgeted, spent, budgeted - spent)
  }

  /** The stored total plays no part in a row. */
  lemma StoredTotalIgnored(b: BudgetDoc, x: int, txs: seq<Transaction>)
    ensures RowFor(b.(total := x), txs) == RowFor(b, txs)
    ensures RowFor(b, txs).totalBudgeted == PlannedTotal(b.categories)
  {
  }

  /** For a budget saved by the budget page the stored total and the recomputed one
      agree, and the row keeps the saved debited total. */
  lemma SavedBudgetRowAgrees(month: string, totalDebited: Option<int>, cats: seq<CategoryRow>,
                             txs: seq<Transaction>)
    requires Budgets.CheckSave(month, totalDebited, cats, true).Ok?
    ensures var d := Budgets.CheckSave(month, totalDebited, cats, true).value;
      RowFor(d, txs).totalBudgeted == d.total && RowFor(d, txs).totalDebited == totalDebited.value
      && RowFor(d, txs).month == month
  {
  }

  /** Latest month first: no month is followed by a later one. */
  predicate NewestFirst(bs: seq<BudgetDoc>) {
    forall i, j :: 0 <= i < j < |bs| ==> !Text.Less(bs[i].month, bs[j].month)
  }

  function InsertByMonth(bs: seq<BudgetDoc>, x: BudgetDoc): seq<BudgetDoc>
    decreases |bs|
  {
    if |bs| == 0 then [x]
    else if !Text.Less(x.month, bs[0].month) then [x] + bs
    else [bs[0]] + InsertByMonth(bs[1..], x)
  }

  lemma {:induction false} InsertByMonthPermutation(bs: seq<BudgetDoc>, x: BudgetDoc)
    ensures multiset(InsertByMonth(bs, x)) == multiset(bs) + multiset{x}
    decreases |bs|
  {
    if |bs| > 0 {
      assert bs == [bs[0]] + bs[1..];
      if Text.Less(x.month, bs[0].month) {
        InsertByMonthPermutation(bs[1..], x);
      }
    }
  }

  /** In a newest-first list no later entry is newer than the head. */
  lemma HeadIsNewest(bs: seq<BudgetDoc>, y: BudgetDoc)
    requires NewestFirst(bs) && |bs| > 0 && y in bs[1..]
    ensures !Text.Less(bs[0].month, y.month)
  {
    var k :| 0 <= k < |bs[1..]| && bs[1..][k] == y;
    assert bs[k + 1] == y;
  }

  /** A month no older than any month of a newest-first list can go in front of it. */
  lemma ConsNewest(h: BudgetDoc, t: seq<BudgetDoc>)
    requires NewestFirst(t)
    requires forall j :: 0 <= j < |t| ==> !Text.Less(h.month, t[j].month)
    ensures NewestFirst([h] + t)
  {
    var r := [h] + t;
    forall i, j | 0 <= i < j < |r| ensures !Text.Less(r[i].month, r[j].month) {
      if i > 0 {
        assert r[i] == t[i - 1];
      }
      assert r[j] == t[j - 1];
    }
  }

  lemma {:induction false} InsertByMonthSpec(bs: seq<BudgetDoc>, x: BudgetDoc)
    requires NewestFirst(bs)
    ensures NewestFirst(InsertByMonth(bs, x))
    ensures multiset(InsertByMonth(bs, x)) == multiset(bs) + multiset{x}
    decreases |bs|
  {
    InsertByMonthPermutation(bs, x);
    if |bs| == 0 {
    } else if !Text.Less(x.month, bs[0].month) {
      forall j | 0 <= j < |bs| ensures !Text.Less(x.month, bs[j].month) {
        if j > 0 {
          Text.LessTotal(bs[0].month, bs[j].month);
          Text.LessTransitive(x.month, bs[j].month, bs[0].month);
        }
      }
      ConsNewest(x, bs);
    } else {
      InsertByMonthSpec(bs[1..], x);
      var t := InsertByMonth(bs[1..], x);
      forall j | 0 <= j < |t| ensures !Text.Less(bs[0].month, t[j].month) {
        assert t[j] in multiset(t);
        if t[j] == x {
          Text.LessAsymmetric(x.month, bs[0].month);
        } else {
          assert t[j] in multiset(bs[1..]);
          HeadIsNewest(bs, t[j]);
        }
      }
      ConsNewest(bs[0], t);
    }
  }

  /** `budgets.sort((a, b) => a.month > b.month ? -1 : 1)`: the same budgets, latest
      month first. */
  function SortNewestFirst(bs: seq<BudgetDoc>): (r: seq<BudgetDoc>)
    ensures NewestFirst(r)
    ensures multiset(r) == multiset(bs)
    decreases |bs|
  {
    if |bs| == 0 then []
    else
      var init := SortNewestFirst(bs[..|bs| - 1]);
      InsertByMonthSpec(init, bs[|bs| - 1]);
      assert bs == bs[..|bs| - 1] + [bs[|bs| - 1]];
      InsertByMonth(init, bs[|bs| - 1])
  }

  /** The table: one row per budget, newest month first. */
  function MonthlyRows(bs: seq<BudgetDoc>, txs: seq<Transaction>): (r: seq<MonthRow>)
    ensures |r| == |bs|
    ensures forall i, j :: 0 <= i < j < |r| ==> !Text.Less(r[i].month, r[j].month)
  {
    var sorted := SortNewestFirst(bs);
    assert |sorted| == |multiset(sorted)| == |multiset(bs)| == |bs|;
    seq(|sorted|, i requires 0 <= i < |sorted| => RowFor(sorted[i], txs))
  }

  /** Every budget has its row, and every row is some budget's. */
  lemma MonthlyRowsCover(bs: seq<BudgetDoc>, txs: seq<Transaction>)
    ensures forall b :: b in bs ==> RowFor(b, txs) in MonthlyRows(bs, txs)
    ensures forall row :: row in MonthlyRows(bs, txs) ==> exists b :: b in bs && row == RowFor(b, txs)
  {
    var sorted := SortNewestFirst(bs);
    var r := MonthlyRows(bs, txs);
    forall b | b in bs ensures RowFor(b, txs) in r {
      assert b in multiset(sorted);
      var k :| 0 <= k < |sorted| && sorted[k] == b;
      assert r[k] == RowFor(b, txs);
    }
    forall row | row in r ensures exists b :: b in bs && row == RowFor(b, txs) {
      var k :| 0 <= k < |r| && r[k] == row;
      assert sorted[k] in multiset(bs);
    }
  }

  /** Spending beyond the recomputed plan gives a negative balance. */
  lemma OverspentRowIsNegative()
    ensures var b := BudgetDoc("2025-03", [CategoryRow("Household", Some(1000), "")], 5000, 0, false);
      var t := Transaction("", "2025-03", "Household", 1500, "MPESA", "", "", "", "", "", "", "", false, "");
      RowFor(b, [t]).balance == -500
  {
    var cats := [CategoryRow("Household", Some(1000), "")];
    var t := Transaction("", "2025-03", "Household", 1500, "MPESA", "", "", "", "", "", "", "", false, "");
    assert cats[..0] == [] && [t][..0] == [];
  }
}
