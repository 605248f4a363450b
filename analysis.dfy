/** The single-month analysis page: planned amounts against the month's transactions,
    where "Money Recovered" is money coming back and so counts against spending. */
module Analysis {
  import opened Wrappers
  import opened Records
  import Text

  const MoneyRecovered := "Money Recovered"
  const SavingsCategory := "Savings"

  /** What the page holds for the selected month once loaded. */
  datatype MonthData = MonthData(categories: seq<CategoryRow>, totalBudgeted: int, amountDebited: int)

  /** A missing budget document shows no categories and zero totals. */
  function LoadBudget(doc: Option<BudgetDoc>): (r: MonthData)
    ensures doc.None? ==> r.categories == [] && r.totalBudgeted == 0 && r.amountDebited == 0
    ensures doc.Some? ==> (r.categories == doc.value.categories && r.totalBudgeted == doc.value.total
      && r.amountDebited == doc.value.totalDebited)
  {
    match doc
    case None => MonthData([], 0, 0)
    case Some(d) => MonthData(d.categories, d.total, d.totalDebited)
  }

  function TotalOutflows(txs: seq<Transaction>): int {
    SumAmounts(WithoutCategory(txs, MoneyRecovered))
  }

  function TotalRecovered(txs: seq<Transaction>): int {
    SumAmounts(WithCategory(txs, MoneyRecovered))
  }

  /** Net spending: outflows minus recovered money. */
  function AmountSpent(txs: seq<Transaction>): int {
    TotalOutflows(txs) - TotalRecovered(txs)
  }

  /** Reference reading of one transaction: recovered money counts negative. */
  function Outflow(t: Transaction): int {
    if t.category == MoneyRecovered then -t.amount else t.amount
  }

  function NetOutflow(txs: seq<Transaction>): int
    decreases |txs|
  {
    if |txs| == 0 then 0 else NetOutflow(txs[..|txs| - 1]) + Outflow(txs[|txs| - 1])
  }

  /** Net spending is every transaction's amount, with "Money Recovered" ones negated;
      the plain sum exceeds it by twice the recovered money. */
  lemma {:induction false} AmountSpentIsNetOutflow(txs: seq<Transaction>)
    ensures AmountSpent(txs) == NetOutflow(txs)
    ensures AmountSpent(txs) + 2 * TotalRecovered(txs) == SumAmounts(txs)
    decreases |txs|
  {
    CategorySplit(txs, MoneyRecovered);
    if |txs| > 0 {
      var init := txs[..|txs| - 1];
      var t := txs[|txs| - 1];
      AmountSpentIsNetOutflow(init);
      SumAmountsAppend(WithCategory(init, MoneyRecovered), [t]);
      SumAmountsAppend(WithoutCategory(init, MoneyRecovered), [t]);
    }
  }

  /** Recording one more transaction moves net spending by its amount, down for
      recovered money and up for anything else. */
  lemma SpendingAfterOneMore(txs: seq<Transaction>, t: Transaction)
    ensures AmountSpent(txs + [t]) == AmountSpent(txs) + (if t.category == MoneyRecovered then -t.amount else t.amount)
  {
    AmountSpentIsNetOutflow(txs);
    AmountSpentIsNetOutflow(txs + [t]);
    assert (txs + [t])[..|txs|] == txs;
  }

  function BalanceFromTotalDebited(m: MonthData, txs: seq<Transaction>): int {
    m.amountDebited - AmountSpent(txs)
  }

  function SavedSoFar(txs: seq<Transaction>): int {
    SumAmounts(WithCategory(txs, SavingsCategory))
  }

  /** The first category row named exactly `name` (`Array.prototype.find`). */
  function FindCategory(cats: seq<CategoryRow>, name: string): (r: Option<nat>)
    ensures r.Some? ==> (r.value < |cats| && cats[r.value].name == name
      && forall k :: 0 <= k < r.value ==> cats[k].name != name)
    ensures r.None? ==> forall k :: 0 <= k < |cats| ==> cats[k].name != name
    decreases |cats|
  {
    if |cats| == 0 then None
    else if cats[0].name == name then Some(0)
    else match FindCategory(cats[1..], name)
      case None => None
      case Some(k) => Some(k + 1)
  }

  /** The planned amount of the first row named exactly "Savings", or 0 without one. */
  function PlannedSavings(cats: seq<CategoryRow>): (r: int)
    ensures (forall k :: 0 <= k < |cats| ==> cats[k].name != SavingsCategory) ==> r == 0
    ensures forall k :: (0 <= k < |cats| && cats[k].name == SavingsCategory
      && (forall m :: 0 <= m < k ==> cats[m].name != SavingsCategory)) ==> r == RowAmount(cats[k])
  {
    match FindCategory(cats, SavingsCategory)
    case None => 0
    case Some(k) => RowAmount(cats[k])
  }

  /** `Math.max(x, 0)`. */
  function ClampAtZero(x: int): (r: int)
    ensures r >= 0 && r >= x
    ensures x >= 0 ==> r == x
    ensures x <= 0 ==> r == 0
  {
    if x > 0 then x else 0
  }

  /** What is still to be saved this month; never negative. */
  function ToBeSaved(m: MonthData, txs: seq<Transaction>): (r: int)
    ensures r >= 0
    ensures SavedSoFar(txs) <= PlannedSavings(m.categories) ==> r == PlannedSavings(m.categories) - SavedSoFar(txs)
    ensures SavedSoFar(txs) >= PlannedSavings(m.categories) ==> r == 0
  {
    ClampAtZero(PlannedSavings(m.categories) - SavedSoFar(txs))
  }

  /** Budget left after net spending; never negative, 0 once overspent. */
  function RemainingBudget(m: MonthData, txs: seq<Transaction>): (r: int)
    ensures r >= 0
    ensures AmountSpent(txs) <= m.totalBudgeted ==> r == m.totalBudgeted - AmountSpent(txs)
    ensures AmountSpent(txs) >= m.totalBudgeted ==> r == 0
  {
    ClampAtZero(m.totalBudgeted - AmountSpent(txs))
  }

  /** Net spending other than savings; never negative. */
  function SpentExcludingSavings(txs: seq<Transaction>): (r: int)
    ensures r >= 0
    ensures SavedSoFar(txs) <= AmountSpent(txs) ==> r == AmountSpent(txs) - SavedSoFar(txs)
    ensures SavedSoFar(txs) >= AmountSpent(txs) ==> r == 0
  {
    ClampAtZero(AmountSpent(txs) - SavedSoFar(txs))
  }

  /** Unlike the remaining budget, the balance against the debited total is not
      clamped: spending beyond it shows as a negative number. */
  lemma DebitedBalanceMayBeNegative()
    ensures var t := Transaction("", "2025-01", "Household", 500, "MPESA", "", "", "", "", "", "", "", false, "");
      var m := MonthData([], 1000, 100);
      BalanceFromTotalDebited(m, [t]) == -400 && RemainingBudget(m, [t]) == 500
  {
    var t := Transaction("", "2025-01", "Household", 500, "MPESA", "", "", "", "", "", "", "", false, "");
    assert [t][..0] == [];
  }

  datatype BalanceColor = Green | Orange | Red

  /** The colour of the remaining budget. */
  function ColorFor(remaining: int): (r: BalanceColor)
    ensures r == Green <==> remaining > 10000
    ensures r == Red <==> remaining < 1000
    ensures r == Orange <==> 1000 <= remaining <= 10000
  {
    if remaining > 10000 then Green else if remaining < 1000 then Red else Orange
  }

  /** A category's actual: its transactions' amounts, matched on the exact name. */
  function CategoryActual(txs: seq<Transaction>, name: string): int {
    SumAmounts(WithCategory(txs, name))
  }

  /** The "recovered" tag: the lower-cased name contains "recovered". */
  predicate IsRecovered(name: string) {
    Text.Contains(Text.ToLower(name), "recovered")
  }

  /** A category's balance: planned plus actual for a recovered category, planned minus
      actual for every other. */
  function CategoryBalance(c: CategoryRow, txs: seq<Transaction>): (r: int)
    ensures IsRecovered(c.name) ==> r - RowAmount(c) == CategoryActual(txs, c.name)
    ensures !IsRecovered(c.name) ==> RowAmount(c) - r == CategoryActual(txs, c.name)
  {
    if IsRecovered(c.name) then RowAmount(c) + CategoryActual(txs, c.name)
    else RowAmount(c) - CategoryActual(txs, c.name)
  }

  /** The "Money Recovered" row is tagged, whatever the case of its letters, and its
      balance is its plan plus all recovered money. */
  lemma RecoveredRowAddsRecoveries(c: CategoryRow, txs: seq<Transaction>)
    requires c.name == MoneyRecovered
    ensures IsRecovered(c.name)
    ensures CategoryBalance(c, txs) == RowAmount(c) + TotalRecovered(txs)
  {
    var lower := Text.ToLower(c.name);
    assert lower[6..15] == "recovered";
    Text.ContainsAt(lower, "recovered", 6);
  }

  /** Planned 0, 2000 recovered: the recovered row shows a balance of 2000 and net
      spending drops by 2000. */
  lemma RecoveredScenario()
    ensures var r := Transaction("", "2025-01", MoneyRecovered, 2000, "MPESA", "", "", "", "", "", "", "", false, "");
      CategoryBalance(CategoryRow(MoneyRecovered, Some(0), ""), [r]) == 2000 && AmountSpent([r]) == -2000
  {
    var r := Transaction("", "2025-01", MoneyRecovered, 2000, "MPESA", "", "", "", "", "", "", "", false, "");
    RecoveredRowAddsRecoveries(CategoryRow(MoneyRecovered, Some(0), ""), [r]);
    assert [r][..0] == [];
    AmountSpentIsNetOutflow([r]);
  }
}
