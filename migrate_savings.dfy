/** The one-off backfill that turns every historical "Savings" transaction into a
    savings-ledger deposit. It reads no ledger entry first, so running it twice books
    every deposit twice. */
module MigrateSavings {
  import opened Wrappers
  import opened Records
  import opened FundLedger
  import Store

  const SavingsCategory := "Savings"

  /** The deposit written for one selected transaction. */
  function BackfillDeposit(t: Transaction, now: int): (e: FundEntry)
    ensures e.kind == Deposit && e.amount == t.amount && e.relatedTransactionId == t.id
    ensures e.source == "historical-migration" && e.timestamp == Millis(now)
    ensures e.budgetMonth.None? && e.note.None?
  {
    FundEntry(Deposit, t.amount, Millis(now), None, "historical-migration", None, t.id)
  }

  /** The deposits written for the selected transactions, in the same order. */
  function BackfillDeposits(sel: seq<Transaction>, now: int): (r: seq<FundEntry>)
    ensures |r| == |sel| && forall i :: 0 <= i < |sel| ==> r[i] == BackfillDeposit(sel[i], now)
    decreases |sel|
  {
    if |sel| == 0 then [] else BackfillDeposits(sel[..|sel| - 1], now) + [BackfillDeposit(sel[|sel| - 1], now)]
  }

  /** `migrateSavingsTransactionsToLedger`: appends one deposit per transaction whose
      category is exactly "Savings" and returns how many it appended. */
  method MigrateSavingsTransactionsToLedger(store: Store.Store, now: int) returns (count: nat)
    modifies store`savingsLedger
    ensures store.savingsLedger
      == old(store.savingsLedger) + BackfillDeposits(WithCategory(old(store.transactions), SavingsCategory), now)
    ensures count == |WithCategory(old(store.transactions), SavingsCategory)|
    ensures count == |store.savingsLedger| - |old(store.savingsLedger)|
  {
    var savingsTx := WithCategory(store.transactions, SavingsCategory);
    var i := 0;
    while i < |savingsTx|
      invariant 0 <= i <= |savingsTx|
      invariant store.savingsLedger == old(store.savingsLedger) + BackfillDeposits(savingsTx[..i], now)
    {
      assert savingsTx[..i + 1][..i] == savingsTx[..i];
      store.AddSavingsEntry(BackfillDeposit(savingsTx[i], now));
      i := i + 1;
    }
    assert savingsTx[..i] == savingsTx;
    count := |savingsTx|;
  }

  /** The backfilled deposits add up to the selected transactions' amounts. */
  lemma {:induction false} BackfillTotal(sel: seq<Transaction>, now: int)
    ensures Available(BackfillDeposits(sel, now)) == SumAmounts(sel)
    ensures TotalWithdrawals(BackfillDeposits(sel, now)) == 0
    decreases |sel|
  {
    if |sel| > 0 {
      var init := sel[..|sel| - 1];
      BackfillTotal(init, now);
      AppendOne(BackfillDeposits(init, now), BackfillDeposit(sel[|sel| - 1], now));
    }
  }

  /** The savings balance rises by exactly the sum of the "Savings" transactions. */
  lemma BackfillRaisesSavings(ledger: seq<FundEntry>, txs: seq<Transaction>, now: int)
    ensures var sel := WithCategory(txs, SavingsCategory);
      Available(ledger + BackfillDeposits(sel, now)) == Available(ledger) + SumAmounts(sel)
  {
    var sel := WithCategory(txs, SavingsCategory);
    BackfillTotal(sel, now);
    AvailableAppend(ledger, BackfillDeposits(sel, now));
  }

  /** A transaction in any other category (including "savings" in another case)
      produces no entry. */
  lemma OtherCategoryIgnored(txs: seq<Transaction>, t: Transaction, now: int)
    requires t.category != SavingsCategory
    ensures BackfillDeposits(WithCategory(txs + [t], SavingsCategory), now)
      == BackfillDeposits(WithCategory(txs, SavingsCategory), now)
  {
    assert (txs + [t])[..|txs|] == txs;
  }

  /** A second run over unchanged transactions appends the same deposits again, so the
      balance rises by twice the "Savings" total. */
  lemma RerunDoubles(ledger: seq<FundEntry>, txs: seq<Transaction>, now1: int, now2: int)
    ensures var sel := WithCategory(txs, SavingsCategory);
      var after := ledger + BackfillDeposits(sel, now1) + BackfillDeposits(sel, now2);
      |after| == |ledger| + 2 * |sel| && Available(after) == Available(ledger) + 2 * SumAmounts(sel)
  {
    var sel := WithCategory(txs, SavingsCategory);
    BackfillRaisesSavings(ledger, txs, now1);
    BackfillRaisesSavings(ledger + BackfillDeposits(sel, now1), txs, now2);
  }
}
