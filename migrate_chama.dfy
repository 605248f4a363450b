/** The one-off correction that moves two savings transactions into a chama: for each
    configured transaction it books a chama contribution, reverses the savings deposit,
    books any excess as a new "Miscellaneous" transaction and marks the original
    transaction adjusted. Nothing stops it from running twice. */
module MigrateChama {
  import opened Wrappers
  import opened Records
  import opened Chamas
  import opened FundLedger
  import Text
  import Store

  /** One configured correction. */
  datatype MigrationItem = MigrationItem(
    transactionId: string,
    savingsLedgerAmount: int,
    migrateAmount: int,
    excess: int)

  const ChamaId := "myaUKhlOR2UiVbLkC0Ci"

  const Items: seq<MigrationItem> := [
    MigrationItem("8vOUIPdkYHt1NFI3wa6C", 3000, 3000, 0),
    MigrationItem("AZnVIQ378XT3WhzLIAno", 3015, 3000, 15)
  ]

  const ExcessMonth := "2026-01"
  const AdjustmentNote := "Migrated to chama ledger"

  /** The chama contribution for a found transaction `t`; it carries `t`'s date as its
      timestamp and `t`'s budget month. */
  function MigrationContribution(item: MigrationItem, t: Transaction): (e: ChamaEntry)
    ensures e.chamaId == Some(ChamaId) && e.kind == Contribution && e.amount == item.migrateAmount
    ensures e.timestamp == IsoDate(t.date) && e.budgetMonth == Some(t.budgetMonth) && e.source == "migration"
    ensures Signed(e) == item.migrateAmount
  {
    ChamaEntry(Some(ChamaId), Contribution, item.migrateAmount, IsoDate(t.date), Some(t.budgetMonth),
      "migration", "Migrated from savings transaction " + item.transactionId)
  }

  /** The savings withdrawal that reverses the original deposit. */
  function MigrationReversal(item: MigrationItem, t: Transaction): (e: FundEntry)
    ensures e.kind == Withdrawal && e.amount == item.savingsLedgerAmount && Effect(e) == -item.savingsLedgerAmount
    ensures e.source == "migration-reversal" && e.relatedTransactionId == item.transactionId
    ensures e.timestamp == IsoDate(t.date) && e.budgetMonth == Some(t.budgetMonth)
  {
    FundEntry(Withdrawal, item.savingsLedgerAmount, IsoDate(t.date), Some(t.budgetMonth), "migration-reversal",
      Some("Reversal due to chama migration (" + item.transactionId + ")"), item.transactionId)
  }

  /** The transaction booking the excess; fields the source does not write are "". */
  function ExcessTransaction(id: string, item: MigrationItem, t: Transaction, createdAt: string): (x: Transaction)
    ensures x.id == id && x.amount == item.excess && x.category == "Miscellaneous"
    ensures x.budgetMonth == ExcessMonth && x.relatedTransactionId == item.transactionId
    ensures x.source == "migration" && x.timestamp == t.date && x.createdAt == createdAt && !x.adjusted
  {
    Transaction(id, ExcessMonth, "Miscellaneous", item.excess, "",
      "Correction: excess from chama contribution (" + item.transactionId + ")",
      "", "", t.date, createdAt, "migration", item.transactionId, false, "")
  }

  /** The part of the store the migration touches. */
  datatype Snapshot = Snapshot(
    chamaLedger: seq<ChamaEntry>,
    savingsLedger: seq<FundEntry>,
    transactions: seq<Transaction>,
    nextId: nat)

  function SnapshotOf(store: Store.Store): Snapshot
    reads store
  {
    Snapshot(store.chamaLedger, store.savingsLedger, store.transactions, store.nextId)
  }

  /** One iteration of the loop: nothing when the transaction is missing, otherwise the
      contribution, the reversal, the optional excess transaction and the adjusted mark. */
  function MigrateOne(s: Snapshot, item: MigrationItem, createdAt: string): Snapshot {
    match Store.FindTransaction(s.transactions, item.transactionId)
    case None => s
    case Some(k) =>
      var t := s.transactions[k];
      var txs := s.transactions[k := Store.MarkAdjusted(t, AdjustmentNote)];
      Snapshot(
        s.chamaLedger + [MigrationContribution(item, t)],
        s.savingsLedger + [MigrationReversal(item, t)],
        if item.excess > 0 then txs + [ExcessTransaction(Text.AutoId(s.nextId), item, t, createdAt)] else txs,
        if item.excess > 0 then s.nextId + 1 else s.nextId)
  }

  /** The loop over the configured items, in order. */
  function MigrateAll(s: Snapshot, items: seq<MigrationItem>, createdAt: string): Snapshot
    decreases |items|
  {
    if |items| == 0 then s
    else MigrateOne(MigrateAll(s, items[..|items| - 1], createdAt), items[|items| - 1], createdAt)
  }

  /** One pass of the loop body against the store. */
  method MigrateItem(store: Store.Store, item: MigrationItem, createdAt: string)
    modifies store`chamaLedger, store`savingsLedger, store`transactions, store`nextId
    ensures SnapshotOf(store) == MigrateOne(old(SnapshotOf(store)), item, createdAt)
  {
    var found := Store.FindTransaction(store.transactions, item.transactionId);
    if found.None? {
      return;
    }
    var k := found.value;
    var t := store.transactions[k];
    ghost var txs := store.transactions;
    ghost var marked := txs[k := Store.MarkAdjusted(t, AdjustmentNote)];
    store.AddChamaEntry(MigrationContribution(item, t));
    store.AddSavingsEntry(MigrationReversal(item, t));
    if item.excess > 0 {
      var newId := store.NewId();
      var x := ExcessTransaction(newId, item, t, createdAt);
      store.AddTransaction(x);
      assert (txs + [x])[k := Store.MarkAdjusted(t, AdjustmentNote)] == marked + [x];
    }
    store.UpdateTransaction(k, AdjustmentNote);
  }

  /** `migrateChamaSavings`: the store ends up as `MigrateAll` says; for each found item
      the writes go contribution, reversal, excess transaction, update. */
  method MigrateChamaSavings(store: Store.Store, createdAt: string)
    modifies store`chamaLedger, store`savingsLedger, store`transactions, store`nextId
    ensures SnapshotOf(store) == MigrateAll(old(SnapshotOf(store)), Items, createdAt)
  {
    var i := 0;
    while i < |Items|
      invariant 0 <= i <= |Items|
      invariant SnapshotOf(store) == MigrateAll(old(SnapshotOf(store)), Items[..i], createdAt)
    {
      assert Items[..i + 1][..i] == Items[..i];
      MigrateItem(store, Items[i], createdAt);
      i := i + 1;
    }
    assert Items[..i] == Items;
  }

  /** A configured id that is not in the store causes no write at all. */
  lemma MissingItemWritesNothing(s: Snapshot, item: MigrationItem, createdAt: string)
    requires Store.FindTransaction(s.transactions, item.transactionId).None?
    ensures MigrateOne(s, item, createdAt) == s
  {
  }

  /** The ledgers of a found item: one contribution and one reversal appended, the chama's
      balance up by `migrateAmount`, every other partition unchanged, the savings balance
      down by `savingsLedgerAmount` and its deposits unchanged. */
  lemma FoundItemLedgers(s: Snapshot, item: MigrationItem, createdAt: string, p: Option<string>)
    requires Store.FindTransaction(s.transactions, item.transactionId).Some?
    ensures var s' := MigrateOne(s, item, createdAt);
      var t := s.transactions[Store.FindTransaction(s.transactions, item.transactionId).value];
      s'.chamaLedger == s.chamaLedger + [MigrationContribution(item, t)]
      && s'.savingsLedger == s.savingsLedger + [MigrationReversal(item, t)]
    ensures var s' := MigrateOne(s, item, createdAt);
      BalanceFor(s'.chamaLedger, Some(ChamaId)) == BalanceFor(s.chamaLedger, Some(ChamaId)) + item.migrateAmount
      && (p != Some(ChamaId) ==> BalanceFor(s'.chamaLedger, p) == BalanceFor(s.chamaLedger, p))
    ensures var s' := MigrateOne(s, item, createdAt);
      Available(s'.savingsLedger) == Available(s.savingsLedger) - item.savingsLedgerAmount
      && TotalDeposits(s'.savingsLedger) == TotalDeposits(s.savingsLedger)
  {
    var t := s.transactions[Store.FindTransaction(s.transactions, item.transactionId).value];
    BalanceForAppend(s.chamaLedger, MigrationContribution(item, t), Some(ChamaId));
    BalanceForAppend(s.chamaLedger, MigrationContribution(item, t), p);
    AppendOne(s.savingsLedger, MigrationReversal(item, t));
  }

  /** The transactions of a found item: the original keeps its place and every field
      but `adjusted` and `adjustmentNote`, no other transaction changes, and an excess
      transaction is appended exactly when the excess is positive. */
  lemma FoundItemTransactions(s: Snapshot, item: MigrationItem, createdAt: string)
    requires Store.FindTransaction(s.transactions, item.transactionId).Some?
    ensures var k := Store.FindTransaction(s.transactions, item.transactionId).value;
      var s' := MigrateOne(s, item, createdAt);
      |s'.transactions| == |s.transactions| + (if item.excess > 0 then 1 else 0)
      && s'.transactions[k] == Store.MarkAdjusted(s.transactions[k], AdjustmentNote)
      && (forall m :: 0 <= m < |s.transactions| && m != k ==> s'.transactions[m] == s.transactions[m])
    ensures var k := Store.FindTransaction(s.transactions, item.transactionId).value;
      var s' := MigrateOne(s, item, createdAt);
      item.excess > 0 ==> (s'.transactions[|s.transactions|]
        == ExcessTransaction(Text.AutoId(s.nextId), item, s.transactions[k], createdAt))
  {
  }

  /** Every configured correction splits the reversed savings amount into the part
      moved to the chama and the excess. The code never checks this. */
  lemma ConfigConsistent()
    ensures forall j :: 0 <= j < |Items| ==>
      Items[j].savingsLedgerAmount == Items[j].migrateAmount + Items[j].excess && Items[j].excess >= 0
  {
  }

  /** The first index holding `id`, characterised by its properties. */
  lemma FindIsFirst(txs: seq<Transaction>, id: string, j: nat)
    requires j < |txs| && txs[j].id == id
    requires forall m :: 0 <= m < j ==> txs[m].id != id
    ensures Store.FindTransaction(txs, id) == Some(j)
  {
  }

  /** A transaction found before an iteration is found at the same place after it: the
      update keeps ids and the excess transaction goes at the end. */
  lemma FoundStaysFound(s: Snapshot, item: MigrationItem, createdAt: string, id: string)
    requires Store.FindTransaction(s.transactions, id).Some?
    ensures Store.FindTransaction(MigrateOne(s, item, createdAt).transactions, id)
      == Store.FindTransaction(s.transactions, id)
  {
    var txs := s.transactions;
    var j := Store.FindTransaction(txs, id).value;
    match Store.FindTransaction(txs, item.transactionId)
    case None =>
    case Some(k) =>
      FoundItemTransactions(s, item, createdAt);
      var txs' := MigrateOne(s, item, createdAt).transactions;
      assert txs'[j].id == id;
      assert forall m :: 0 <= m < j ==> txs'[m].id == txs[m].id;
      FindIsFirst(txs', id, j);
  }

  /** An id that is not a store-assigned id and is missing stays missing: the only
      transaction the migration adds carries a store-assigned id. */
  lemma MissingStaysMissing(s: Snapshot, item: MigrationItem, createdAt: string, id: string)
    requires Store.FindTransaction(s.transactions, id).None?
    requires id == [] || id[0] != '#'
    ensures Store.FindTransaction(MigrateOne(s, item, createdAt).transactions, id).None?
  {
    match Store.FindTransaction(s.transactions, item.transactionId)
    case None =>
    case Some(k) =>
      FoundItemTransactions(s, item, createdAt);
      var txs' := MigrateOne(s, item, createdAt).transactions;
      forall m | 0 <= m < |txs'| ensures txs'[m].id != id {
        if m >= |s.transactions| {
          assert txs'[m].id == Text.AutoId(s.nextId);
        }
      }
  }

  predicate AllFound(txs: seq<Transaction>, items: seq<MigrationItem>) {
    forall j :: 0 <= j < |items| ==> Store.FindTransaction(txs, items[j].transactionId).Some?
  }

  function SumMigrate(items: seq<MigrationItem>): int
    decreases |items|
  {
    if |items| == 0 then 0 else SumMigrate(items[..|items| - 1]) + items[|items| - 1].migrateAmount
  }

  function SumReversed(items: seq<MigrationItem>): int
    decreases |items|
  {
    if |items| == 0 then 0 else SumReversed(items[..|items| - 1]) + items[|items| - 1].savingsLedgerAmount
  }

  /** An id present before a run is present after it. */
  lemma {:induction false} FoundAfterRun(s: Snapshot, items: seq<MigrationItem>, createdAt: string, id: string)
    requires Store.FindTransaction(s.transactions, id).Some?
    ensures Store.FindTransaction(MigrateAll(s, items, createdAt).transactions, id).Some?
    decreases |items|
  {
    if |items| > 0 {
      FoundAfterRun(s, items[..|items| - 1], createdAt, id);
      FoundStaysFound(MigrateAll(s, items[..|items| - 1], createdAt), items[|items| - 1], createdAt, id);
    }
  }

  /** Every configured transaction present before a run is still present after it, so a
      later run finds them all again. */
  lemma AllFoundAfterRun(s: Snapshot, items: seq<MigrationItem>, run: seq<MigrationItem>, createdAt: string)
    requires AllFound(s.transactions, items)
    ensures AllFound(MigrateAll(s, run, createdAt).transactions, items)
  {
    forall j | 0 <= j < |items|
      ensures Store.FindTransaction(MigrateAll(s, run, createdAt).transactions, items[j].transactionId).Some?
    {
      FoundAfterRun(s, run, createdAt, items[j].transactionId);
    }
  }

  /** When every configured transaction is present, a run raises the chama's balance by
      the migrated amounts and lowers the savings balance by the reversed amounts. */
  lemma {:induction false} RunEffect(s: Snapshot, items: seq<MigrationItem>, createdAt: string)
    requires AllFound(s.transactions, items)
    ensures var s' := MigrateAll(s, items, createdAt);
      BalanceFor(s'.chamaLedger, Some(ChamaId)) == BalanceFor(s.chamaLedger, Some(ChamaId)) + SumMigrate(items)
      && Available(s'.savingsLedger) == Available(s.savingsLedger) - SumReversed(items)
    decreases |items|
  {
    if |items| > 0 {
      var init := items[..|items| - 1];
      var last := items[|items| - 1];
      assert AllFound(s.transactions, init) by {
        forall j | 0 <= j < |init| ensures Store.FindTransaction(s.transactions, init[j].transactionId).Some? {
          assert init[j] == items[j];
        }
      }
      RunEffect(s, init, createdAt);
      assert Store.FindTransaction(s.transactions, last.transactionId).Some?;
      FoundAfterRun(s, init, createdAt, last.transactionId);
      FoundItemLedgers(MigrateAll(s, init, createdAt), last, createdAt, None);
    }
  }

  /** With both configured transactions present, one run moves 6000 into the chama and
      takes 6015 out of savings; a second run does it all again. */
  lemma RerunRepeatsCorrection(s: Snapshot, createdAt1: string, createdAt2: string)
    requires AllFound(s.transactions, Items)
    ensures var once := MigrateAll(s, Items, createdAt1);
      BalanceFor(once.chamaLedger, Some(ChamaId)) == BalanceFor(s.chamaLedger, Some(ChamaId)) + 6000
      && Available(once.savingsLedger) == Available(s.savingsLedger) - 6015
    ensures var twice := MigrateAll(MigrateAll(s, Items, createdAt1), Items, createdAt2);
      BalanceFor(twice.chamaLedger, Some(ChamaId)) == BalanceFor(s.chamaLedger, Some(ChamaId)) + 12000
      && Available(twice.savingsLedger) == Available(s.savingsLedger) - 12030
  {
    assert Items[..1] == [Items[0]];
    assert [Items[0]][..0] == [];
    assert SumMigrate([Items[0]]) == 3000;
    assert SumReversed([Items[0]]) == SumReversed([]) + Items[0].savingsLedgerAmount == 3000;
    assert SumMigrate(Items) == 6000 && SumReversed(Items) == 6015;
    RunEffect(s, Items, createdAt1);
    AllFoundAfterRun(s, Items, Items, createdAt1);
    RunEffect(MigrateAll(s, Items, createdAt1), Items, createdAt2);
  }
}
