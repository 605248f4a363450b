/** The one-off job that books every past budget's surplus (money debited beyond the
    planned total) as a deposit in the unallocated ledger. It has no guard against
    running twice. */
module MigrateUnallocated {
  import opened Wrappers
  import opened Records
  import opened FundLedger
  import Store

  /** `Number(totalDebited || 0) - Number(total || 0)`. */
  function Surplus(b: BudgetDoc): int {
    b.totalDebited - b.total
  }

  /** The deposit written for a budget with a positive surplus. */
  function SurplusDeposit(b: BudgetDoc, now: int): (e: FundEntry)
    ensures e.kind == Deposit && e.amount == Surplus(b) && e.budgetMonth == Some(b.month)
    ensures e.source == "historical-migration" && e.note == Some("") && e.relatedTransactionId == ""
    ensures e.timestamp == Millis(now)
  {
    FundEntry(Deposit, Surplus(b), Millis(now), Some(b.month), "historical-migration", Some(""), "")
  }

  /** The deposits written for the budgets, in order, skipping every budget whose
      surplus is 0 or negative. */
  function SurplusDeposits(bs: seq<BudgetDoc>, now: int): (r: seq<FundEntry>)
    ensures |r| <= |bs|
    ensures forall e :: e in r ==> e.kind == Deposit && e.amount > 0
    decreases |bs|
  {
    if |bs| == 0 then []
    else
      var b := bs[|bs| - 1];
      var rest := SurplusDeposits(bs[..|bs| - 1], now);
      if Surplus(b) > 0 then rest + [SurplusDeposit(b, now)] else rest
  }

  /** Every budget with a positive surplus gets its deposit, and every deposit comes from
      such a budget. */
  lemma {:induction false} SurplusDepositsCover(bs: seq<BudgetDoc>, now: int)
    ensures forall b :: b in bs && Surplus(b) > 0 ==> SurplusDeposit(b, now) in SurplusDeposits(bs, now)
    ensures forall e :: e in SurplusDeposits(bs, now) ==>
      exists b :: b in bs && Surplus(b) > 0 && e == SurplusDeposit(b, now)
    decreases |bs|
  {
    if |bs| > 0 {
      var init := bs[..|bs| - 1];
      SurplusDepositsCover(init, now);
      assert bs == init + [bs[|bs| - 1]];
    }
  }

  /** One more budget appends its deposit when its surplus is positive. */
  lemma SurplusDepositsStep(bs: seq<BudgetDoc>, b: BudgetDoc, now: int)
    ensures SurplusDeposits(bs + [b], now)
      == SurplusDeposits(bs, now) + (if Surplus(b) > 0 then [SurplusDeposit(b, now)] else [])
  {
    assert (bs + [b])[..|bs|] == bs;
  }

  /** Reference total: the positive surpluses added up. */
  function PositiveSurplus(bs: seq<BudgetDoc>): int
    decreases |bs|
  {
    if |bs| == 0 then 0
    else PositiveSurplus(bs[..|bs| - 1]) + (if Surplus(bs[|bs| - 1]) > 0 then Surplus(bs[|bs| - 1]) else 0)
  }

  /** Reference count: the budgets with a positive surplus. */
  function PositiveCount(bs: seq<BudgetDoc>): nat
    decreases |bs|
  {
    if |bs| == 0 then 0
    else PositiveCount(bs[..|bs| - 1]) + (if Surplus(bs[|bs| - 1]) > 0 then 1 else 0)
  }

  /** `migrateUnallocatedForUser`: appends one deposit per budget with a positive
      surplus and returns how many it appended. */
  method MigrateUnallocatedForUser(store: Store.Store, now: int) returns (count: nat)
    modifies store`unallocatedLedger
    ensures store.unallocatedLedger == old(store.unallocatedLedger) + SurplusDeposits(old(store.budgets), now)
    ensures count == |SurplusDeposits(old(store.budgets), now)|
  {
    count := 0;
    var docs := store.budgets;
    var i := 0;
    while i < |docs|
      invariant 0 <= i <= |docs|
      invariant store.unallocatedLedger == old(store.unallocatedLedger) + SurplusDeposits(docs[..i], now)
      invariant count == |SurplusDeposits(docs[..i], now)|
    {
      assert docs[..i + 1] == docs[..i] + [docs[i]];
      SurplusDepositsStep(docs[..i], docs[i], now);
      var unallocated := Surplus(docs[i]);
      if unallocated > 0 {
        store.AddUnallocatedEntry(SurplusDeposit(docs[i], now));
        count := count + 1;
      }
      i := i + 1;
    }
    assert docs[..i] == docs;
  }

  /** The count returned equals the number of budgets with a positive surplus, and the
      deposits add up to the positive surpluses. */
  lemma {:induction false} SurplusTotals(bs: seq<BudgetDoc>, now: int)
    ensures |SurplusDeposits(bs, now)| == PositiveCount(bs)
    ensures Available(SurplusDeposits(bs, now)) == PositiveSurplus(bs) >= 0
    decreases |bs|
  {
    if |bs| > 0 {
      var init := bs[..|bs| - 1];
      SurplusTotals(init, now);
      AppendOne(SurplusDeposits(init, now), SurplusDeposit(bs[|bs| - 1], now));
    }
  }

  /** The job never lowers the unallocated balance; it raises it by the positive
      surpluses, and a re-run raises it by them again. */
  lemma SurplusNeverLowers(ledger: seq<FundEntry>, bs: seq<BudgetDoc>, now1: int, now2: int)
    ensures Available(ledger + SurplusDeposits(bs, now1)) == Available(ledger) + PositiveSurplus(bs)
    ensures Available(ledger + SurplusDeposits(bs, now1)) >= Available(ledger)
    ensures Available(ledger + SurplusDeposits(bs, now1) + SurplusDeposits(bs, now2))
      == Available(ledger) + 2 * PositiveSurplus(bs)
  {
    SurplusTotals(bs, now1);
    SurplusTotals(bs, now2);
    AvailableAppend(ledger, SurplusDeposits(bs, now1));
    AvailableAppend(ledger + SurplusDeposits(bs, now1), SurplusDeposits(bs, now2));
  }

  /** 45000 debited against 40000 planned gives one deposit of 5000; 38000 against
      40000 gives none. */
  lemma SurplusScenario(now: int)
    ensures var jan := BudgetDoc("2025-01", [], 40000, 45000, false);
      var feb := BudgetDoc("2025-02", [], 40000, 38000, false);
      SurplusDeposits([jan, feb], now) == [SurplusDeposit(jan, now)]
      && SurplusDeposit(jan, now).amount == 5000 && SurplusDeposit(jan, now).budgetMonth == Some("2025-01")
  {
    var jan := BudgetDoc("2025-01", [], 40000, 45000, false);
    var feb := BudgetDoc("2025-02", [], 40000, 38000, false);
    assert [jan, feb][..1] == [jan];
    assert [jan][..0] == [];
  }
}
