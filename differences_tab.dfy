/** The differences tab: the unallocated balance (budget surpluses) and the manual
    withdrawal from it. */
module DifferencesTab {
  import opened Wrappers
  import opened Records
  import opened FundLedger
  import Store

  /** The entry a manual unallocated withdrawal appends (budget month written as ""). */
  function UnallocatedWithdrawal(v: int, note: string, now: int): (e: FundEntry)
    ensures e.kind == Withdrawal && e.amount == v && Effect(e) == -v
    ensures e.timestamp == Millis(now) && e.budgetMonth == Some("") && e.source == "manual-withdrawal"
    ensures e.note == Some(note) && e.relatedTransactionId == ""
  {
    FundEntry(Withdrawal, v, Millis(now), Some(""), "manual-withdrawal", Some(note), "")
  }

  class DifferencesTabState {
    const store: Store.Store
    var withdrawAmount: Option<int>
    var note: string

    constructor (s: Store.Store)
      ensures store == s && withdrawAmount == None && note == ""
    {
      store := s;
      withdrawAmount, note := None, "";
    }

    function AvailableUnallocated(): int
      reads store
    {
      Available(store.unallocatedLedger)
    }

    /** `handleWithdraw`: as for savings, against the unallocated ledger. */
    method HandleWithdraw(now: int) returns (outcome: Result<int, WithdrawError>)
      modifies this`withdrawAmount, this`note, store`unallocatedLedger
      ensures outcome == CheckWithdrawal(old(withdrawAmount), Available(old(store.unallocatedLedger)))
      ensures outcome.Ok? ==>
        store.unallocatedLedger == old(store.unallocatedLedger) + [UnallocatedWithdrawal(outcome.value, old(note), now)]
        && withdrawAmount == None && note == ""
        && Available(store.unallocatedLedger) == Available(old(store.unallocatedLedger)) - outcome.value >= 0
      ensures outcome.Err? ==>
        store.unallocatedLedger == old(store.unallocatedLedger)
        && withdrawAmount == old(withdrawAmount) && note == old(note)
    {
      outcome := CheckWithdrawal(withdrawAmount, AvailableUnallocated());
      if outcome.Err? {
        return;
      }
      var e := UnallocatedWithdrawal(outcome.value, note, now);
      GuardedWithdrawal(store.unallocatedLedger, withdrawAmount, e);
      store.AddUnallocatedEntry(e);
      withdrawAmount, note := None, "";
    }
  }
}
