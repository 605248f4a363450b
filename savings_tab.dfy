/** The savings tab: the savings balance and the manual withdrawal from it. */
module SavingsTab {
  import opened Wrappers
  import opened Records
  import opened FundLedger
  import Store

  /** The entry a manual savings withdrawal appends (no budget month). */
  function SavingsWithdrawal(v: int, note: string, now: int): (e: FundEntry)
    ensures e.kind == Withdrawal && e.amount == v && Effect(e) == -v
    ensures e.timestamp == Millis(now) && e.budgetMonth.None? && e.source == "manual"
    ensures e.note == Some(note) && e.relatedTransactionId == ""
  {
    FundEntry(Withdrawal, v, Millis(now), None, "manual", Some(note), "")
  }

  class SavingsTabState {
    const store: Store.Store
    var withdrawAmount: Option<int>
    var note: string

    constructor (s: Store.Store)
      ensures store == s && withdrawAmount == None && note == ""
    {
      store := s;
      withdrawAmount, note := None, "";
    }

    function AvailableSavings(): int
      reads store
    {
      Available(store.savingsLedger)
    }

    /** `handleWithdraw`: an accepted withdrawal appends one entry, lowers the balance
        by its amount without taking it below 0, and clears the inputs; a refused one
        writes nothing and keeps the inputs. */
    method HandleWithdraw(now: int) returns (outcome: Result<int, WithdrawError>)
      modifies this`withdrawAmount, this`note, store`savingsLedger
      ensures outcome == CheckWithdrawal(old(withdrawAmount), Available(old(store.savingsLedger)))
      ensures outcome.Ok? ==>
        store.savingsLedger == old(store.savingsLedger) + [SavingsWithdrawal(outcome.value, old(note), now)]
        && withdrawAmount == None && note == ""
        && Available(store.savingsLedger) == Available(old(store.savingsLedger)) - outcome.value >= 0
      ensures outcome.Err? ==>
        store.savingsLedger == old(store.savingsLedger) && withdrawAmount == old(withdrawAmount) && note == old(note)
    {
      outcome := CheckWithdrawal(withdrawAmount, AvailableSavings());
      if outcome.Err? {
        return;
      }
      var e := SavingsWithdrawal(outcome.value, note, now);
      GuardedWithdrawal(store.savingsLedger, withdrawAmount, e);
      store.AddSavingsEntry(e);
      withdrawAmount, note := None, "";
    }
  }
}
