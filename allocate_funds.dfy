/** The allocation panel: the live path that moves unallocated chama-ledger funds to one
    chama. Same guard and same two entries as the chama tab. */
module AllocateChamaFunds {
  import opened Wrappers
  import opened Records
  import opened Chamas
  import Store

  class AllocateFunds {
    const store: Store.Store
    var selectedChamaId: Option<string>
    var amount: Option<int>
    var note: string

    constructor (s: Store.Store)
      ensures store == s && selectedChamaId == None && amount == None && note == ""
    {
      store := s;
      selectedChamaId, amount, note := None, None, "";
    }

    /** Choosing from the chama drop-down: the empty "Select Chama" option clears the
        selection (`e.target.value || null`), any other value selects that chama. */
    method Select(value: string)
      modifies this`selectedChamaId
      ensures selectedChamaId == if value == "" then None else Some(value)
      ensures value == "" ==>
        CheckAllocation(selectedChamaId, amount, BalanceFor(store.chamaLedger, None)) == Err(NoChamaSelected)
    {
      selectedChamaId := if value == "" then None else Some(value);
    }

    /** `handleAllocate`: refused (nothing written, inputs kept) without a selected chama,
        with an amount that is missing or not above 0, or with an amount above the pool;
        otherwise the payout and the contribution are appended in that order, nothing
        earlier in the ledger changes, and the amount and note inputs are reset. */
    method HandleAllocate(now: int) returns (outcome: Result<(string, int), AllocError>)
      modifies this`amount, this`note, store`chamaLedger
      ensures outcome == CheckAllocation(old(selectedChamaId), old(amount), BalanceFor(old(store.chamaLedger), None))
      ensures outcome.Ok? ==>
        store.chamaLedger == old(store.chamaLedger) + AllocationEntries(outcome.value.0, outcome.value.1, old(note), now)
        && amount == None && note == ""
      ensures outcome.Err? ==>
        store.chamaLedger == old(store.chamaLedger) && amount == old(amount) && note == old(note)
      ensures store.chamaLedger[..|old(store.chamaLedger)|] == old(store.chamaLedger)
      ensures outcome.Ok? ==> Net(store.chamaLedger) == Net(old(store.chamaLedger))
    {
      outcome := CheckAllocation(selectedChamaId, amount, BalanceFor(store.chamaLedger, None));
      if outcome.Err? {
        return;
      }
      var (target, v) := outcome.value;
      var entries := AllocationEntries(target, v, note, now);
      AllocationConservesTotal(store.chamaLedger, target, v, note, now);
      store.AddChamaEntry(entries[0]);
      store.AddChamaEntry(entries[1]);
      assert store.chamaLedger == old(store.chamaLedger) + entries;
      amount, note := None, "";
    }
  }
}
