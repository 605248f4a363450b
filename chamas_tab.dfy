/** The chama tab: the summary cards that select a partition, the view of that
    partition of the chama ledger, the allocation of
    unallocated funds to the selected chama, and the creation of a chama. The tab's
    copy of the ledger is the store's ledger (the live subscription is not modelled). */
module ChamasTab {
  import opened Wrappers
  import opened Records
  import opened Chamas
  import Text
  import Store

  class ChamaTab {
    const store: Store.Store
    /** `None` selects the unallocated pool. */
    var selectedChamaId: Option<string>
    var amount: Option<int>
    var note: string
    var newChamaName: string
    var newChamaNote: string

    constructor (s: Store.Store)
      ensures store == s && selectedChamaId == None && amount == None && note == ""
      ensures newChamaName == "" && newChamaNote == ""
    {
      store := s;
      selectedChamaId, amount, note := None, None, "";
      newChamaName, newChamaNote := "", "";
    }

    /** `ledgerForView`: the selected partition's entries, in ledger order. */
    function View(): (r: seq<ChamaEntry>)
      reads this, store
      ensures |r| <= |store.chamaLedger|
      ensures forall e :: e in r <==> e in store.chamaLedger && e.chamaId == selectedChamaId
    {
      LedgerForView(store.chamaLedger, selectedChamaId)
    }

    /** `balanceFor(null)`. */
    function UnallocatedBalance(): int
      reads store
    {
      BalanceFor(store.chamaLedger, None)
    }

    /** Clicking the "Unallocated" card selects the pool. */
    method SelectUnallocated()
      modifies this`selectedChamaId
      ensures selectedChamaId == None
      ensures View() == LedgerForView(store.chamaLedger, None)
    {
      selectedChamaId := None;
    }

    /** Clicking a chama's card selects that chama by its id. */
    method SelectChama(c: Chama)
      modifies this`selectedChamaId
      ensures selectedChamaId == Some(c.id)
      ensures View() == LedgerForView(store.chamaLedger, Some(c.id))
    {
      selectedChamaId := Some(c.id);
    }

    /** `handleAllocate`: on success a payout from the pool then a contribution to the
        selected chama are appended and the amount and note inputs are cleared; on a
        refused request nothing is written and the inputs are kept. */
    method HandleAllocate(now: int) returns (outcome: Result<(string, int), AllocError>)
      modifies this`amount, this`note, store`chamaLedger
      ensures outcome == CheckAllocation(old(selectedChamaId), old(amount), BalanceFor(old(store.chamaLedger), None))
      ensures outcome.Ok? ==>
        store.chamaLedger == old(store.chamaLedger) + AllocationEntries(outcome.value.0, outcome.value.1, old(note), now)
        && amount == None && note == ""
      ensures outcome.Err? ==>
        store.chamaLedger == old(store.chamaLedger) && amount == old(amount) && note == old(note)
      ensures outcome.Ok? ==>
        BalanceFor(store.chamaLedger, None) == BalanceFor(old(store.chamaLedger), None) - outcome.value.1 >= 0
        && Net(store.chamaLedger) == Net(old(store.chamaLedger))
      ensures outcome.Ok? ==>
        LedgerForView(store.chamaLedger, None)
          == LedgerForView(old(store.chamaLedger), None) + [AllocationEntries(outcome.value.0, outcome.value.1, old(note), now)[0]]
    {
      outcome := CheckAllocation(selectedChamaId, amount, UnallocatedBalance());
      if outcome.Err? {
        return;
      }
      var (target, v) := outcome.value;
      var entries := AllocationEntries(target, v, note, now);
      AllocationMovesFunds(store.chamaLedger, target, v, note, now, None);
      AllocationConservesTotal(store.chamaLedger, target, v, note, now);
      AllocationPoolView(store.chamaLedger, target, v, note, now);
      store.AddChamaEntry(entries[0]);
      store.AddChamaEntry(entries[1]);
      assert store.chamaLedger == old(store.chamaLedger) + entries;
      amount, note := None, "";
    }

    /** `handleCreateChama`: a whitespace-only name writes nothing; otherwise one chama with
        the trimmed name, status active and the trimmed note is appended under a fresh
        store id, and both inputs are cleared. */
    method HandleCreateChama(now: int) returns (created: Option<Chama>)
      modifies this`newChamaName, this`newChamaNote, store`chamas, store`nextId
      ensures created == NewChama(old(newChamaName), old(newChamaNote), Text.AutoId(old(store.nextId)), now)
      ensures created.None? ==>
        store.chamas == old(store.chamas) && store.nextId == old(store.nextId)
        && newChamaName == old(newChamaName) && newChamaNote == old(newChamaNote)
      ensures created.Some? ==>
        store.chamas == old(store.chamas) + [created.value] && store.nextId == old(store.nextId) + 1
        && newChamaName == "" && newChamaNote == ""
    {
      created := NewChama(newChamaName, newChamaNote, Text.AutoId(store.nextId), now);
      if created.None? {
        return;
      }
      var id := store.NewId();
      store.AddChama(created.value);
      newChamaName, newChamaNote := "", "";
    }
  }
}
