/** The dashboard's quick-add dialog: it writes the transaction and also shows it at the
    top of the dashboard's own list straight away. */
module Dashboard {
  import opened Wrappers
  import opened Records
  import opened TransactionForm
  import Text
  import Store

  class DashboardState {
    const store: Store.Store
    var form: TxForm
    /** The list shown on the dashboard, newest first. */
    var transactions: seq<Transaction>
    var open: bool

    constructor (s: Store.Store)
      ensures store == s && form == EmptyForm && transactions == [] && !open
    {
      store := s;
      form, transactions, open := EmptyForm, [], false;
    }

    /** Opening or closing the dialog. */
    method HandleOpen()
      modifies this`open
      ensures open == !old(open)
    {
      open := !open;
    }

    /** `addTransaction`: an incomplete form writes nothing and changes nothing; otherwise
        one transaction is appended to the store, the same transaction (without a
        document id) is put in front of the shown list, the form is reset and the dialog
        closes. */
    method AddTransaction(date: string) returns (added: Option<Transaction>)
      modifies this`form, this`transactions, this`open, store`transactions, store`nextId
      ensures !Complete(old(form)) ==>
        added.None? && form == old(form) && transactions == old(transactions) && open == old(open)
        && store.transactions == old(store.transactions) && store.nextId == old(store.nextId)
      ensures Complete(old(form)) ==>
        added == Some(ToTransaction(old(form), Text.AutoId(old(store.nextId)), date))
        && store.transactions == old(store.transactions) + [added.value]
        && transactions == [ToTransaction(old(form), "", date)] + old(transactions)
        && transactions[1..] == old(transactions)
        && form == EmptyForm && !open
      ensures store.savingsLedger == old(store.savingsLedger) && store.unallocatedLedger == old(store.unallocatedLedger)
      ensures store.chamaLedger == old(store.chamaLedger)
    {
      if !Complete(form) {
        return None;
      }
      var id := store.NewId();
      var stored := ToTransaction(form, id, date);
      store.AddTransaction(stored);
      transactions := [ToTransaction(form, "", date)] + transactions;
      form := EmptyForm;
      open := false;
      added := Some(stored);
    }
  }
}
