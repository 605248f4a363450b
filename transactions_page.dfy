/** The transactions page: the add form, the month filter over the list and the category
    options of the chosen month. */
module TransactionsPage {
  import opened Wrappers
  import opened Records
  import opened TransactionForm
  import Text
  import Store

  /** The names of a budget's rows, in order. */
  function Names(cats: seq<CategoryRow>): (r: seq<string>)
    ensures |r| == |cats| && forall i :: 0 <= i < |cats| ==> r[i] == cats[i].name
  {
    seq(|cats|, i requires 0 <= i < |cats| => cats[i].name)
  }

  /** The category options for month `m`: the row names of the last budget stored under
      `m`, or none. */
  function CategoryOptions(docs: seq<BudgetDoc>, m: string): seq<string>
    decreases |docs|
  {
    if |docs| == 0 then []
    else if docs[|docs| - 1].month == m then Names(docs[|docs| - 1].categories)
    else CategoryOptions(docs[..|docs| - 1], m)
  }

  /** With months unique, as the store keeps them, the options are the row names of the
      month's budget, and no budget means no options. */
  lemma {:induction false} OptionsOfStoredBudget(docs: seq<BudgetDoc>, m: string)
    requires Store.UniqueMonths(docs)
    ensures Store.FindBudget(docs, m).None? ==> CategoryOptions(docs, m) == []
    ensures Store.FindBudget(docs, m).Some? ==> CategoryOptions(docs, m) == Names(Store.FindBudget(docs, m).value.categories)
    decreases |docs|
  {
    if |docs| > 0 {
      var init := docs[..|docs| - 1];
      var last := docs[|docs| - 1];
      assert Store.UniqueMonths(init) by {
        forall i, j | 0 <= i < j < |init| ensures init[i].month != init[j].month {
          assert init[i] == docs[i] && init[j] == docs[j];
        }
      }
      OptionsOfStoredBudget(init, m);
      FindInPrefix(docs, m);
      if last.month == m {
        forall k | 0 <= k < |init| ensures init[k].month != m {
          assert init[k] == docs[k];
        }
      }
    }
  }

  /** Looking a month up in a list is looking it up in all but the last document, unless
      only the last has that month. */
  lemma {:induction false} FindInPrefix(docs: seq<BudgetDoc>, m: string)
    requires |docs| > 0
    ensures Store.FindBudget(docs[..|docs| - 1], m).Some? ==>
      Store.FindBudget(docs, m) == Store.FindBudget(docs[..|docs| - 1], m)
    ensures Store.FindBudget(docs[..|docs| - 1], m).None? ==>
      Store.FindBudget(docs, m) == (if docs[|docs| - 1].month == m then Some(docs[|docs| - 1]) else None)
    decreases |docs|
  {
    if |docs| > 1 && docs[0].month != m {
      FindInPrefix(docs[1..], m);
      assert docs[1..][..|docs[1..]| - 1] == docs[..|docs| - 1][1..];
    }
  }

  /** `filteredTransactions`: the whole list when no month is chosen, otherwise exactly
      the transactions of that month. */
  function FilteredTransactions(txs: seq<Transaction>, month: string): (r: seq<Transaction>)
    ensures |r| <= |txs|
    ensures month == "" ==> r == txs
    ensures month != "" ==> forall t :: t in r <==> t in txs && t.budgetMonth == month
  {
    if month == "" then txs else InMonth(txs, month)
  }

  /** Filtering keeps the list's order and multiplicity: a transaction added at the end
      of the list shows up once, at the end of the filtered list, exactly when no month
      is chosen or it belongs to the chosen month. */
  lemma FilteredAppend(txs: seq<Transaction>, t: Transaction, month: string)
    ensures FilteredTransactions(txs + [t], month)
      == FilteredTransactions(txs, month) + (if month == "" || t.budgetMonth == month then [t] else [])
  {
    if month != "" {
      InMonthConcat(txs, [t], month);
      InMonthSingle(t, month);
    }
  }

  class TransactionsPageState {
    const store: Store.Store
    var form: TxForm
    var categories: seq<string>

    constructor (s: Store.Store)
      ensures store == s && form == EmptyForm && categories == []
    {
      store := s;
      form, categories := EmptyForm, [];
    }

    /** `addTransaction`: an incomplete form writes nothing; otherwise exactly one
        transaction built from the form is appended, no ledger is touched, the form is
        reset and the category options are cleared. */
    method AddTransaction(date: string) returns (added: Option<Transaction>)
      modifies this`form, this`categories, store`transactions, store`nextId
      ensures !Complete(old(form)) ==>
        added.None? && form == old(form) && categories == old(categories)
        && store.transactions == old(store.transactions) && store.nextId == old(store.nextId)
      ensures Complete(old(form)) ==>
        added == Some(ToTransaction(old(form), Text.AutoId(old(store.nextId)), date))
        && store.transactions == old(store.transactions) + [added.value]
        && form == EmptyForm && categories == []
      ensures store.savingsLedger == old(store.savingsLedger) && store.unallocatedLedger == old(store.unallocatedLedger)
      ensures store.chamaLedger == old(store.chamaLedger) && store.budgets == old(store.budgets)
    {
      if !Complete(form) {
        return None;
      }
      var id := store.NewId();
      var tx := ToTransaction(form, id, date);
      store.AddTransaction(tx);
      form := EmptyForm;
      categories := [];
      added := Some(tx);
    }

    /** `loadCategories` for the chosen month: every budget is visited and the last one
        under that month supplies the names; the selected category is cleared. Without
        a chosen month nothing happens. */
    method LoadCategories()
      modifies this`categories, this`form
      ensures old(form).budgetMonth == "" ==> categories == old(categories) && form == old(form)
      ensures old(form).budgetMonth != "" ==>
        categories == CategoryOptions(store.budgets, old(form).budgetMonth) && form == old(form).(category := "")
    {
      if form.budgetMonth == "" {
        return;
      }
      var docs := store.budgets;
      var cats: seq<string> := [];
      var i := 0;
      while i < |docs|
        invariant 0 <= i <= |docs|
        invariant cats == CategoryOptions(docs[..i], form.budgetMonth)
      {
        assert docs[..i + 1][..i] == docs[..i];
        if docs[i].month == form.budgetMonth {
          cats := Names(docs[i].categories);
        }
        i := i + 1;
      }
      assert docs[..i] == docs;
      categories := cats;
      form := form.(category := "");
    }
  }
}
