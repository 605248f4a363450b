/** The budget page: a month's category plan with the debited total, saved once and
    read-only afterwards. */
module Budgets {
  import opened Wrappers
  import opened Records
  import Store

  /** The eleven categories a new month starts with. */
  const DefaultCategories: seq<string> := [
    "Fare/Transport",
    "Essentials + Grooming (recurring)",
    "Household",
    "Debt Repayment",
    "Parents Support",
    "Grooming (non-recurring)",
    "Miscellaneous",
    "Savings",
    "Investment",
    "Money Lost",
    "Money Recovered"
  ]

  /** The default rows: every default category with an empty amount and empty notes. */
  function DefaultRows(): (r: seq<CategoryRow>)
    ensures |r| == |DefaultCategories| == 11
    ensures forall i :: 0 <= i < |r| ==> r[i] == CategoryRow(DefaultCategories[i], None, "")
  {
    seq(|DefaultCategories|, i requires 0 <= i < |DefaultCategories| => CategoryRow(DefaultCategories[i], None, ""))
  }

  predicate AllAmountsFilled(cats: seq<CategoryRow>) {
    forall i :: 0 <= i < |cats| ==> cats[i].amount.Some?
  }

  datatype SaveError = MissingFields | Declined

  /** The save guard and the written document: a month, a debited total and every amount
      are required, then the user must confirm; the document holds the rows, their
      total, the debited total, and is not closed. */
  function CheckSave(month: string, totalDebited: Option<int>, cats: seq<CategoryRow>, confirmed: bool)
    : (r: Result<BudgetDoc, SaveError>)
    ensures r == Err(MissingFields) <==> month == "" || totalDebited.None? || !AllAmountsFilled(cats)
    ensures r == Err(Declined) <==> month != "" && totalDebited.Some? && AllAmountsFilled(cats) && !confirmed
    ensures r.Ok? ==> (r.value.month == month && r.value.categories == cats && r.value.total == PlannedTotal(cats)
      && r.value.totalDebited == totalDebited.value && !r.value.closed)
  {
    if month == "" || totalDebited.None? || exists i :: 0 <= i < |cats| && cats[i].amount.None? then Err(MissingFields)
    else if !confirmed then Err(Declined)
    else Ok(BudgetDoc(month, cats, PlannedTotal(cats), totalDebited.value, false))
  }

  /** The default rows can never be saved as they are. */
  lemma DefaultRowsNotSavable(month: string, totalDebited: Option<int>, confirmed: bool)
    ensures CheckSave(month, totalDebited, DefaultRows(), confirmed) == Err(MissingFields)
  {
    assert DefaultRows()[0].amount.None?;
  }

  /** Changing one row's amount moves the total by the difference; empty amounts count 0. */
  lemma {:induction false} PlannedTotalUpdate(cats: seq<CategoryRow>, i: nat, row: CategoryRow)
    requires i < |cats|
    ensures PlannedTotal(cats[i := row]) == PlannedTotal(cats) - RowAmount(cats[i]) + RowAmount(row)
    decreases |cats|
  {
    var n := |cats| - 1;
    if i < n {
      PlannedTotalUpdate(cats[..n], i, row);
      assert cats[i := row][..n] == cats[..n][i := row];
    } else {
      assert cats[i := row][..n] == cats[..n];
    }
  }

  class BudgetForm {
    const store: Store.Store
    var month: string
    /** `None` is an empty input. */
    var totalDebited: Option<int>
    var categories: seq<CategoryRow>
    var monthExists: bool

    constructor (s: Store.Store)
      ensures store == s && month == "" && totalDebited.None? && categories == DefaultRows() && !monthExists
    {
      store := s;
      month, totalDebited, categories, monthExists := "", None, DefaultRows(), false;
    }

    /** The live total shown under the table. */
    function Total(): int
      reads this
    {
      PlannedTotal(categories)
    }

    /** The table and its save button are rendered (the loading flag aside). */
    predicate SaveFormShown()
      reads this
    {
      !monthExists && month != ""
    }

    /** `handleLoadMonth`: an existing month is shown with its stored rows and, when it is
        not 0, its debited total, and becomes read-only; a new month starts from the
        default rows with an empty debited total. */
    method HandleLoadMonth(selected: string)
      modifies this`month, this`monthExists, this`totalDebited, this`categories
      ensures month == selected
      ensures Store.FindBudget(store.budgets, selected).None? ==>
        !monthExists && totalDebited.None? && categories == DefaultRows()
      ensures Store.FindBudget(store.budgets, selected).Some? ==>
        var d := Store.FindBudget(store.budgets, selected).value;
        monthExists && categories == d.categories
        && totalDebited == (if d.totalDebited != 0 then Some(d.totalDebited) else None)
    {
      month, monthExists, totalDebited := selected, false, None;
      var found := Store.FindBudget(store.budgets, selected);
      if found.Some? {
        categories := found.value.categories;
        if found.value.totalDebited != 0 {
          totalDebited := Some(found.value.totalDebited);
        }
        monthExists := true;
      } else {
        categories := DefaultRows();
        monthExists := false;
      }
    }

    /** `handleSave`: writes the document `CheckSave` gives, under its month, and makes the
        month read-only; a refused save writes nothing. */
    method HandleSave(confirmed: bool) returns (outcome: Result<BudgetDoc, SaveError>)
      modifies store`budgets, this`monthExists
      ensures outcome == CheckSave(month, totalDebited, categories, confirmed)
      ensures outcome.Ok? ==>
        store.budgets == Store.PutBudget(old(store.budgets), outcome.value) && monthExists && !SaveFormShown()
        && Store.FindBudget(store.budgets, month) == Some(outcome.value)
      ensures outcome.Err? ==> store.budgets == old(store.budgets) && monthExists == old(monthExists)
    {
      outcome := CheckSave(month, totalDebited, categories, confirmed);
      if outcome.Err? {
        return;
      }
      Store.PutThenFind(store.budgets, outcome.value, month);
      store.SetBudget(outcome.value);
      monthExists := true;
    }

    /** The debited-total input; it is disabled once the month exists. */
    method SetTotalDebited(v: Option<int>)
      modifies this`totalDebited
      ensures totalDebited == if monthExists then old(totalDebited) else v
    {
      if !monthExists {
        totalDebited := v;
      }
    }

    /** Editing row `i`'s amount changes that amount only. */
    method SetAmount(i: nat, v: Option<int>)
      requires i < |categories|
      modifies this`categories
      ensures categories == old(categories)[i := old(categories)[i].(amount := v)]
      ensures Total() == old(Total()) - RowAmount(old(categories)[i]) + v.GetOr(0)
    {
      PlannedTotalUpdate(categories, i, categories[i].(amount := v));
      categories := categories[i := categories[i].(amount := v)];
    }

    /** Editing row `i`'s notes changes those notes only; the total is unaffected. */
    method SetNotes(i: nat, v: string)
      requires i < |categories|
      modifies this`categories
      ensures categories == old(categories)[i := old(categories)[i].(notes := v)]
      ensures Total() == old(Total())
    {
      PlannedTotalUpdate(categories, i, categories[i].(notes := v));
      categories := categories[i := categories[i].(notes := v)];
    }
  }
}
