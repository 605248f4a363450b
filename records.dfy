/** The documents of one user's data: chamas, the three append-only ledgers,
    transactions and monthly budgets. Amounts are whole KES. A string field a
    document lacks is "" and a numeric field it lacks is 0, as the readers that guard
    the field treat them (`x || 0`, `x ?? ""`, `!x`). */
module Records {
  import opened Wrappers

  /** A stored point in time: `Date.now()` gives epoch milliseconds; the chama
      migration copies a transaction's ISO `date` string instead. */
  datatype Stamp = Millis(ms: int) | IsoDate(text: string)

  datatype ChamaStatus = Active | Paused | Completed

  /** A savings group; its balance is derived from the chama ledger, never stored. */
  datatype Chama = Chama(id: string, name: string, status: ChamaStatus, createdAt: int, note: string)

  /** An entry of `chama_ledger`. `chamaId == None` is the unallocated pool; `kind` is
      the stored `type` string ("contribution" or "payout" when written by the app). */
  datatype ChamaEntry = ChamaEntry(
    chamaId: Option<string>,
    kind: string,
    amount: int,
    timestamp: Stamp,
    budgetMonth: Option<string>,
    source: string,
    note: string)

  /** An entry of `savings_ledger` or `unallocated_ledger` (one shape for both);
      `kind` is the stored `type` string ("deposit" or "withdrawal" when written by
      the app). `None` marks a field the writer leaves out. */
  datatype FundEntry = FundEntry(
    kind: string,
    amount: int,
    timestamp: Stamp,
    budgetMonth: Option<string>,
    source: string,
    note: Option<string>,
    relatedTransactionId: string)

  /** A document of `transactions`. */
  datatype Transaction = Transaction(
    id: string,
    budgetMonth: string,
    category: string,
    amount: int,
    paidThrough: string,
    note: string,
    date: string,
    dateOfTransaction: string,
    timestamp: string,
    createdAt: string,
    source: string,
    relatedTransactionId: string,
    adjusted: bool,
    adjustmentNote: string)

  /** One budget category row; `amount == None` is an amount left empty. */
  datatype CategoryRow = CategoryRow(name: string, amount: Option<int>, notes: string)

  /** A document of `budgets`, keyed by its month ("YYYY-MM"). */
  datatype BudgetDoc = BudgetDoc(
    month: string,
    categories: seq<CategoryRow>,
    total: int,
    totalDebited: int,
    closed: bool)

  /** `Number(c.amount || 0)`: an empty amount counts as 0. */
  function RowAmount(c: CategoryRow): int {
    c.amount.GetOr(0)
  }

  /** Sum of the category amounts, empty ones counted as 0. */
  function PlannedTotal(cats: seq<CategoryRow>): int
    decreases |cats|
  {
    if |cats| == 0 then 0 else PlannedTotal(cats[..|cats| - 1]) + RowAmount(cats[|cats| - 1])
  }

  /** Sum of transaction amounts, the fold `reduce((s, tx) => s + Number(tx.amount || 0), 0)`. */
  function SumAmounts(txs: seq<Transaction>): int
    decreases |txs|
  {
    if |txs| == 0 then 0 else SumAmounts(txs[..|txs| - 1]) + txs[|txs| - 1].amount
  }

  lemma {:induction false} SumAmountsAppend(a: seq<Transaction>, b: seq<Transaction>)
    ensures SumAmounts(a + b) == SumAmounts(a) + SumAmounts(b)
    decreases |b|
  {
    if |b| == 0 {
      assert a + b == a;
    } else {
      assert (a + b)[..|a + b| - 1] == a + b[..|b| - 1];
      assert (a + b)[|a + b| - 1] == b[|b| - 1];
      SumAmountsAppend(a, b[..|b| - 1]);
    }
  }

  /** The transactions whose category is exactly `c`, in order. */
  function WithCategory(txs: seq<Transaction>, c: string): (r: seq<Transaction>)
    ensures |r| <= |txs|
    ensures forall t :: t in r <==> t in txs && t.category == c
    decreases |txs|
  {
    if |txs| == 0 then []
    else
      var rest := WithCategory(txs[..|txs| - 1], c);
      var t := txs[|txs| - 1];
      assert txs == txs[..|txs| - 1] + [t];
      if t.category == c then rest + [t] else rest
  }

  /** The transactions whose category is anything but `c`, in order. */
  function WithoutCategory(txs: seq<Transaction>, c: string): (r: seq<Transaction>)
    ensures |r| <= |txs|
    ensures forall t :: t in r <==> t in txs && t.category != c
    decreases |txs|
  {
    if |txs| == 0 then []
    else
      var rest := WithoutCategory(txs[..|txs| - 1], c);
      var t := txs[|txs| - 1];
      assert txs == txs[..|txs| - 1] + [t];
      if t.category != c then rest + [t] else rest
  }

  /** The transactions booked against month `m`, in order. */
  function InMonth(txs: seq<Transaction>, m: string): (r: seq<Transaction>)
    ensures |r| <= |txs|
    ensures forall t :: t in r <==> t in txs && t.budgetMonth == m
    decreases |txs|
  {
    if |txs| == 0 then []
    else
      var rest := InMonth(txs[..|txs| - 1], m);
      var t := txs[|txs| - 1];
      assert txs == txs[..|txs| - 1] + [t];
      if t.budgetMonth == m then rest + [t] else rest
  }

  /** The month filter distributes over concatenation: the kept transactions of `x + y`
      are those of `x` followed by those of `y`, so the filter keeps the list's order. */
  lemma {:induction false} InMonthConcat(x: seq<Transaction>, y: seq<Transaction>, m: string)
    ensures InMonth(x + y, m) == InMonth(x, m) + InMonth(y, m)
    decreases |y|
  {
    if |y| == 0 {
      assert x + y == x;
    } else {
      var y' := y[..|y| - 1];
      assert (x + y)[..|x + y| - 1] == x + y';
      InMonthConcat(x, y', m);
    }
  }

  /** One transaction is kept, once, exactly when it is booked against month `m`. */
  lemma InMonthSingle(t: Transaction, m: string)
    ensures InMonth([t], m) == if t.budgetMonth == m then [t] else []
  {
    assert [t][..0] == [];
  }

  /** Splitting on a category loses no amount. */
  lemma {:induction false} CategorySplit(txs: seq<Transaction>, c: string)
    ensures SumAmounts(WithCategory(txs, c)) + SumAmounts(WithoutCategory(txs, c)) == SumAmounts(txs)
    decreases |txs|
  {
    if |txs| > 0 {
      var init := txs[..|txs| - 1];
      var t := txs[|txs| - 1];
      CategorySplit(init, c);
      SumAmountsAppend(WithCategory(init, c), [t]);
      SumAmountsAppend(WithoutCategory(init, c), [t]);
    }
  }
}
