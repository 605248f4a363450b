/** The document store as seen by one signed-in user: one append-only sequence per
    collection (`addDoc` appends), a keyed `setDoc` for budgets, and the one in-place
    update the application performs (`updateDoc` marking a transaction adjusted).
    Document ids are assigned by the store from a counter. */
module Store {
  import opened Wrappers
  import opened Records
  import Text

  /** `setDoc(doc(budgets, d.month), d)`: replaces the document with that month, or
      adds it when there is none. */
  function PutBudget(docs: seq<BudgetDoc>, d: BudgetDoc): (r: seq<BudgetDoc>)
    ensures d in r
    ensures forall b :: b in r && b.month != d.month ==> b in docs
    ensures forall b :: b in docs && b.month != d.month ==> b in r
    decreases |docs|
  {
    if |docs| == 0 then [d]
    else if docs[0].month == d.month then [d] + docs[1..]
    else [docs[0]] + PutBudget(docs[1..], d)
  }

  /** `getDoc(doc(budgets, month))`: the budget stored under `month`, if any. */
  function FindBudget(docs: seq<BudgetDoc>, month: string): (r: Option<BudgetDoc>)
    ensures r.Some? ==> r.value in docs && r.value.month == month
    ensures r.None? ==> forall b :: b in docs ==> b.month != month
    decreases |docs|
  {
    if |docs| == 0 then None
    else if docs[0].month == month then Some(docs[0])
    else FindBudget(docs[1..], month)
  }

  /** Reading a month back after `setDoc` gives the document just written; every other
      month reads as before. */
  lemma {:induction false} PutThenFind(docs: seq<BudgetDoc>, d: BudgetDoc, m: string)
    ensures FindBudget(PutBudget(docs, d), m) == if m == d.month then Some(d) else FindBudget(docs, m)
    decreases |docs|
  {
    if |docs| > 0 && docs[0].month != d.month {
      PutThenFind(docs[1..], d, m);
    }
  }

  /** No two budget documents share a month (the month is the document id). */
  predicate UniqueMonths(docs: seq<BudgetDoc>) {
    forall i, j :: 0 <= i < j < |docs| ==> docs[i].month != docs[j].month
  }

  /** The position of the first budget for `month`, if any. */
  function MonthIndex(docs: seq<BudgetDoc>, month: string): (r: Option<nat>)
    ensures r.Some? ==> r.value < |docs| && docs[r.value].month == month
    ensures r.None? ==> forall k :: 0 <= k < |docs| ==> docs[k].month != month
    decreases |docs|
  {
    if |docs| == 0 then None
    else if docs[0].month == month then Some(0)
    else match MonthIndex(docs[1..], month)
      case None => None
      case Some(k) => Some(k + 1)
  }

  /** `setDoc` overwrites the month's document in place, or appends a new one. */
  lemma {:induction false} PutBudgetShape(docs: seq<BudgetDoc>, d: BudgetDoc)
    ensures MonthIndex(docs, d.month).Some? ==> PutBudget(docs, d) == docs[MonthIndex(docs, d.month).value := d]
    ensures MonthIndex(docs, d.month).None? ==> PutBudget(docs, d) == docs + [d]
    decreases |docs|
  {
    if |docs| > 0 && docs[0].month != d.month {
      PutBudgetShape(docs[1..], d);
      assert docs == [docs[0]] + docs[1..];
    }
  }

  /** `setDoc` keeps months unique. */
  lemma PutKeepsUnique(docs: seq<BudgetDoc>, d: BudgetDoc)
    requires UniqueMonths(docs)
    ensures UniqueMonths(PutBudget(docs, d))
  {
    PutBudgetShape(docs, d);
  }

  /** The position of the first document with id `id`, if any (`getDoc` by id). */
  function FindTransaction(txs: seq<Transaction>, id: string): (r: Option<nat>)
    ensures r.Some? ==> (r.value < |txs| && txs[r.value].id == id
      && forall k :: 0 <= k < r.value ==> txs[k].id != id)
    ensures r.None? ==> forall k :: 0 <= k < |txs| ==> txs[k].id != id
    decreases |txs|
  {
    if |txs| == 0 then None
    else if txs[0].id == id then Some(0)
    else match FindTransaction(txs[1..], id)
      case None => None
      case Some(k) => Some(k + 1)
  }

  /** `updateDoc(ref, {adjusted: true, adjustmentNote})`: only those two fields change. */
  function MarkAdjusted(t: Transaction, note: string): (r: Transaction)
    ensures r.adjusted && r.adjustmentNote == note
    ensures r.(adjusted := t.adjusted, adjustmentNote := t.adjustmentNote) == t
  {
    t.(adjusted := true, adjustmentNote := note)
  }

  class Store {
    var chamas: seq<Chama>
    var chamaLedger: seq<ChamaEntry>
    var savingsLedger: seq<FundEntry>
    var unallocatedLedger: seq<FundEntry>
    var transactions: seq<Transaction>
    var budgets: seq<BudgetDoc>
    /** Number of ids handed out so far. */
    var nextId: nat

    constructor ()
      ensures chamas == [] && chamaLedger == [] && savingsLedger == []
      ensures unallocatedLedger == [] && transactions == [] && budgets == []
      ensures nextId == 0
    {
      chamas, chamaLedger, savingsLedger, unallocatedLedger := [], [], [], [];
      transactions, budgets, nextId := [], [], 0;
    }

    /** The id `addDoc` gives to the next document it creates. */
    method NewId() returns (id: string)
      modifies this`nextId
      ensures id == Text.AutoId(old(nextId)) && nextId == old(nextId) + 1
    {
      id := Text.AutoId(nextId);
      nextId := nextId + 1;
    }

    method AddChama(c: Chama)
      modifies this`chamas
      ensures chamas == old(chamas) + [c]
    {
      chamas := chamas + [c];
    }

    method AddChamaEntry(e: ChamaEntry)
      modifies this`chamaLedger
      ensures chamaLedger == old(chamaLedger) + [e]
    {
      chamaLedger := chamaLedger + [e];
    }

    method AddSavingsEntry(e: FundEntry)
      modifies this`savingsLedger
      ensures savingsLedger == old(savingsLedger) + [e]
    {
      savingsLedger := savingsLedger + [e];
    }

    method AddUnallocatedEntry(e: FundEntry)
      modifies this`unallocatedLedger
      ensures unallocatedLedger == old(unallocatedLedger) + [e]
    {
      unallocatedLedger := unallocatedLedger + [e];
    }

    method AddTransaction(t: Transaction)
      modifies this`transactions
      ensures transactions == old(transactions) + [t]
    {
      transactions := transactions + [t];
    }

    /** Marks the transaction at position `i` as adjusted; every other document is kept. */
    method UpdateTransaction(i: nat, note: string)
      requires i < |transactions|
      modifies this`transactions
      ensures transactions == old(transactions)[i := MarkAdjusted(old(transactions)[i], note)]
    {
      transactions := transactions[i := MarkAdjusted(transactions[i], note)];
    }

    method SetBudget(d: BudgetDoc)
      modifies this`budgets
      ensures budgets == PutBudget(old(budgets), d)
    {
      budgets := PutBudget(budgets, d);
    }
  }
}
