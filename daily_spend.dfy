/** The daily-spend chart: recent spending added up per calendar day, days in ascending
    order. The cutoff ("thirty days ago") is a parameter: `before(d)` says whether the
    date `d` lies before it. */
module DailySpend {
  import opened Records
  import opened Grouping
  import Text

  datatype DaySpend = DaySpend(dateOfTransaction: string, amount: int)

  /** Kept: a non-zero amount, a date, and a date not before the cutoff. */
  predicate Qualifies(t: Transaction, before: string -> bool) {
    t.amount != 0 && t.dateOfTransaction != "" && !before(t.dateOfTransaction)
  }

  function Keep(before: string -> bool): Transaction -> bool {
    t => Qualifies(t, before)
  }

  function DayOf(t: Transaction): string {
    t.dateOfTransaction
  }

  /** The amounts of the kept transactions dated exactly `day`. */
  function DayTotal(txs: seq<Transaction>, before: string -> bool, day: string): int {
    GroupSum(txs, Keep(before), DayOf, Amount, day)
  }

  /** The amounts of all kept transactions. */
  function QualifyingTotal(txs: seq<Transaction>, before: string -> bool): int {
    KeptTotal(txs, Keep(before), Amount)
  }

  function DaysOf(r: seq<DaySpend>): (ds: seq<string>)
    ensures |ds| == |r| && forall i :: 0 <= i < |r| ==> ds[i] == r[i].dateOfTransaction
  {
    seq(|r|, i requires 0 <= i < |r| => r[i].dateOfTransaction)
  }

  function TotalSpend(r: seq<DaySpend>): int
    decreases |r|
  {
    if |r| == 0 then 0 else TotalSpend(r[..|r| - 1]) + r[|r| - 1].amount
  }

  lemma {:induction false} TotalSpendIsSumOfDays(r: seq<DaySpend>, txs: seq<Transaction>, before: string -> bool)
    requires forall i :: 0 <= i < |r| ==> r[i].amount == DayTotal(txs, before, r[i].dateOfTransaction)
    ensures TotalSpend(r) == SumGroups(DaysOf(r), txs, Keep(before), DayOf, Amount)
    decreases |r|
  {
    if |r| > 0 {
      var n := |r| - 1;
      TotalSpendIsSumOfDays(r[..n], txs, before);
      assert DaysOf(r)[..n] == DaysOf(r[..n]);
    }
  }

  /** A transaction that is not kept changes no day's total and adds no day. */
  lemma SkippedChangesNothing(txs: seq<Transaction>, t: Transaction, before: string -> bool, day: string)
    requires !Qualifies(t, before)
    ensures DayTotal(txs + [t], before, day) == DayTotal(txs, before, day)
    ensures Keys(txs + [t], Keep(before), DayOf) == Keys(txs, Keep(before), DayOf)
  {
    assert (txs + [t])[..|txs|] == txs;
  }

  /** The `forEach` that fills the `daily` dictionary; `keys` lists the dictionary's
      keys in insertion order, as `Object.keys` does. */
  method AccumulateDaily(txs: seq<Transaction>, before: string -> bool)
    returns (daily: map<string, int>, keys: seq<string>)
    ensures keys == Keys(txs, Keep(before), DayOf)
    ensures forall k :: k in daily <==> k in keys
    ensures forall k :: k in daily ==> daily[k] == DayTotal(txs, before, k)
  {
    daily, keys := map[], [];
    var i := 0;
    while i < |txs|
      invariant 0 <= i <= |txs|
      invariant keys == Keys(txs[..i], Keep(before), DayOf)
      invariant forall k :: k in daily <==> k in keys
      invariant forall k :: k in daily ==> daily[k] == GroupSum(txs[..i], Keep(before), DayOf, Amount, k)
    {
      var t := txs[i];
      assert txs[..i + 1][..i] == txs[..i];
      if t.amount != 0 && t.dateOfTransaction != "" && !before(t.dateOfTransaction) {
        var day := t.dateOfTransaction;
        if day !in daily {
          AbsentKeyHasNoSum(txs[..i], Keep(before), DayOf, Amount, day);
          keys := keys + [day];
        }
        daily := daily[day := (if day in daily then daily[day] else 0) + t.amount];
      }
      i := i + 1;
    }
    assert txs[..i] == txs;
  }

  /** `getDailySpendData`: one entry per day with kept spending, days strictly ascending
      (so each once), each day's amount its total, and the amounts adding up to the
      whole kept spending. */
  method GetDailySpendData(txs: seq<Transaction>, before: string -> bool) returns (r: seq<DaySpend>)
    ensures forall i, j :: 0 <= i < j < |r| ==> Text.Less(r[i].dateOfTransaction, r[j].dateOfTransaction)
    ensures forall i :: 0 <= i < |r| ==> r[i].amount == DayTotal(txs, before, r[i].dateOfTransaction)
    ensures forall i :: 0 <= i < |txs| && Qualifies(txs[i], before) ==> txs[i].dateOfTransaction in DaysOf(r)
    ensures forall d :: d in DaysOf(r) ==>
      exists i :: 0 <= i < |txs| && Qualifies(txs[i], before) && txs[i].dateOfTransaction == d
    ensures TotalSpend(r) == QualifyingTotal(txs, before)
  {
    var daily, keys := AccumulateDaily(txs, before);
    var sorted := Text.SortStrings(keys);
    assert forall d :: d in sorted ==> d in daily by {
      forall d | d in sorted ensures d in daily {
        assert d in multiset(keys);
      }
    }
    r := DayRows(sorted, daily);
    assert forall i, j :: 0 <= i < j < |r| ==> Text.Less(r[i].dateOfTransaction, r[j].dateOfTransaction) by {
      DistinctPermutation(keys, sorted);
      Text.SortedDistinctIncreasing(sorted);
    }
    assert forall i :: 0 <= i < |r| ==> r[i].amount == DayTotal(txs, before, r[i].dateOfTransaction) by {
      forall i | 0 <= i < |r| ensures r[i].amount == DayTotal(txs, before, r[i].dateOfTransaction) {
        assert r[i].dateOfTransaction == sorted[i] && sorted[i] in daily;
      }
    }
    assert DaysOf(r) == sorted;
    SortedOutputCovers(txs, before, keys, sorted);
    assert TotalSpend(r) == QualifyingTotal(txs, before) by {
      TotalSpendIsSumOfDays(r, txs, before);
      SumGroupsPermutation(sorted, keys, txs, Keep(before), DayOf, Amount);
      GroupsCoverKept(txs, Keep(before), DayOf, Amount);
    }
  }

  /** The output rows for the sorted days, each with its dictionary value. */
  function DayRows(days: seq<string>, daily: map<string, int>): (r: seq<DaySpend>)
    requires forall d :: d in days ==> d in daily
    ensures DaysOf(r) == days
    ensures forall i :: 0 <= i < |r| ==> r[i].amount == daily[days[i]]
  {
    seq(|days|, i requires 0 <= i < |days| => DaySpend(days[i], daily[days[i]]))
  }

  /** The sorted keys are exactly the days of the kept transactions. */
  lemma SortedOutputCovers(txs: seq<Transaction>, before: string -> bool, keys: seq<string>, sorted: seq<string>)
    requires keys == Keys(txs, Keep(before), DayOf) && multiset(sorted) == multiset(keys)
    ensures forall i :: 0 <= i < |txs| && Qualifies(txs[i], before) ==> txs[i].dateOfTransaction in sorted
    ensures forall d :: d in sorted ==>
      exists i :: 0 <= i < |txs| && Qualifies(txs[i], before) && txs[i].dateOfTransaction == d
  {
    forall i | 0 <= i < |txs| && Qualifies(txs[i], before) ensures txs[i].dateOfTransaction in sorted {
      KeptKeyListed(txs, Keep(before), DayOf, i);
      assert txs[i].dateOfTransaction in multiset(keys);
    }
    forall d | d in sorted
      ensures exists i :: 0 <= i < |txs| && Qualifies(txs[i], before) && txs[i].dateOfTransaction == d
    {
      assert d in multiset(keys);
      ListedKeyKept(txs, Keep(before), DayOf, d);
      var i :| 0 <= i < |txs| && Keep(before)(txs[i]) && DayOf(txs[i]) == d;
    }
  }
}
