/** The top-categories chart: per category (keyed by the trimmed name) the total amount
    and the number of transactions, each list sorted largest first and cut to six. */
module TopCategories {
  import opened Records
  import opened Grouping
  import Text

  datatype Named = Named(name: string, value: int)

  /** Transactions without a category or with a zero amount are skipped. */
  predicate Counted(t: Transaction) {
    t.category != "" && t.amount != 0
  }

  /** Categories are keyed by the trimmed name. */
  function CategoryKey(t: Transaction): string {
    Text.Trim(t.category)
  }

  /** The entries `Object.entries` yields for the dictionary of weight `w`, in key
      insertion order. */
  function Entries(ks: seq<string>, txs: seq<Transaction>, w: Transaction -> int): (r: seq<Named>)
    ensures |r| == |ks|
    ensures forall i :: 0 <= i < |ks| ==> r[i] == Named(ks[i], GroupSum(txs, Counted, CategoryKey, w, ks[i]))
  {
    seq(|ks|, i requires 0 <= i < |ks| => Named(ks[i], GroupSum(txs, Counted, CategoryKey, w, ks[i])))
  }

  predicate NonIncreasing(s: seq<Named>) {
    forall i, j :: 0 <= i < j < |s| ==> s[j].value <= s[i].value
  }

  /** Inserts `x` after every entry at least as large, which keeps equal values in their
      original order. */
  function InsertByValue(s: seq<Named>, x: Named): seq<Named>
    decreases |s|
  {
    if |s| == 0 then [x]
    else if s[0].value < x.value then [x] + s
    else [s[0]] + InsertByValue(s[1..], x)
  }

  lemma {:induction false} InsertByValuePermutation(s: seq<Named>, x: Named)
    ensures multiset(InsertByValue(s, x)) == multiset(s) + multiset{x}
    decreases |s|
  {
    if |s| > 0 {
      assert s == [s[0]] + s[1..];
      if s[0].value >= x.value {
        InsertByValuePermutation(s[1..], x);
      }
    }
  }

  lemma {:induction false} InsertByValueSpec(s: seq<Named>, x: Named)
    requires NonIncreasing(s)
    ensures NonIncreasing(InsertByValue(s, x))
    ensures multiset(InsertByValue(s, x)) == multiset(s) + multiset{x}
    decreases |s|
  {
    InsertByValuePermutation(s, x);
    if |s| > 0 && s[0].value >= x.value {
      var t := InsertByValue(s[1..], x);
      InsertByValueSpec(s[1..], x);
      forall j | 0 <= j < |t| ensures t[j].value <= s[0].value {
        assert t[j] in multiset(t);
        if t[j] != x {
          assert t[j] in multiset(s[1..]);
          var k :| 0 <= k < |s[1..]| && s[1..][k] == t[j];
          assert s[k + 1] == t[j];
        }
      }
    }
  }

  /** `.sort((a, b) => b.value - a.value)`: the same entries, largest value first. */
  function SortByValueDesc(s: seq<Named>): (r: seq<Named>)
    ensures NonIncreasing(r)
    ensures multiset(r) == multiset(s)
    decreases |s|
  {
    if |s| == 0 then []
    else
      var init := SortByValueDesc(s[..|s| - 1]);
      InsertByValueSpec(init, s[|s| - 1]);
      assert s == s[..|s| - 1] + [s[|s| - 1]];
      InsertByValue(init, s[|s| - 1])
  }

  /** All categories ranked by weight `w`. */
  function Ranked(txs: seq<Transaction>, w: Transaction -> int): seq<Named> {
    SortByValueDesc(Entries(Keys(txs, Counted, CategoryKey), txs, w))
  }

  /** `.slice(0, 6)`. */
  function TopSix(s: seq<Named>): (r: seq<Named>)
    ensures |r| <= 6 && |r| <= |s| && r == s[..|r|]
    ensures |s| >= 6 ==> |r| == 6
    ensures |s| <= 6 ==> r == s
  {
    if |s| <= 6 then s else s[..6]
  }

  /** The totals and counts dictionaries after a prefix of the transactions, with their
      keys in insertion order. */
  ghost predicate Accumulated(txs: seq<Transaction>, totals: map<string, int>, counts: map<string, int>, keys: seq<string>) {
    && keys == Keys(txs, Counted, CategoryKey)
    && (forall k :: (k in totals <==> k in keys) && (k in counts <==> k in keys))
    && (forall k :: k in totals ==> totals[k] == GroupSum(txs, Counted, CategoryKey, Amount, k))
    && (forall k :: k in counts ==> counts[k] == GroupSum(txs, Counted, CategoryKey, One, k))
  }

  /** What one more transaction does to the dictionaries' contents and keys. */
  lemma StepSums(txs: seq<Transaction>, t: Transaction, k: string)
    ensures GroupSum(txs + [t], Counted, CategoryKey, Amount, k)
      == GroupSum(txs, Counted, CategoryKey, Amount, k) + (if Counted(t) && CategoryKey(t) == k then t.amount else 0)
    ensures GroupSum(txs + [t], Counted, CategoryKey, One, k)
      == GroupSum(txs, Counted, CategoryKey, One, k) + (if Counted(t) && CategoryKey(t) == k then 1 else 0)
    ensures Keys(txs + [t], Counted, CategoryKey)
      == if Counted(t) && CategoryKey(t) !in Keys(txs, Counted, CategoryKey)
         then Keys(txs, Counted, CategoryKey) + [CategoryKey(t)] else Keys(txs, Counted, CategoryKey)
  {
    assert (txs + [t])[..|txs|] == txs;
  }

  /** One step of the `forEach`. */
  method AccumulateOne(txs: seq<Transaction>, t: Transaction, totals: map<string, int>, counts: map<string, int>, keys: seq<string>)
    returns (totals': map<string, int>, counts': map<string, int>, keys': seq<string>)
    requires Accumulated(txs, totals, counts, keys)
    ensures Accumulated(txs + [t], totals', counts', keys')
  {
    totals', counts', keys' := totals, counts, keys;
    forall k {
      StepSums(txs, t, k);
    }
    if t.category != "" && t.amount != 0 {
      var category := CategoryKey(t);
      if category !in totals {
        AbsentKeyHasNoSum(txs, Counted, CategoryKey, Amount, category);
        AbsentKeyHasNoSum(txs, Counted, CategoryKey, One, category);
        keys' := keys + [category];
      }
      totals' := totals[category := (if category in totals then totals[category] else 0) + t.amount];
      counts' := counts[category := (if category in counts then counts[category] else 0) + 1];
    }
  }

  /** The accumulation `forEach`. */
  method AccumulateTotals(txs: seq<Transaction>)
    returns (totals: map<string, int>, counts: map<string, int>, keys: seq<string>)
    ensures Accumulated(txs, totals, counts, keys)
  {
    totals, counts, keys := map[], map[], [];
    var i := 0;
    while i < |txs|
      invariant 0 <= i <= |txs|
      invariant Accumulated(txs[..i], totals, counts, keys)
    {
      assert txs[..i + 1] == txs[..i] + [txs[i]];
      totals, counts, keys := AccumulateOne(txs[..i], txs[i], totals, counts, keys);
      i := i + 1;
    }
    assert txs[..i] == txs;
  }

  /** `getTopCategoriesData`: the six largest categories by total amount and the six
      most frequent ones. */
  method GetTopCategoriesData(txs: seq<Transaction>) returns (byAmount: seq<Named>, byFrequency: seq<Named>)
    ensures byAmount == TopSix(Ranked(txs, Amount))
    ensures byFrequency == TopSix(Ranked(txs, One))
  {
    var totals, counts, keys := AccumulateTotals(txs);
    var amountEntries := seq(|keys|, i requires 0 <= i < |keys| => Named(keys[i], totals[keys[i]]));
    var countEntries := seq(|keys|, i requires 0 <= i < |keys| => Named(keys[i], counts[keys[i]]));
    assert amountEntries == Entries(keys, txs, Amount);
    assert countEntries == Entries(keys, txs, One);
    byAmount := TopSix(SortByValueDesc(amountEntries));
    byFrequency := TopSix(SortByValueDesc(countEntries));
  }

  /** Each list is sorted largest first, holds at most six entries, and no category left
      out has a larger value than one kept; every entry is a category with its value. */
  lemma TopSixDominates(txs: seq<Transaction>, w: Transaction -> int)
    ensures var top := TopSix(Ranked(txs, w));
      |top| <= 6 && NonIncreasing(top)
      && forall i, j :: 0 <= i < |top| <= j < |Ranked(txs, w)| ==> Ranked(txs, w)[j].value <= top[i].value
    ensures forall e :: e in Ranked(txs, w) ==>
      e.name in Keys(txs, Counted, CategoryKey) && e.value == GroupSum(txs, Counted, CategoryKey, w, e.name)
    ensures |Ranked(txs, w)| == |Keys(txs, Counted, CategoryKey)|
  {
    var ks := Keys(txs, Counted, CategoryKey);
    var es := Entries(ks, txs, w);
    var ranked := Ranked(txs, w);
    assert |ranked| == |multiset(ranked)| == |multiset(es)| == |es|;
    forall e | e in ranked
      ensures e.name in ks && e.value == GroupSum(txs, Counted, CategoryKey, w, e.name)
    {
      assert e in multiset(es);
    }
  }

  function SumValues(s: seq<Named>): int
    decreases |s|
  {
    if |s| == 0 then 0 else SumValues(s[..|s| - 1]) + s[|s| - 1].value
  }

  lemma {:induction false} SumEntries(ks: seq<string>, txs: seq<Transaction>, w: Transaction -> int)
    ensures SumValues(Entries(ks, txs, w)) == SumGroups(ks, txs, Counted, CategoryKey, w)
    decreases |ks|
  {
    if |ks| > 0 {
      var n := |ks| - 1;
      SumEntries(ks[..n], txs, w);
      assert Entries(ks, txs, w)[..n] == Entries(ks[..n], txs, w);
    }
  }

  /** Before sorting and cutting, the counts add up to the number of counted
      transactions and the totals to their amounts. */
  lemma CountsAddUp(txs: seq<Transaction>)
    ensures SumValues(Entries(Keys(txs, Counted, CategoryKey), txs, One)) == KeptTotal(txs, Counted, One)
    ensures SumValues(Entries(Keys(txs, Counted, CategoryKey), txs, Amount)) == KeptTotal(txs, Counted, Amount)
    ensures KeptTotal(txs, Counted, One) <= |txs|
  {
    var ks := Keys(txs, Counted, CategoryKey);
    SumEntries(ks, txs, One);
    SumEntries(ks, txs, Amount);
    GroupsCoverKept(txs, Counted, CategoryKey, One);
    GroupsCoverKept(txs, Counted, CategoryKey, Amount);
    KeptCountBounded(txs);
  }

  lemma {:induction false} KeptCountBounded(txs: seq<Transaction>)
    ensures 0 <= KeptTotal(txs, Counted, One) <= |txs|
    decreases |txs|
  {
    if |txs| > 0 {
      KeptCountBounded(txs[..|txs| - 1]);
    }
  }

  /** Names that differ only in surrounding whitespace land in the same category. */
  lemma SurroundingSpaceMerged(a: Transaction, b: Transaction)
    requires Counted(a) && Counted(b) && Text.Trim(a.category) == Text.Trim(b.category)
    ensures GroupSum([a, b], Counted, CategoryKey, Amount, Text.Trim(a.category)) == a.amount + b.amount
    ensures Keys([a, b], Counted, CategoryKey) == [Text.Trim(a.category)]
  {
    var k := Text.Trim(a.category);
    assert CategoryKey(a) == k && CategoryKey(b) == k;
    StepSums([], a, k);
    StepSums([a], b, k);
    assert [] + [a] == [a] && [a] + [b] == [a, b];
  }
}
