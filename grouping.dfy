/** Grouping transactions under a string key, the shape shared by the chart helpers that
    fill a dictionary (`totals[key] = (totals[key] || 0) + w`): which transactions are
    kept, what key each one goes under and what it adds. */
module Grouping {
  import opened Records

  /** A transaction's amount, as its weight in a sum. */
  function Amount(t: Transaction): int {
    t.amount
  }

  /** Weight 1: counting instead of summing. */
  function One(t: Transaction): int {
    1
  }

  predicate DistinctStrings(s: seq<string>) {
    forall i, j :: 0 <= i < j < |s| ==> s[i] != s[j]
  }

  /** What the dictionary holds under `k`: the weights of the kept transactions with
      that key. */
  function GroupSum(txs: seq<Transaction>, keep: Transaction -> bool, key: Transaction -> string,
                    weight: Transaction -> int, k: string): int
    decreases |txs|
  {
    if |txs| == 0 then 0
    else
      var t := txs[|txs| - 1];
      GroupSum(txs[..|txs| - 1], keep, key, weight, k) + (if keep(t) && key(t) == k then weight(t) else 0)
  }

  /** The weights of all kept transactions. */
  function KeptTotal(txs: seq<Transaction>, keep: Transaction -> bool, weight: Transaction -> int): int
    decreases |txs|
  {
    if |txs| == 0 then 0
    else
      var t := txs[|txs| - 1];
      KeptTotal(txs[..|txs| - 1], keep, weight) + (if keep(t) then weight(t) else 0)
  }

  /** The dictionary's keys in insertion order: each key once, where it first occurs. */
  function Keys(txs: seq<Transaction>, keep: Transaction -> bool, key: Transaction -> string): (r: seq<string>)
    ensures DistinctStrings(r)
    decreases |txs|
  {
    if |txs| == 0 then []
    else
      var t := txs[|txs| - 1];
      var rest := Keys(txs[..|txs| - 1], keep, key);
      if keep(t) && key(t) !in rest then rest + [key(t)] else rest
  }

  /** Every kept transaction's key is listed. */
  lemma {:induction false} KeptKeyListed(txs: seq<Transaction>, keep: Transaction -> bool, key: Transaction -> string, i: nat)
    requires i < |txs| && keep(txs[i])
    ensures key(txs[i]) in Keys(txs, keep, key)
    decreases |txs|
  {
    var n := |txs| - 1;
    if i < n {
      assert txs[..n][i] == txs[i];
      KeptKeyListed(txs[..n], keep, key, i);
    }
  }

  /** Every listed key is the key of some kept transaction. */
  lemma {:induction false} ListedKeyKept(txs: seq<Transaction>, keep: Transaction -> bool, key: Transaction -> string, k: string)
    requires k in Keys(txs, keep, key)
    ensures exists i :: 0 <= i < |txs| && keep(txs[i]) && key(txs[i]) == k
    decreases |txs|
  {
    var n := |txs| - 1;
    if k in Keys(txs[..n], keep, key) {
      ListedKeyKept(txs[..n], keep, key, k);
      var i :| 0 <= i < n && keep(txs[..n][i]) && key(txs[..n][i]) == k;
      assert txs[..n][i] == txs[i];
    } else {
      assert keep(txs[n]) && key(txs[n]) == k;
    }
  }

  /** A key never inserted holds nothing. */
  lemma {:induction false} AbsentKeyHasNoSum(txs: seq<Transaction>, keep: Transaction -> bool,
                                             key: Transaction -> string, weight: Transaction -> int, k: string)
    requires k !in Keys(txs, keep, key)
    ensures GroupSum(txs, keep, key, weight, k) == 0
    decreases |txs|
  {
    if |txs| > 0 {
      AbsentKeyHasNoSum(txs[..|txs| - 1], keep, key, weight, k);
    }
  }

  /** The groups of `ks` added up. */
  function SumGroups(ks: seq<string>, txs: seq<Transaction>, keep: Transaction -> bool,
                     key: Transaction -> string, weight: Transaction -> int): int
    decreases |ks|
  {
    if |ks| == 0 then 0
    else SumGroups(ks[..|ks| - 1], txs, keep, key, weight) + GroupSum(txs, keep, key, weight, ks[|ks| - 1])
  }

  lemma {:induction false} SumGroupsAppend(a: seq<string>, b: seq<string>, txs: seq<Transaction>,
                                           keep: Transaction -> bool, key: Transaction -> string, weight: Transaction -> int)
    ensures SumGroups(a + b, txs, keep, key, weight) == SumGroups(a, txs, keep, key, weight) + SumGroups(b, txs, keep, key, weight)
    decreases |b|
  {
    if |b| == 0 {
      assert a + b == a;
    } else {
      SumGroupsAppend(a, b[..|b| - 1], txs, keep, key, weight);
      assert (a + b)[..|a + b| - 1] == a + b[..|b| - 1];
      assert (a + b)[|a + b| - 1] == b[|b| - 1];
    }
  }

  /** The order the keys are listed in does not change their sum. */
  lemma {:induction false} SumGroupsPermutation(a: seq<string>, b: seq<string>, txs: seq<Transaction>,
                                                keep: Transaction -> bool, key: Transaction -> string, weight: Transaction -> int)
    requires multiset(a) == multiset(b)
    ensures SumGroups(a, txs, keep, key, weight) == SumGroups(b, txs, keep, key, weight)
    decreases |a|
  {
    if |a| == 0 {
      assert |b| == |multiset(b)| == 0;
    } else {
      var n := |a| - 1;
      var x := a[n];
      assert a == a[..n] + [x];
      assert x in multiset(b);
      var i :| 0 <= i < |b| && b[i] == x;
      var rest := b[..i] + b[i + 1..];
      assert b == b[..i] + [x] + b[i + 1..];
      assert multiset(b) == multiset(b[..i]) + multiset{x} + multiset(b[i + 1..]);
      assert multiset(a) == multiset(a[..n]) + multiset{x};
      assert multiset(rest) == multiset(b[..i]) + multiset(b[i + 1..]);
      assert multiset(rest) + multiset{x} == multiset(a[..n]) + multiset{x};
      forall y ensures multiset(rest)[y] == multiset(a[..n])[y] {
        assert (multiset(rest) + multiset{x})[y] == (multiset(a[..n]) + multiset{x})[y];
      }
      assert multiset(rest) == multiset(a[..n]);
      SumGroupsPermutation(a[..n], rest, txs, keep, key, weight);
      SumGroupsAppend(b[..i] + [x], b[i + 1..], txs, keep, key, weight);
      SumGroupsAppend(b[..i], [x], txs, keep, key, weight);
      SumGroupsAppend(b[..i], b[i + 1..], txs, keep, key, weight);
      assert [x][..0] == [];
    }
  }

  /** One more transaction adds its weight to the group of its key, if that key is
      listed and the transaction is kept. */
  lemma {:induction false} SumGroupsStep(ks: seq<string>, txs: seq<Transaction>, t: Transaction,
                                         keep: Transaction -> bool, key: Transaction -> string, weight: Transaction -> int)
    requires DistinctStrings(ks)
    ensures SumGroups(ks, txs + [t], keep, key, weight)
      == SumGroups(ks, txs, keep, key, weight) + (if keep(t) && key(t) in ks then weight(t) else 0)
    decreases |ks|
  {
    assert (txs + [t])[..|txs|] == txs;
    if |ks| > 0 {
      var init := ks[..|ks| - 1];
      assert DistinctStrings(init) by {
        forall i, j | 0 <= i < j < |init| ensures init[i] != init[j] {
          assert init[i] == ks[i] && init[j] == ks[j];
        }
      }
      SumGroupsStep(init, txs, t, keep, key, weight);
      assert ks == init + [ks[|ks| - 1]];
      if key(t) == ks[|ks| - 1] {
        assert key(t) !in init;
      }
    }
  }

  /** The groups together hold exactly the weight of the kept transactions. */
  lemma {:induction false} GroupsCoverKept(txs: seq<Transaction>, keep: Transaction -> bool,
                                          key: Transaction -> string, weight: Transaction -> int)
    ensures SumGroups(Keys(txs, keep, key), txs, keep, key, weight) == KeptTotal(txs, keep, weight)
    decreases |txs|
  {
    if |txs| > 0 {
      var init := txs[..|txs| - 1];
      var t := txs[|txs| - 1];
      var ks := Keys(init, keep, key);
      GroupsCoverKept(init, keep, key, weight);
      assert init + [t] == txs;
      SumGroupsStep(ks, init, t, keep, key, weight);
      if keep(t) && key(t) !in ks {
        AbsentKeyHasNoSum(init, keep, key, weight, key(t));
        assert (ks + [key(t)])[..|ks|] == ks;
      }
    }
  }

  lemma {:induction false} DistinctAtMostOnce(a: seq<string>, x: string)
    requires DistinctStrings(a)
    ensures multiset(a)[x] <= 1
    decreases |a|
  {
    if |a| > 0 {
      var n := |a| - 1;
      assert a == a[..n] + [a[n]];
      assert DistinctStrings(a[..n]) by {
        forall i, j | 0 <= i < j < n ensures a[..n][i] != a[..n][j] {
          assert a[..n][i] == a[i] && a[..n][j] == a[j];
        }
      }
      DistinctAtMostOnce(a[..n], x);
      if a[n] == x {
        assert x !in a[..n];
      }
    }
  }

  /** Reordering keeps a list free of repeats. */
  lemma DistinctPermutation(a: seq<string>, b: seq<string>)
    requires DistinctStrings(a) && multiset(a) == multiset(b)
    ensures DistinctStrings(b)
  {
    forall i, j | 0 <= i < j < |b| ensures b[i] != b[j] {
      if b[i] == b[j] {
        var x := b[i];
        assert b == b[..j] + [x] + b[j + 1..];
        assert x in b[..j];
        assert multiset(b)[x] >= 2;
        DistinctAtMostOnce(a, x);
        assert false;
      }
    }
  }
}
