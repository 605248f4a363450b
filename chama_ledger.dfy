/** The chama ledger: one append-only sequence of entries partitioned by `chamaId`
    (`None` is the unallocated pool). A partition's balance is the fold in which a
    "contribution" adds its amount and every other entry subtracts it. This module
    also holds the allocation guard and the two entries an allocation writes, and the
    validation of a new chama, which the chama tab, the allocation panel and the
    chama creation panel all share. */
module Chamas {
  import opened Wrappers
  import opened Records
  import Text

  const Contribution := "contribution"
  const Payout := "payout"

  /** The effect of one entry on its partition's balance. */
  function Signed(e: ChamaEntry): int {
    if e.kind == Contribution then e.amount else -e.amount
  }

  /** `entries.reduce((sum, l) => l.type === "contribution" ? sum + l.amount : sum - l.amount, 0)`. */
  function Net(entries: seq<ChamaEntry>): int
    decreases |entries|
  {
    if |entries| == 0 then 0 else Net(entries[..|entries| - 1]) + Signed(entries[|entries| - 1])
  }

  /** `ledger.filter((l) => l.chamaId === p)`: the entries of partition `p`, in ledger order. */
  function LedgerForView(ledger: seq<ChamaEntry>, p: Option<string>): (r: seq<ChamaEntry>)
    ensures |r| <= |ledger|
    ensures forall e :: e in r <==> e in ledger && e.chamaId == p
    ensures forall i :: 0 <= i < |r| ==> r[i].chamaId == p
    decreases |ledger|
  {
    if |ledger| == 0 then []
    else
      var rest := LedgerForView(ledger[..|ledger| - 1], p);
      var e := ledger[|ledger| - 1];
      assert ledger == ledger[..|ledger| - 1] + [e];
      if e.chamaId == p then rest + [e] else rest
  }

  /** The filter distributes over concatenation: the entries of `x + y` are those of `x`
      followed by those of `y`. With `LedgerForViewSingle` this fixes both the order and
      the multiplicity of the kept entries. */
  lemma {:induction false} LedgerForViewConcat(x: seq<ChamaEntry>, y: seq<ChamaEntry>, p: Option<string>)
    ensures LedgerForView(x + y, p) == LedgerForView(x, p) + LedgerForView(y, p)
    decreases |y|
  {
    if |y| == 0 {
      assert x + y == x;
    } else {
      var y' := y[..|y| - 1];
      var e := y[|y| - 1];
      assert (x + y)[..|x + y| - 1] == x + y';
      assert y[..|y| - 1] == y';
      LedgerForViewConcat(x, y', p);
    }
  }

  /** One entry is kept, once, exactly when it belongs to partition `p`. */
  lemma LedgerForViewSingle(e: ChamaEntry, p: Option<string>)
    ensures LedgerForView([e], p) == if e.chamaId == p then [e] else []
  {
    assert [e][..0] == [];
  }

  /** `balanceFor(p)`: the signed fold over partition `p`. */
  function BalanceFor(ledger: seq<ChamaEntry>, p: Option<string>): int {
    Net(LedgerForView(ledger, p))
  }

  /** Sum of the contribution amounts of partition `p` (an independent reference). */
  function Contributed(ledger: seq<ChamaEntry>, p: Option<string>): int
    decreases |ledger|
  {
    if |ledger| == 0 then 0
    else
      var e := ledger[|ledger| - 1];
      Contributed(ledger[..|ledger| - 1], p) + (if e.chamaId == p && e.kind == Contribution then e.amount else 0)
  }

  /** Sum of the amounts of every non-contribution entry of partition `p`. */
  function Drawn(ledger: seq<ChamaEntry>, p: Option<string>): int
    decreases |ledger|
  {
    if |ledger| == 0 then 0
    else
      var e := ledger[|ledger| - 1];
      Drawn(ledger[..|ledger| - 1], p) + (if e.chamaId == p && e.kind != Contribution then e.amount else 0)
  }

  lemma {:induction false} NetAppend(a: seq<ChamaEntry>, b: seq<ChamaEntry>)
    ensures Net(a + b) == Net(a) + Net(b)
    decreases |b|
  {
    if |b| == 0 {
      assert a + b == a;
    } else {
      assert (a + b)[..|a + b| - 1] == a + b[..|b| - 1];
      assert (a + b)[|a + b| - 1] == b[|b| - 1];
      NetAppend(a, b[..|b| - 1]);
    }
  }

  /** Appending one entry moves only the balance of that entry's own partition. */
  lemma BalanceForAppend(ledger: seq<ChamaEntry>, e: ChamaEntry, p: Option<string>)
    ensures BalanceFor(ledger + [e], p) == BalanceFor(ledger, p) + (if e.chamaId == p then Signed(e) else 0)
  {
    assert (ledger + [e])[..|ledger + [e]| - 1] == ledger;
    if e.chamaId == p {
      NetAppend(LedgerForView(ledger, p), [e]);
    }
  }

  /** `balanceFor(p)` is the contributions of `p` minus everything else booked on `p`;
      an empty ledger gives 0. */
  lemma {:induction false} BalanceIsContributedMinusDrawn(ledger: seq<ChamaEntry>, p: Option<string>)
    ensures BalanceFor(ledger, p) == Contributed(ledger, p) - Drawn(ledger, p)
    ensures ledger == [] ==> BalanceFor(ledger, p) == 0
    decreases |ledger|
  {
    if |ledger| > 0 {
      var init := ledger[..|ledger| - 1];
      var e := ledger[|ledger| - 1];
      assert ledger == init + [e];
      BalanceIsContributedMinusDrawn(init, p);
      BalanceForAppend(init, e, p);
    }
  }

  /** There is no third kind: an entry of partition `p` that is not a contribution
      lowers `balanceFor(p)` by its amount, whatever its `type` string says. */
  lemma NonContributionLowers(ledger: seq<ChamaEntry>, e: ChamaEntry)
    requires e.kind != Contribution
    ensures BalanceFor(ledger + [e], e.chamaId) == BalanceFor(ledger, e.chamaId) - e.amount
  {
    BalanceForAppend(ledger, e, e.chamaId);
  }

  predicate Distinct<T(==)>(ps: seq<T>) {
    forall i, j :: 0 <= i < j < |ps| ==> ps[i] != ps[j]
  }

  /** The sum of `balanceFor` over the partitions `ps`. */
  function SumBalances(ledger: seq<ChamaEntry>, ps: seq<Option<string>>): int
    decreases |ps|
  {
    if |ps| == 0 then 0 else BalanceFor(ledger, ps[0]) + SumBalances(ledger, ps[1..])
  }

  lemma {:induction false} SumBalancesAppend(ledger: seq<ChamaEntry>, e: ChamaEntry, ps: seq<Option<string>>)
    requires Distinct(ps)
    ensures SumBalances(ledger + [e], ps) == SumBalances(ledger, ps) + (if e.chamaId in ps then Signed(e) else 0)
    decreases |ps|
  {
    if |ps| > 0 {
      BalanceForAppend(ledger, e, ps[0]);
      assert Distinct(ps[1..]);
      SumBalancesAppend(ledger, e, ps[1..]);
      if ps[0] == e.chamaId {
        assert e.chamaId !in ps[1..] by {
          forall k | 0 <= k < |ps[1..]| ensures ps[1..][k] != e.chamaId {
            assert ps[1..][k] == ps[k + 1];
          }
        }
      } else {
        assert e.chamaId in ps <==> e.chamaId in ps[1..] by {
          assert ps == [ps[0]] + ps[1..];
        }
      }
    }
  }

  /** Conservation: summed over any list of distinct partitions that covers every entry,
      the partition balances add up to the signed total of the whole ledger. */
  lemma {:induction false} Conservation(ledger: seq<ChamaEntry>, ps: seq<Option<string>>)
    requires Distinct(ps)
    requires forall e :: e in ledger ==> e.chamaId in ps
    ensures SumBalances(ledger, ps) == Net(ledger)
    decreases |ledger|
  {
    if |ledger| == 0 {
      SumBalancesEmpty(ps);
    } else {
      var init := ledger[..|ledger| - 1];
      var e := ledger[|ledger| - 1];
      assert ledger == init + [e];
      Conservation(init, ps);
      SumBalancesAppend(init, e, ps);
    }
  }

  lemma {:induction false} SumBalancesEmpty(ps: seq<Option<string>>)
    ensures SumBalances([], ps) == 0
    decreases |ps|
  {
    if |ps| > 0 { SumBalancesEmpty(ps[1..]); }
  }

  /* ---------- Allocation: unallocated pool -> one chama ---------- */

  datatype AllocError = NoChamaSelected | InvalidAmount | InsufficientFunds

  /** The three guards of `handleAllocate`, in the order the handler checks them: a chama
      must be selected (`!selectedChamaId` rejects null and ""), the amount must be a
      non-zero number above 0, and it may not exceed the unallocated balance (strict `>`). */
  function CheckAllocation(selected: Option<string>, amount: Option<int>, unallocated: int)
    : (r: Result<(string, int), AllocError>)
    ensures r.Ok? <==> (selected.Some? && selected.value != "" && amount.Some?
                        && 0 < amount.value <= unallocated)
    ensures r.Ok? ==> r.value == (selected.value, amount.value)
    ensures r == Err(NoChamaSelected) <==> selected.None? || selected.value == ""
    ensures r == Err(InvalidAmount) <==>
      selected.Some? && selected.value != "" && (amount.None? || amount.value <= 0)
    ensures r == Err(InsufficientFunds) <==>
      selected.Some? && selected.value != "" && amount.Some? && 0 < amount.value && amount.value > unallocated
  {
    if selected.None? || selected.value == "" then Err(NoChamaSelected)
    else if amount.None? || amount.value <= 0 then Err(InvalidAmount)
    else if amount.value > unallocated then Err(InsufficientFunds)
    else Ok((selected.value, amount.value))
  }

  /** The two documents a successful allocation adds, in order: a payout from the
      unallocated pool, then a contribution to the chosen chama carrying the user's note. */
  function AllocationEntries(target: string, v: int, note: string, now: int): (r: seq<ChamaEntry>)
    ensures |r| == 2
    ensures r[0].chamaId == None && r[0].kind == Payout && r[0].amount == v
    ensures r[0].note == "Allocated to chama"
    ensures r[1].chamaId == Some(target) && r[1].kind == Contribution && r[1].amount == v
    ensures r[1].note == note
    ensures r[0].source == "manual" && r[1].source == "manual"
  {
    [ ChamaEntry(None, Payout, v, Millis(now), None, "manual", "Allocated to chama"),
      ChamaEntry(Some(target), Contribution, v, Millis(now), None, "manual", note) ]
  }

  /** Appending two entries: each partition moves by the signed amounts of the entries booked on it. */
  lemma BalanceForAppendTwo(ledger: seq<ChamaEntry>, a: ChamaEntry, b: ChamaEntry, p: Option<string>)
    ensures BalanceFor(ledger + [a, b], p) == BalanceFor(ledger, p)
      + (if a.chamaId == p then Signed(a) else 0) + (if b.chamaId == p then Signed(b) else 0)
  {
    assert ledger + [a, b] == (ledger + [a]) + [b];
    BalanceForAppend(ledger, a, p);
    BalanceForAppend(ledger + [a], b, p);
  }

  /** A successful allocation of `v` lowers the pool by `v`, raises the chosen chama by
      `v` and leaves every other partition alone. */
  lemma AllocationMovesFunds(ledger: seq<ChamaEntry>, target: string, v: int, note: string, now: int, p: Option<string>)
    ensures BalanceFor(ledger + AllocationEntries(target, v, note, now), None) == BalanceFor(ledger, None) - v
    ensures BalanceFor(ledger + AllocationEntries(target, v, note, now), Some(target)) == BalanceFor(ledger, Some(target)) + v
    ensures p != None && p != Some(target) ==>
      BalanceFor(ledger + AllocationEntries(target, v, note, now), p) == BalanceFor(ledger, p)
  {
    var w := AllocationEntries(target, v, note, now);
    assert w == [w[0], w[1]];
    BalanceForAppendTwo(ledger, w[0], w[1], None);
    BalanceForAppendTwo(ledger, w[0], w[1], Some(target));
    BalanceForAppendTwo(ledger, w[0], w[1], p);
  }

  /** An allocation keeps the signed total of the whole chama ledger. */
  lemma AllocationConservesTotal(ledger: seq<ChamaEntry>, target: string, v: int, note: string, now: int)
    ensures Net(ledger + AllocationEntries(target, v, note, now)) == Net(ledger)
  {
    var w := AllocationEntries(target, v, note, now);
    NetAppend(ledger, w);
    assert w[..|w| - 1] == [w[0]];
    assert [w[0]][..0] == [];
    assert Net([w[0]]) == -v;
    assert Net(w) == 0;
  }

  /** The pool's view gains exactly the payout of an allocation, at its end; the
      contribution goes to the chosen chama and not to the pool. */
  lemma AllocationPoolView(ledger: seq<ChamaEntry>, target: string, v: int, note: string, now: int)
    ensures var w := AllocationEntries(target, v, note, now);
      LedgerForView(ledger + w, None) == LedgerForView(ledger, None) + [w[0]]
  {
    var w := AllocationEntries(target, v, note, now);
    assert w == [w[0]] + [w[1]];
    LedgerForViewConcat(ledger, w, None);
    LedgerForViewConcat([w[0]], [w[1]], None);
    LedgerForViewSingle(w[0], None);
    LedgerForViewSingle(w[1], None);
  }

  /** What the guard admits keeps the unallocated pool non-negative; an amount equal to
      the whole pool is admitted and empties it. */
  lemma GuardedAllocationKeepsPoolNonNegative(ledger: seq<ChamaEntry>, selected: Option<string>,
                                              amount: Option<int>, note: string, now: int)
    requires CheckAllocation(selected, amount, BalanceFor(ledger, None)).Ok?
    ensures var (target, v) := CheckAllocation(selected, amount, BalanceFor(ledger, None)).value;
      BalanceFor(ledger + AllocationEntries(target, v, note, now), None) >= 0
    ensures amount == Some(BalanceFor(ledger, None)) ==>
      var (target, v) := CheckAllocation(selected, amount, BalanceFor(ledger, None)).value;
      BalanceFor(ledger + AllocationEntries(target, v, note, now), None) == 0
  {
    var (target, v) := CheckAllocation(selected, amount, BalanceFor(ledger, None)).value;
    AllocationMovesFunds(ledger, target, v, note, now, None);
  }

  /** The worked example: with 5000 unallocated, allocating 3000 to "chama-1" leaves 2000
      unallocated and 3000 in the chama; a second 3000 is refused for insufficient funds. */
  lemma AllocationScenario(ledger: seq<ChamaEntry>, now: int)
    requires BalanceFor(ledger, None) == 5000 && BalanceFor(ledger, Some("chama-1")) == 0
    ensures var after := ledger + AllocationEntries("chama-1", 3000, "test", now);
      && CheckAllocation(Some("chama-1"), Some(3000), BalanceFor(ledger, None)) == Ok(("chama-1", 3000))
      && BalanceFor(after, None) == 2000 && BalanceFor(after, Some("chama-1")) == 3000
      && CheckAllocation(Some("chama-1"), Some(3000), BalanceFor(after, None)) == Err(InsufficientFunds)
  {
    AllocationMovesFunds(ledger, "chama-1", 3000, "test", now, None);
  }

  /* ---------- Chama creation ---------- */

  /** The chama `handleCreateChama` adds, or `None` when the trimmed name is empty:
      trimmed name, status active, trimmed note (`note.trim() || ""`). */
  function NewChama(name: string, note: string, id: string, now: int): (r: Option<Chama>)
    ensures r.None? <==> Text.AllSpace(name)
    ensures r.Some? ==> (r.value.name == Text.Trim(name) && r.value.name != ""
      && !Text.IsSpace(r.value.name[0]) && !Text.IsSpace(r.value.name[|r.value.name| - 1]))
    ensures r.Some? ==> (r.value.status == Active && r.value.note == Text.Trim(note)
      && r.value.id == id && r.value.createdAt == now)
  {
    Text.TrimEmptyIffAllSpace(name);
    Text.TrimSpec(name);
    if Text.Trim(name) == "" then None
    else Some(Chama(id, Text.Trim(name), Active, now, Text.Trim(note)))
  }
}
