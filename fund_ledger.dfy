/** The savings ledger and the unallocated ledger: append-only lists of deposits and
    withdrawals whose available balance is derived, never stored. Both tabs compute it
    the same way, so it is defined once here over `FundEntry`. */
module FundLedger {
  import opened Wrappers
  import opened Records

  const Deposit := "deposit"
  const Withdrawal := "withdrawal"

  /** `ledger.filter(l => l.type === k).reduce((s, e) => s + Number(e.amount), 0)`. */
  function TotalOfKind(l: seq<FundEntry>, k: string): int
    decreases |l|
  {
    if |l| == 0 then 0
    else TotalOfKind(l[..|l| - 1], k) + (if l[|l| - 1].kind == k then l[|l| - 1].amount else 0)
  }

  function TotalDeposits(l: seq<FundEntry>): int {
    TotalOfKind(l, Deposit)
  }

  function TotalWithdrawals(l: seq<FundEntry>): int {
    TotalOfKind(l, Withdrawal)
  }

  /** `available = totalDeposits - totalWithdrawals`. */
  function Available(l: seq<FundEntry>): int {
    TotalDeposits(l) - TotalWithdrawals(l)
  }

  /** Reference reading of one entry: a deposit adds, a withdrawal subtracts, any other
      type is ignored. */
  function Effect(e: FundEntry): int {
    if e.kind == Deposit then e.amount else if e.kind == Withdrawal then -e.amount else 0
  }

  /** The ledger read front to back, one entry at a time. */
  function Replay(l: seq<FundEntry>): int
    decreases |l|
  {
    if |l| == 0 then 0 else Effect(l[0]) + Replay(l[1..])
  }

  lemma {:induction false} TotalOfKindAppend(a: seq<FundEntry>, b: seq<FundEntry>, k: string)
    ensures TotalOfKind(a + b, k) == TotalOfKind(a, k) + TotalOfKind(b, k)
    decreases |b|
  {
    if |b| == 0 {
      assert a + b == a;
    } else {
      assert (a + b)[..|a + b| - 1] == a + b[..|b| - 1];
      assert (a + b)[|a + b| - 1] == b[|b| - 1];
      TotalOfKindAppend(a, b[..|b| - 1], k);
    }
  }

  /** The balance of a concatenation is the sum of the balances. */
  lemma AvailableAppend(a: seq<FundEntry>, b: seq<FundEntry>)
    ensures Available(a + b) == Available(a) + Available(b)
  {
    TotalOfKindAppend(a, b, Deposit);
    TotalOfKindAppend(a, b, Withdrawal);
  }

  /** The two filtered totals agree with replaying the ledger entry by entry. */
  lemma {:induction false} AvailableIsReplay(l: seq<FundEntry>)
    ensures Available(l) == Replay(l)
    decreases |l|
  {
    if |l| > 0 {
      AvailableIsReplay(l[1..]);
      AvailableAppend([l[0]], l[1..]);
      assert [l[0]] + l[1..] == l;
      AppendOne([], l[0]);
      assert [] + [l[0]] == [l[0]];
    }
  }

  /** Appending one entry moves the balance by that entry's effect; a withdrawal leaves
      the deposit total alone and a deposit leaves the withdrawal total alone. */
  lemma AppendOne(l: seq<FundEntry>, e: FundEntry)
    ensures Available(l + [e]) == Available(l) + Effect(e)
    ensures e.kind != Deposit ==> TotalDeposits(l + [e]) == TotalDeposits(l)
    ensures e.kind != Withdrawal ==> TotalWithdrawals(l + [e]) == TotalWithdrawals(l)
  {
    assert (l + [e])[..|l|] == l;
  }

  datatype WithdrawError = InvalidAmount | InsufficientFunds

  /** The withdrawal guard of both tabs: a missing amount or one not above 0 is invalid,
      one above the available balance is refused. */
  function CheckWithdrawal(amount: Option<int>, available: int): (r: Result<int, WithdrawError>)
    ensures r.Ok? <==> amount.Some? && 0 < amount.value <= available
    ensures r.Ok? ==> r.value == amount.value
    ensures r == Err(InvalidAmount) <==> amount.None? || amount.value <= 0
  {
    if amount.None? || amount.value <= 0 then Err(InvalidAmount)
    else if amount.value > available then Err(InsufficientFunds)
    else Ok(amount.value)
  }

  /** A withdrawal accepted by the guard lowers the balance by its amount and never
      takes it below 0; withdrawing exactly the balance empties it. */
  lemma GuardedWithdrawal(l: seq<FundEntry>, amount: Option<int>, e: FundEntry)
    requires CheckWithdrawal(amount, Available(l)).Ok?
    requires e.kind == Withdrawal && e.amount == amount.value
    ensures Available(l + [e]) == Available(l) - amount.value >= 0
    ensures amount.value == Available(l) ==> Available(l + [e]) == 0
    ensures TotalDeposits(l + [e]) == TotalDeposits(l)
  {
    AppendOne(l, e);
  }

  /** A ledger whose deposits are non-negative and whose withdrawals all passed the
      guard never shows a negative balance. */
  lemma NonNegativeStaysNonNegative(l: seq<FundEntry>, e: FundEntry)
    requires Available(l) >= 0
    requires e.kind == Deposit ==> e.amount >= 0
    requires e.kind == Withdrawal ==> CheckWithdrawal(Some(e.amount), Available(l)).Ok?
    ensures Available(l + [e]) >= 0
  {
    AppendOne(l, e);
  }
}
