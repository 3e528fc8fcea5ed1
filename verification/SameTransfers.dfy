/** Many concurrent transfers of one amount between two accounts that nothing else changes. */
module SameTransfers {
  import opened Schema
  import opened Statements
  import opened Requests
  import opened Transfers
  import opened Ledger
  import opened Engine
  import opened Serializability

  /** A direct transfer of `amount` from `a` to `b`. */
  predicate IsOurs(req: Request, a: int, b: int, amount: int) {
    (req.Move? || req.Pay?) && req.from == a && req.to == b && Amount(req) == amount
  }

  /** A request that changes neither balance. */
  predicate Elsewhere(req: Request, a: int, b: int) {
    match req
    case Move(from, to, _, _, _) => from != a && from != b && to != a && to != b
    case Pay(_, _, from, to, _, _, _) => from != a && from != b && to != a && to != b
    case SetAccount(x, _) => x != a && x != b
    case DeleteAccount(x) => x != a && x != b
    case OpenAccount(_, _, _) => true
    case RecordEntry(_, _, _) => true
  }

  ghost predicate OnlyOurs(log: seq<Record>, a: int, b: int, amount: int) {
    forall i :: 0 <= i < |log| ==> IsOurs(log[i].req, a, b, amount) || Elsewhere(log[i].req, a, b)
  }

  /** How many of our transfers are among the first `i` commits. */
  function Ours(log: seq<Record>, i: nat, a: int, b: int, amount: int): nat
    requires i <= |log|
  {
    if i == 0 then 0
    else Ours(log, i - 1, a, b, amount) + (if IsOurs(log[i - 1].req, a, b, amount) then 1 else 0)
  }

  lemma ServeMoves(t: Tables, req: Request, ids: Ids, a: int, b: int, amount: int)
    requires Acceptable(req) && Serve(t, req, ids).Some? && a != b && amount > 0
    requires a in t.accounts && b in t.accounts
    requires IsOurs(req, a, b, amount) || Elsewhere(req, a, b)
    ensures var w := Serve(t, req, ids).value;
            var x := if IsOurs(req, a, b, amount) then amount else 0;
            && a in w.accounts && w.accounts[a].balance == t.accounts[a].balance - x
            && b in w.accounts && w.accounts[b].balance == t.accounts[b].balance + x
  {}

  /** The two accounts hold what they started with, `k` amounts moved. */
  ghost predicate Moved(base: Tables, t: Tables, k: int, a: int, b: int, amount: int) {
    && a in base.accounts && b in base.accounts && a in t.accounts && b in t.accounts
    && t.accounts[a].balance == base.accounts[a].balance - k * amount
    && t.accounts[b].balance == base.accounts[b].balance + k * amount
  }

  lemma OneMore(base: Tables, t: Tables, w: Tables, k: int, a: int, b: int, amount: int)
    requires Moved(base, t, k, a, b, amount) && a in w.accounts && b in w.accounts
    requires w.accounts[a].balance == t.accounts[a].balance - amount
    requires w.accounts[b].balance == t.accounts[b].balance + amount
    ensures Moved(base, w, k + 1, a, b, amount)
  {
    assert (k + 1) * amount == k * amount + amount;
  }

  lemma CommitMoves(base: Tables, log: seq<Record>, i: nat, k: int, a: int, b: int, amount: int)
    requires GoodLog(base, log) && i < |log| && a != b && amount > 0
    requires IsOurs(log[i].req, a, b, amount) || Elsewhere(log[i].req, a, b)
    requires Moved(base, At(base, log, i), k, a, b, amount)
    ensures Moved(base, At(base, log, i + 1), if IsOurs(log[i].req, a, b, amount) then k + 1 else k, a, b, amount)
  {
    EachCommitServes(base, log, i);
    ServeMoves(At(base, log, i), log[i].req, log[i].ids, a, b, amount);
    if IsOurs(log[i].req, a, b, amount) {
      OneMore(base, At(base, log, i), At(base, log, i + 1), k, a, b, amount);
    }
  }

  /** Where our transfers have brought the two accounts after `i` commits. */
  ghost predicate MovedAt(base: Tables, log: seq<Record>, i: nat, a: int, b: int, amount: int)
    requires i <= |log|
  {
    Moved(base, At(base, log, i), Ours(log, i, a, b, amount), a, b, amount)
  }

  lemma OneCommitMoves(base: Tables, log: seq<Record>, i: nat, a: int, b: int, amount: int)
    requires GoodLog(base, log) && i < |log| && a != b && amount > 0 && OnlyOurs(log, a, b, amount)
    requires MovedAt(base, log, i, a, b, amount)
    ensures MovedAt(base, log, i + 1, a, b, amount)
  {
    CommitMoves(base, log, i, Ours(log, i, a, b, amount), a, b, amount);
  }

  lemma {:induction false} BalancesMoveInSteps(base: Tables, log: seq<Record>, i: nat, a: int, b: int, amount: int)
    requires GoodLog(base, log) && i <= |log| && a in base.accounts && b in base.accounts && a != b && amount > 0
    requires OnlyOurs(log, a, b, amount)
    ensures MovedAt(base, log, i, a, b, amount)
    decreases i
  {
    if i > 0 {
      BalancesMoveInSteps(base, log, i - 1, a, b, amount);
      OneCommitMoves(base, log, i - 1, a, b, amount);
    }
  }

  /** The receipt in `r` shows both balances moved by `k` amounts since the start. */
  ghost predicate Shows(base: Tables, r: Record, k: int, a: int, b: int, amount: int)
    requires a in base.accounts && b in base.accounts
  {
    exists receipt :: r.rows == ReceiptRows(receipt)
      && base.accounts[a].balance - receipt.fromAccount.balance == k * amount
      && receipt.toAccount.balance - base.accounts[b].balance == k * amount
  }

  /** The rows of a transfer determine its receipt. */
  lemma ReceiptRowsAreInjective(x: Receipt, y: Receipt)
    requires ReceiptRows(x) == ReceiptRows(y)
    ensures x == y
  {
    var r := ReceiptRows(x);
    assert r[2] == TransferRow(x.transferId, x.transfer) == TransferRow(y.transferId, y.transfer);
    assert r[3] == EntryRow(x.fromEntryId, x.fromEntry) == EntryRow(y.fromEntryId, y.fromEntry);
    assert r[4] == EntryRow(x.toEntryId, x.toEntry) == EntryRow(y.toEntryId, y.toEntry);
    if x.transfer.from < x.transfer.to {
      assert r[5] == AccountRow(x.transfer.from, x.fromAccount) && r[6] == AccountRow(x.transfer.to, x.toAccount);
    } else {
      assert r[6] == AccountRow(x.transfer.from, x.fromAccount) && r[5] == AccountRow(x.transfer.to, x.toAccount);
    }
  }

  lemma ShowsOneStep(base: Tables, r: Record, j: int, k: int, a: int, b: int, amount: int)
    requires a in base.accounts && b in base.accounts && amount > 0
    requires Shows(base, r, j, a, b, amount) && Shows(base, r, k, a, b, amount)
    ensures j == k
  {
    var x :| r.rows == ReceiptRows(x) && base.accounts[a].balance - x.fromAccount.balance == j * amount;
    var y :| r.rows == ReceiptRows(y) && base.accounts[a].balance - y.fromAccount.balance == k * amount;
    ReceiptRowsAreInjective(x, y);
    SameMultiple(j, k, amount);
  }

  lemma SameMultiple(j: int, k: int, amount: int)
    requires amount > 0 && j * amount == k * amount
    ensures j == k
  {
    assert (j - k) * amount == 0;
  }

  /** The transfer at `i` shows one step more than our transfers before it. */
  lemma ReceiptsShowSteps(base: Tables, log: seq<Record>, i: nat, a: int, b: int, amount: int)
    requires GoodLog(base, log) && i < |log| && a in base.accounts && b in base.accounts && a != b && amount > 0
    requires OnlyOurs(log, a, b, amount) && IsOurs(log[i].req, a, b, amount)
    ensures Shows(base, log[i], Ours(log, i, a, b, amount) + 1, a, b, amount)
  {
    BalancesMoveInSteps(base, log, i, a, b, amount);
    EachReceiptIsSerial(base, log, i);
    ReceiptShows(base, At(base, log, i), log[i], Ours(log, i, a, b, amount), a, b, amount);
  }

  lemma ReceiptShows(base: Tables, t: Tables, r: Record, k: int, a: int, b: int, amount: int)
    requires Moved(base, t, k, a, b, amount) && a != b && amount > 0 && IsOurs(r.req, a, b, amount)
    requires InInt64(amount) && CanTransfer(t, a, b, amount, r.ids)
    requires r.rows == ReceiptRows(ReceiptFor(t, a, b, amount, r.req.at, r.ids))
    ensures Shows(base, r, k + 1, a, b, amount)
  {
    assert (k + 1) * amount == k * amount + amount;
    var receipt := ReceiptFor(t, a, b, amount, r.req.at, r.ids);
    assert r.rows == ReceiptRows(receipt);
  }

  lemma {:induction false} OursGrows(log: seq<Record>, i: nat, j: nat, a: int, b: int, amount: int)
    requires i <= j <= |log|
    ensures Ours(log, i, a, b, amount) <= Ours(log, j, a, b, amount)
    decreases j
  {
    if i < j { OursGrows(log, i, j - 1, a, b, amount); }
  }

  /** Some transfer of ours is preceded by exactly `k` others. */
  lemma {:induction false} SomeoneIsPreceded(log: seq<Record>, n: nat, k: nat, a: int, b: int, amount: int)
    returns (i: nat)
    requires n <= |log| && k < Ours(log, n, a, b, amount)
    ensures i < n && IsOurs(log[i].req, a, b, amount) && Ours(log, i, a, b, amount) == k
    decreases n
  {
    if k < Ours(log, n - 1, a, b, amount) {
      i := SomeoneIsPreceded(log, n - 1, k, a, b, amount);
    } else {
      i := n - 1;
    }
  }

  // ---------- The steps shown are a permutation of 1..n ----------

  /** Every transfer shows a step from 1 to the number of our transfers. */
  lemma StepsAreInRange(base: Tables, log: seq<Record>, i: nat, a: int, b: int, amount: int) returns (k: nat)
    requires GoodLog(base, log) && a in base.accounts && b in base.accounts && a != b && amount > 0
    requires OnlyOurs(log, a, b, amount) && i < |log| && IsOurs(log[i].req, a, b, amount)
    ensures 1 <= k <= Ours(log, |log|, a, b, amount) && Shows(base, log[i], k, a, b, amount)
  {
    k := Ours(log, i, a, b, amount) + 1;
    OursGrows(log, i + 1, |log|, a, b, amount);
    ReceiptsShowSteps(base, log, i, a, b, amount);
  }

  /** Every step from 1 to the number of our transfers is shown by one of them. */
  lemma EveryStepIsShown(base: Tables, log: seq<Record>, k: nat, a: int, b: int, amount: int) returns (i: nat)
    requires GoodLog(base, log) && a in base.accounts && b in base.accounts && a != b && amount > 0
    requires OnlyOurs(log, a, b, amount) && 1 <= k <= Ours(log, |log|, a, b, amount)
    ensures i < |log| && IsOurs(log[i].req, a, b, amount) && Shows(base, log[i], k, a, b, amount)
  {
    i := SomeoneIsPreceded(log, |log|, k - 1, a, b, amount);
    ReceiptsShowSteps(base, log, i, a, b, amount);
  }

  /** No step is shown by two of them. */
  lemma StepsAreDistinct(base: Tables, log: seq<Record>, i: nat, j: nat, k: int, a: int, b: int, amount: int)
    requires GoodLog(base, log) && a in base.accounts && b in base.accounts && a != b && amount > 0
    requires OnlyOurs(log, a, b, amount) && i < j < |log|
    requires IsOurs(log[i].req, a, b, amount) && IsOurs(log[j].req, a, b, amount)
    ensures !(Shows(base, log[i], k, a, b, amount) && Shows(base, log[j], k, a, b, amount))
  {
    if Shows(base, log[i], k, a, b, amount) && Shows(base, log[j], k, a, b, amount) {
      ReceiptsShowSteps(base, log, i, a, b, amount);
      ReceiptsShowSteps(base, log, j, a, b, amount);
      ShowsOneStep(base, log[i], k, Ours(log, i, a, b, amount) + 1, a, b, amount);
      ShowsOneStep(base, log[j], k, Ours(log, j, a, b, amount) + 1, a, b, amount);
      OursGrows(log, i + 1, j, a, b, amount);
    }
  }

  ghost predicate InRange(k: int, n: int) {
    1 <= k <= n
  }

  /** The record at `i` is one of our transfers and shows step `k`. */
  ghost predicate ShownBy(base: Tables, log: seq<Record>, i: int, k: int, a: int, b: int, amount: int)
    requires a in base.accounts && b in base.accounts
  {
    0 <= i < |log| && IsOurs(log[i].req, a, b, amount) && Shows(base, log[i], k, a, b, amount)
  }

  ghost predicate EachShowsAStep(base: Tables, log: seq<Record>, n: int, a: int, b: int, amount: int)
    requires a in base.accounts && b in base.accounts
  {
    forall i :: 0 <= i < |log| && IsOurs(log[i].req, a, b, amount) ==>
      exists k :: InRange(k, n) && ShownBy(base, log, i, k, a, b, amount)
  }

  ghost predicate EachStepIsShown(base: Tables, log: seq<Record>, n: int, a: int, b: int, amount: int)
    requires a in base.accounts && b in base.accounts
  {
    forall k :: InRange(k, n) ==> exists i :: ShownBy(base, log, i, k, a, b, amount)
  }

  ghost predicate NoStepIsShownTwice(base: Tables, log: seq<Record>, a: int, b: int, amount: int)
    requires a in base.accounts && b in base.accounts
  {
    forall i, j, k :: ShownBy(base, log, i, k, a, b, amount) && ShownBy(base, log, j, k, a, b, amount) ==> i == j
  }

  lemma EachDoesShow(base: Tables, log: seq<Record>, a: int, b: int, amount: int)
    requires GoodLog(base, log) && a in base.accounts && b in base.accounts && a != b && amount > 0
    requires OnlyOurs(log, a, b, amount)
    ensures EachShowsAStep(base, log, Ours(log, |log|, a, b, amount), a, b, amount)
  {
    var n := Ours(log, |log|, a, b, amount);
    forall i | 0 <= i < |log| && IsOurs(log[i].req, a, b, amount)
      ensures exists k :: InRange(k, n) && ShownBy(base, log, i, k, a, b, amount)
    {
      var k := StepsAreInRange(base, log, i, a, b, amount);
      assert InRange(k, n) && ShownBy(base, log, i, k, a, b, amount);
    }
  }

  lemma EachIsShown(base: Tables, log: seq<Record>, a: int, b: int, amount: int)
    requires GoodLog(base, log) && a in base.accounts && b in base.accounts && a != b && amount > 0
    requires OnlyOurs(log, a, b, amount)
    ensures EachStepIsShown(base, log, Ours(log, |log|, a, b, amount), a, b, amount)
  {
    var n := Ours(log, |log|, a, b, amount);
    forall k | InRange(k, n)
      ensures exists i :: ShownBy(base, log, i, k, a, b, amount)
    {
      var i := EveryStepIsShown(base, log, k, a, b, amount);
      assert ShownBy(base, log, i, k, a, b, amount);
    }
  }

  lemma NoneIsShownTwice(base: Tables, log: seq<Record>, a: int, b: int, amount: int)
    requires GoodLog(base, log) && a in base.accounts && b in base.accounts && a != b && amount > 0
    requires OnlyOurs(log, a, b, amount)
    ensures NoStepIsShownTwice(base, log, a, b, amount)
  {
    forall i, j, k | ShownBy(base, log, i, k, a, b, amount) && ShownBy(base, log, j, k, a, b, amount)
      ensures i == j
    {
      if i < j {
        StepsAreDistinct(base, log, i, j, k, a, b, amount);
      } else if j < i {
        StepsAreDistinct(base, log, j, i, k, a, b, amount);
      }
    }
  }

  /** In any log of such transfers the steps shown are exactly 1 to n, each shown by exactly one receipt. */
  ghost predicate ShowsAPermutation(base: Tables, log: seq<Record>, a: int, b: int, amount: int)
    requires a in base.accounts && b in base.accounts
  {
    var n := Ours(log, |log|, a, b, amount);
    && EachShowsAStep(base, log, n, a, b, amount)
    && EachStepIsShown(base, log, n, a, b, amount)
    && NoStepIsShownTwice(base, log, a, b, amount)
  }

  lemma GoodLogsShowAPermutation(base: Tables, log: seq<Record>, a: int, b: int, amount: int)
    requires GoodLog(base, log) && OnlyOurs(log, a, b, amount)
    requires a in base.accounts && b in base.accounts && a != b && amount > 0
    ensures ShowsAPermutation(base, log, a, b, amount)
  {
    EachDoesShow(base, log, a, b, amount);
    EachIsShown(base, log, a, b, amount);
    NoneIsShownTwice(base, log, a, b, amount);
  }

  /** What the concurrency test samples, for any number of transfers and under any interleaving. */
  lemma StepsAreAPermutation(s: State, run: seq<Event>, a: int, b: int, amount: int)
    requires Initial(s) && Sound(s.base) && Legal(s, run)
    requires a in s.base.accounts && b in s.base.accounts && a != b && amount > 0
    requires OnlyOurs(Final(s, run).log, a, b, amount)
    ensures ShowsAPermutation(s.base, Final(s, run).log, a, b, amount)
  {
    RunsGiveGoodLogs(s, run);
    GoodLogsShowAPermutation(s.base, Final(s, run).log, a, b, amount);
  }
}
