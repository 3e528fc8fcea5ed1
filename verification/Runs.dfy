/** The ledger over whole runs: identity of accounts, agreement with entries, and what the early checks are worth. */
module Runs {
  import opened Schema
  import opened Statements
  import opened Requests
  import opened Footprints
  import opened Transfers
  import opened Ledger
  import opened Engine
  import opened History
  import opened Serializability

  /** In every reachable state the committed ledger is sound: references, unique keys, double entry, 64-bit balances. */
  lemma CommittedIsSound(s: State, run: seq<Event>)
    requires Initial(s) && Sound(s.base) && Legal(s, run)
    ensures Sound(CommittedTables(Final(s, run)))
  {
    var log := Final(s, run).log;
    RunsGiveGoodLogs(s, run);
    EachCommitServes(s.base, log, |log|);
  }

  // ---------- Accounts keep their identity ----------

  ghost predicate IdsKnownAt(base: Tables, log: seq<Record>, i: nat)
    requires i <= |log|
  {
    IdsIn(At(base, log, i)) <= EverAt(base, log, i)
  }

  lemma IdsStillKnown(base: Tables, log: seq<Record>, i: nat)
    requires GoodLog(base, log) && i < |log| && IdsKnownAt(base, log, i)
    ensures IdsKnownAt(base, log, i + 1)
  {
    EachCommitRuns(base, log, i);
    IdsFollow(log[i].ops, At(base, log, i));
  }

  lemma {:induction false} IdsStay(base: Tables, log: seq<Record>, i: nat)
    requires GoodLog(base, log) && i <= |log|
    ensures IdsKnownAt(base, log, i)
    decreases i
  {
    if i > 0 {
      IdsStay(base, log, i - 1);
      IdsStillKnown(base, log, i - 1);
    }
  }

  lemma {:induction false} EverGrows(base: Tables, log: seq<Record>, p: nat, q: nat)
    requires p <= q <= |log|
    ensures EverAt(base, log, p) <= EverAt(base, log, q)
    decreases q
  {
    if p < q {
      EverGrows(base, log, p, q - 1);
    }
  }

  lemma OneRecordBack(t: Tables, w: Tables, r: Record, ever: set<RowId>, a: int)
    requires Exec(r.ops, t) == Finished(w, r.rows) && Creating(r.ops) !! ever && AccountId(a) in ever
    requires a in w.accounts
    ensures a in t.accounts
    ensures t.accounts[a].owner == w.accounts[a].owner && t.accounts[a].currency == w.accounts[a].currency
  {
    SameAccountBefore(r.ops, t, a);
  }

  /** One commit back: an account known before was there, with the same owner and currency. */
  lemma OneCommitBack(base: Tables, log: seq<Record>, p: nat, q: nat, a: int)
    requires GoodLog(base, log) && p < q <= |log|
    requires a in At(base, log, p).accounts && a in At(base, log, q).accounts
    ensures a in At(base, log, q - 1).accounts
    ensures At(base, log, q - 1).accounts[a].owner == At(base, log, q).accounts[a].owner
    ensures At(base, log, q - 1).accounts[a].currency == At(base, log, q).accounts[a].currency
  {
    var ever := EverAt(base, log, q - 1);
    assert AccountId(a) in ever by { KnownBefore(base, log, p, q - 1, a); }
    EachCommitRuns(base, log, q - 1);
    OneRecordBack(At(base, log, q - 1), At(base, log, q), log[q - 1], ever, a);
  }

  lemma KnownBefore(base: Tables, log: seq<Record>, p: nat, q: nat, a: int)
    requires GoodLog(base, log) && p <= q <= |log| && a in At(base, log, p).accounts
    ensures AccountId(a) in EverAt(base, log, q)
  {
    IdsStay(base, log, p);
    EverGrows(base, log, p, q);
    assert AccountId(a) in IdsIn(At(base, log, p));
  }

  /** An account present at two points of a run was the same account throughout: an id never comes back. */
  lemma {:induction false} IdentityIsStable(base: Tables, log: seq<Record>, p: nat, j: nat, q: nat, a: int)
    requires GoodLog(base, log) && p <= j <= q <= |log|
    requires a in At(base, log, p).accounts && a in At(base, log, q).accounts
    ensures a in At(base, log, j).accounts
    ensures At(base, log, j).accounts[a].owner == At(base, log, q).accounts[a].owner
    ensures At(base, log, j).accounts[a].currency == At(base, log, q).accounts[a].currency
    decreases q
  {
    if j < q {
      OneCommitBack(base, log, p, q, a);
      IdentityIsStable(base, log, p, j, q - 1, a);
    }
  }

  lemma CommitKeepsReference(base: Tables, log: seq<Record>, i: nat, a: int)
    requires GoodLog(base, log) && i < |log| && Referenced(At(base, log, i), a)
    ensures Referenced(At(base, log, i + 1), a)
  {
    EachCommitRuns(base, log, i);
    ReferencesFollow(log[i].ops, At(base, log, i), a);
  }

  lemma ReferencedExists(base: Tables, log: seq<Record>, i: nat, a: int)
    requires GoodLog(base, log) && i <= |log| && Referenced(At(base, log, i), a)
    ensures a in At(base, log, i).accounts
  {
    EachCommitServes(base, log, i);
  }

  /** An account that a transfer or entry names is never deleted. */
  lemma {:induction false} HistoryKeepsAccounts(base: Tables, log: seq<Record>, p: nat, q: nat, a: int)
    requires GoodLog(base, log) && p <= q <= |log| && Referenced(At(base, log, p), a)
    ensures Referenced(At(base, log, q), a) && a in At(base, log, q).accounts
    decreases q
  {
    if p < q {
      HistoryKeepsAccounts(base, log, p, q - 1, a);
      CommitKeepsReference(base, log, q - 1, a);
    }
    ReferencedExists(base, log, q, a);
  }

  lemma DeleteRemoves(base: Tables, log: seq<Record>, d: nat)
    requires GoodLog(base, log) && d < |log| && log[d].req.DeleteAccount?
    ensures log[d].req.account in At(base, log, d).accounts
    ensures log[d].req.account !in At(base, log, d + 1).accounts
    ensures !Referenced(At(base, log, d), log[d].req.account)
  {
    EachCommitServes(base, log, d);
  }

  /** After a delete has committed, nothing that needs the account or inserts one with its id ever commits. */
  lemma DeletedAccountsStayUntouched(base: Tables, log: seq<Record>, d: nat, i: nat)
    requires GoodLog(base, log) && d < i < |log| && log[d].req.DeleteAccount?
    ensures !Touches(log[i].ops, log[d].req.account)
    ensures AccountId(log[d].req.account) !in Creating(log[i].ops)
  {
    var a := log[d].req.account;
    DeleteRemoves(base, log, d);
    KnownBefore(base, log, d, i, a);
    EachCommitRuns(base, log, i);
    if Touches(log[i].ops, a) {
      TouchedExisted(log[i].ops, At(base, log, i), a);
      IdentityIsStable(base, log, d, d + 1, i, a);
    }
  }

  // ---------- Balances agree with entries ----------

  /** What the balance of `a` holds beyond its transfer-linked entries, computed from the requests alone. */
  ghost function Adjustments(base: Tables, log: seq<Record>, i: nat, a: int): int
    requires i <= |log|
  {
    if i == 0 then (if a in base.accounts then Drift(base, a) else 0)
    else
      var r, before := log[i - 1], At(base, log, i - 1);
      if a in before.accounts then
        Adjustments(base, log, i - 1, a)
        + (if r.req.SetAccount? && r.req.account == a then r.req.balance - before.accounts[a].balance else 0)
      else if r.req.OpenAccount? && r.ids.account == a then r.req.balance
      else Adjustments(base, log, i - 1, a)
  }

  lemma CommitMovesDrift(base: Tables, log: seq<Record>, i: nat, a: int)
    requires GoodLog(base, log) && i < |log| && a in At(base, log, i + 1).accounts
    ensures var t, w, req, ids := At(base, log, i), At(base, log, i + 1), log[i].req, log[i].ids;
            && (a !in t.accounts ==> req.OpenAccount? && a == ids.account && Drift(w, a) == req.balance)
            && (a in t.accounts ==>
                  Drift(w, a) == Drift(t, a) +
                  (if req.SetAccount? && req.account == a then req.balance - t.accounts[a].balance else 0))
  {
    EachCommitServes(base, log, i);
    ServeMovesDrift(At(base, log, i), log[i].req, log[i].ids, a);
  }

  /**
   * Ledger agreement over whole runs: balance minus linked entries is the opening balance
   * plus new minus old for every `UpdateAccount`, and nothing else ever contributes.
   */
  lemma {:induction false} LedgerAgrees(base: Tables, log: seq<Record>, i: nat, a: int)
    requires GoodLog(base, log) && i <= |log| && a in At(base, log, i).accounts
    ensures Drift(At(base, log, i), a) == Adjustments(base, log, i, a)
    decreases i
  {
    if i > 0 {
      CommitMovesDrift(base, log, i - 1, a);
      if a in At(base, log, i - 1).accounts {
        LedgerAgrees(base, log, i - 1, a);
      }
    }
  }

  // ---------- The checks before the transaction ----------

  /** A committed payment had passed its checks on versions of its accounts that had been committed by then. */
  lemma ReadingsWereCommitted(base: Tables, log: seq<Record>, i: nat)
    requires GoodLog(base, log) && i < |log| && log[i].req.Pay?
    ensures log[i].source.Some? && log[i].payee.Some? && log[i].source.value.at <= log[i].payee.value.at <= i
    ensures var req, source, payee := log[i].req, log[i].source.value, log[i].payee.value;
            && Lookup(At(base, log, source.at).accounts, req.from) == Some(source.account)
            && Lookup(At(base, log, payee.at).accounts, req.to) == Some(payee.account)
            && source.account.owner == req.user && source.account.currency == req.currency == payee.account.currency
            && req.amount <= source.account.balance
  {
    assert CheckedAt(base, log, i);
    var p, q := log[i].source.value.at, log[i].payee.value.at;
    assert log[..i][..p] == log[..p] && log[..i][..q] == log[..q];
    AtIsReplay(base, log, p);
    AtIsReplay(base, log, q);
  }

  /**
   * The owner and currency that the handler read still hold when the transfer commits,
   * although it read them before its transaction began and without a lock.
   */
  lemma ChecksStillHold(base: Tables, log: seq<Record>, i: nat)
    requires GoodLog(base, log) && i < |log| && log[i].req.Pay?
    ensures var req, t := log[i].req, At(base, log, i);
            && req.from in t.accounts && t.accounts[req.from].owner == req.user
            && t.accounts[req.from].currency == req.currency
            && req.to in t.accounts && t.accounts[req.to].currency == req.currency
  {
    var req := log[i].req;
    EachReceiptIsSerial(base, log, i);
    ReadingsWereCommitted(base, log, i);
    var p, q := log[i].source.value.at, log[i].payee.value.at;
    IdentityIsStable(base, log, p, p, i, req.from);
    IdentityIsStable(base, log, q, q, i, req.to);
  }

  /** Every payment that commits conserves the money of every currency. */
  lemma PaymentsConserve(base: Tables, log: seq<Record>, i: nat, currency: string)
    requires GoodLog(base, log) && i < |log| && log[i].req.Pay?
    ensures Total(At(base, log, i + 1), currency) == Total(At(base, log, i), currency)
  {
    var req := log[i].req;
    ChecksStillHold(base, log, i);
    EachReceiptIsSerial(base, log, i);
    EachCommitServes(base, log, i);
    TransferMovesTotals(At(base, log, i), req.from, req.to, req.amount, req.at, log[i].ids, currency);
  }

  lemma CommitMovesTotal(base: Tables, log: seq<Record>, i: nat, currency: string)
    requires GoodLog(base, log) && i < |log|
    ensures Acceptable(log[i].req)
    ensures Total(At(base, log, i + 1), currency) ==
            Total(At(base, log, i), currency) + Inflow(At(base, log, i), log[i].req, currency)
  {
    assert ShapedAt(log, i);
    if log[i].req.Pay? {
      PaymentsConserve(base, log, i, currency);
    } else {
      EachCommitServes(base, log, i);
      ServeMovesTotals(At(base, log, i), log[i].req, log[i].ids, currency);
    }
  }

  /** What the first `i` commits brought into or took out of the total of a currency. */
  function Inflows(base: Tables, log: seq<Record>, i: nat, currency: string): int
    requires RecordsShaped(log) && i <= |log|
  {
    if i == 0 then 0
    else
      assert ShapedAt(log, i - 1);
      Inflows(base, log, i - 1, currency) + Inflow(At(base, log, i - 1), log[i - 1].req, currency)
  }

  ghost predicate TotalAgreesAt(base: Tables, log: seq<Record>, i: nat, currency: string)
    requires RecordsShaped(log) && i <= |log|
  {
    Total(At(base, log, i), currency) == Total(base, currency) + Inflows(base, log, i, currency)
  }

  lemma TotalStillAgrees(base: Tables, log: seq<Record>, i: nat, currency: string)
    requires GoodLog(base, log) && i < |log| && TotalAgreesAt(base, log, i, currency)
    ensures TotalAgreesAt(base, log, i + 1, currency)
  {
    CommitMovesTotal(base, log, i, currency);
  }

  /**
   * Money over whole runs: the total of a currency is what it was at the start, plus opening balances,
   * plus new minus old of every `UpdateAccount`, plus what bare transfers moved in from other currencies,
   * less the balances of deleted accounts; payments never contribute.
   */
  lemma {:induction false} TotalsAgree(base: Tables, log: seq<Record>, i: nat, currency: string)
    requires GoodLog(base, log) && i <= |log|
    ensures TotalAgreesAt(base, log, i, currency)
    decreases i
  {
    if i > 0 {
      TotalsAgree(base, log, i - 1, currency);
      TotalStillAgrees(base, log, i - 1, currency);
    }
  }

  // ---------- Overdraft ----------

  function Positive(x: int): nat {
    if x > 0 then x else 0
  }

  /** By how much a request lowers the balance of `a`: a debit, or an `UpdateAccount` to less. */
  function Lowers(t: Tables, req: Request, a: int): nat
    requires Acceptable(req)
  {
    match req
    case Move(from, to, amount, _, _) =>
      if from == to then 0
      else if a == from then Positive(-Negate(amount))
      else if a == to then Positive(-amount)
      else 0
    case Pay(_, _, from, to, amount, _, _) =>
      if a == from then amount else 0
    case SetAccount(b, balance) =>
      if a == b && a in t.accounts then Positive(t.accounts[a].balance - balance) else 0
    case _ => 0
  }

  /** Debits and decreases of account `a` among the commits from `p` up to `q`. */
  function Lowered(base: Tables, log: seq<Record>, p: nat, q: nat, a: int): nat
    requires RecordsShaped(log) && p <= q <= |log|
  {
    if p == q then 0
    else
      assert ShapedAt(log, q - 1);
      Lowered(base, log, p, q - 1, a) + Lowers(At(base, log, q - 1), log[q - 1].req, a)
  }

  /** Which is what it says: the fall of the balance, if it falls. */
  lemma ServeLowersBy(t: Tables, req: Request, ids: Ids, a: int)
    requires Acceptable(req) && Serve(t, req, ids).Some? && a in t.accounts && a in Serve(t, req, ids).value.accounts
    requires InInt64(t.accounts[a].balance)
    ensures Lowers(t, req, a) == Positive(t.accounts[a].balance - Serve(t, req, ids).value.accounts[a].balance)
  {}

  /** What is in `a`, with everything added back that was taken from it since the first `p` commits. */
  function Replenished(base: Tables, log: seq<Record>, p: nat, i: nat, a: int): int
    requires RecordsShaped(log) && p <= i <= |log| && a in At(base, log, i).accounts
  {
    At(base, log, i).accounts[a].balance + Lowered(base, log, p, i, a)
  }

  lemma CommitLowersAtMost(base: Tables, log: seq<Record>, p: nat, i: nat, a: int)
    requires GoodLog(base, log) && p <= i < |log|
    requires a in At(base, log, i).accounts && a in At(base, log, i + 1).accounts
    ensures Replenished(base, log, p, i + 1, a) >= Replenished(base, log, p, i, a)
  {
    EachCommitServes(base, log, i);
    ServeLowersBy(At(base, log, i), log[i].req, log[i].ids, a);
  }

  lemma {:induction false} BalanceLowersAtMost(base: Tables, log: seq<Record>, p: nat, q: nat, a: int)
    requires GoodLog(base, log) && p <= q <= |log|
    requires a in At(base, log, p).accounts && a in At(base, log, q).accounts
    ensures Replenished(base, log, p, q, a) >= At(base, log, p).accounts[a].balance
    decreases q
  {
    if p < q {
      var i := q - 1;
      assert a in At(base, log, i).accounts by { OneCommitBack(base, log, p, q, a); }
      BalanceLowersAtMost(base, log, p, i, a);
      CommitLowersAtMost(base, log, p, i, a);
    }
  }

  /**
   * Overdraft bound. A committed payment leaves its source at no less than minus what others took from it
   * between the handler's balance check and the payment's own commit.
   */
  lemma OverdraftBound(base: Tables, log: seq<Record>, i: nat)
    requires GoodLog(base, log) && i < |log| && log[i].req.Pay?
    ensures log[i].source.Some? && log[i].source.value.at <= i
    ensures log[i].req.from in At(base, log, i + 1).accounts
    ensures At(base, log, i + 1).accounts[log[i].req.from].balance
            >= 0 - Lowered(base, log, log[i].source.value.at, i, log[i].req.from)
  {
    EachReceiptIsSerial(base, log, i);
    EachCommitServes(base, log, i);
    ReadingsWereCommitted(base, log, i);
    BalanceLowersAtMost(base, log, log[i].source.value.at, i, log[i].req.from);
  }

  /** Nothing committed between the balance check of a payment and its commit. */
  ghost predicate Undisturbed(log: seq<Record>, i: nat)
    requires i < |log|
  {
    log[i].req.Pay? ==> log[i].source.Some? && log[i].source.value.at == i
  }

  /** Requests as the handlers make them: no bare `TransferTx`, no negative balance. */
  predicate FromHandler(req: Request) {
    !req.Move? && (req.SetAccount? ==> req.balance >= 0) && (req.OpenAccount? ==> req.balance >= 0)
  }

  predicate NoDebt(t: Tables) {
    forall a :: a in t.accounts ==> t.accounts[a].balance >= 0
  }

  lemma ServeKeepsNoDebt(t: Tables, req: Request, ids: Ids)
    requires Acceptable(req) && FromHandler(req) && NoDebt(t) && Serve(t, req, ids).Some?
    requires req.Pay? ==> req.from in Serve(t, req, ids).value.accounts
                          && Serve(t, req, ids).value.accounts[req.from].balance >= 0
    ensures NoDebt(Serve(t, req, ids).value)
  {}

  lemma UndisturbedCommitKeepsNoDebt(base: Tables, log: seq<Record>, i: nat)
    requires GoodLog(base, log) && i < |log| && NoDebt(At(base, log, i))
    requires FromHandler(log[i].req) && Undisturbed(log, i)
    ensures NoDebt(At(base, log, i + 1))
  {
    EachCommitServes(base, log, i);
    if log[i].req.Pay? {
      OverdraftBound(base, log, i);
    }
    ServeKeepsNoDebt(At(base, log, i), log[i].req, log[i].ids);
  }

  /** Payments made one at a time never overdraw any account. */
  lemma {:induction false} SerialPaymentsNeverOverdraw(base: Tables, log: seq<Record>, i: nat)
    requires GoodLog(base, log) && i <= |log| && NoDebt(base)
    requires forall j :: 0 <= j < |log| ==> FromHandler(log[j].req) && Undisturbed(log, j)
    ensures NoDebt(At(base, log, i))
    decreases i
  {
    if i > 0 {
      SerialPaymentsNeverOverdraw(base, log, i - 1);
      UndisturbedCommitKeepsNoDebt(base, log, i - 1);
    }
  }
}
