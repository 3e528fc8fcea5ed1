/** Payments out of one account that overlap: what they can take from it. */
module Overlap {
  import opened Schema
  import opened Requests
  import opened Footprints
  import opened Transfers
  import opened Ledger
  import opened Engine
  import opened History
  import opened Outcomes
  import opened Serializability
  import opened Runs
  import opened SameTransfers
  import opened Overdraft

  /** Payments that handlers make out of account `a`. */
  ghost predicate OutOf(pays: seq<Request>, a: int) {
    forall t :: 0 <= t < |pays| ==> IsOutOf(pays[t], a)
  }

  predicate IsOutOf(pay: Request, a: int) {
    pay.Pay? && Acceptable(pay) && pay.from == a
  }

  /** Transaction `t` is the payment `pays[t]`; all others leave the account alone. */
  predicate Permitted(t: int, req: Request, pays: seq<Request>, a: int) {
    if 0 <= t < |pays| then req == pays[t] else Elsewhere(req, a, a)
  }

  ghost predicate OnlyThese(run: seq<Event>, pays: seq<Request>, a: int) {
    forall i :: 0 <= i < |run| && run[i].Arrive? ==> Permitted(run[i].t, run[i].req, pays, a)
  }

  /** The source passes its checks at the start; the payee does, or its number has never been given out. */
  predicate MayPass(s: State, pay: Request)
    requires pay.Pay?
  {
    && SourcePasses(s.base, pay)
    && (if pay.to in s.base.accounts then s.base.accounts[pay.to].currency == pay.currency
        else AccountId(pay.to) !in s.taken)
  }

  /** The sum of those of the first `k` payments that may pass, each by itself. */
  function Due(s: State, pays: seq<Request>, k: nat): nat
    requires k <= |pays| && forall t :: 0 <= t < |pays| ==> pays[t].Pay? && Acceptable(pays[t])
  {
    if k == 0 then 0
    else Due(s, pays, k - 1) + (if MayPass(s, pays[k - 1]) then pays[k - 1].amount else 0)
  }

  // ---------- What a run can take ----------

  /** What the first `i` commits took from the account by payments with numbers below `k`. */
  function Spent(pays: seq<Request>, log: seq<Record>, i: nat, k: nat): nat
    requires i <= |log| && k <= |pays| && forall t :: 0 <= t < |pays| ==> pays[t].Pay? && Acceptable(pays[t])
  {
    if i == 0 then 0
    else Spent(pays, log, i - 1, k) + (if 0 <= log[i - 1].tx < k then pays[log[i - 1].tx].amount else 0)
  }

  ghost predicate LogOfThese(log: seq<Record>, pays: seq<Request>, a: int) {
    && (forall i :: 0 <= i < |log| ==> Permitted(log[i].tx, log[i].req, pays, a))
    && (forall i, j :: 0 <= i < j < |log| ==> log[i].tx != log[j].tx)
  }

  lemma ServeSpends(t: Tables, req: Request, ids: Ids, a: int)
    requires Acceptable(req) && Serve(t, req, ids).Some? && a in t.accounts
    requires (req.Pay? && req.from == a) || Elsewhere(req, a, a)
    ensures var w := Serve(t, req, ids).value;
            && a in w.accounts
            && w.accounts[a].balance == t.accounts[a].balance - (if req.Pay? && req.from == a then req.amount else 0)
  {}

  ghost predicate FallenAt(base: Tables, log: seq<Record>, i: nat, pays: seq<Request>, a: int)
    requires i <= |log| && OutOf(pays, a) && a in base.accounts
  {
    && a in At(base, log, i).accounts
    && At(base, log, i).accounts[a].balance == base.accounts[a].balance - Spent(pays, log, i, |pays|)
  }

  lemma CommitSpends(base: Tables, log: seq<Record>, i: nat, pays: seq<Request>, a: int)
    requires GoodLog(base, log) && i < |log| && OutOf(pays, a) && LogOfThese(log, pays, a)
    requires a in base.accounts && FallenAt(base, log, i, pays, a)
    ensures FallenAt(base, log, i + 1, pays, a)
  {
    EachCommitServes(base, log, i);
    ServeSpends(At(base, log, i), log[i].req, log[i].ids, a);
  }

  /** With only these payments about, the balance is always the opening balance less what they have taken. */
  lemma {:induction false} SourceFalls(base: Tables, log: seq<Record>, i: nat, pays: seq<Request>, a: int)
    requires GoodLog(base, log) && i <= |log| && OutOf(pays, a) && LogOfThese(log, pays, a)
    requires a in base.accounts
    ensures FallenAt(base, log, i, pays, a)
    decreases i
  {
    if i > 0 {
      SourceFalls(base, log, i - 1, pays, a);
      CommitSpends(base, log, i - 1, pays, a);
    }
  }

  // ---------- Accounts that were not there at the start ----------

  ghost predicate ArrivesNew(e: Event, taken: set<RowId>) {
    e.Arrive? ==> Acceptable(e.req) && Creating(Program(e.req, e.ids)) !! taken
  }

  lemma EventArrivesNew(z: State, e: Event, taken: set<RowId>)
    requires Enabled(z, e) && taken <= z.taken
    ensures ArrivesNew(e, taken) && taken <= After(z, e).taken
  {}

  lemma {:induction false} ArrivalsCreateNew(s: State, run: seq<Event>)
    requires Initial(s) && Legal(s, run)
    ensures s.taken <= Final(s, run).taken
    ensures forall e :: e in run ==> ArrivesNew(e, s.taken)
  {
    if run != [] {
      var front, last := run[..|run| - 1], run[|run| - 1];
      ArrivalsCreateNew(s, front);
      EventArrivesNew(Final(s, front), last, s.taken);
      assert forall e :: e in run ==> e in front || e == last;
    }
  }

  /** No commit of the log inserts under a number that was given out before the start. */
  ghost predicate CreatesNew(log: seq<Record>, taken: set<RowId>) {
    forall i :: 0 <= i < |log| ==> CreatesNewAt(log, taken, i)
  }

  ghost predicate CreatesNewAt(log: seq<Record>, taken: set<RowId>, i: int)
    requires 0 <= i < |log|
  {
    Creating(log[i].ops) !! taken
  }

  lemma RunsCreateNew(s: State, run: seq<Event>)
    requires Initial(s) && Sound(s.base) && Legal(s, run)
    ensures CreatesNew(Final(s, run).log, s.taken)
  {
    var log := Final(s, run).log;
    RunsGiveGoodLogs(s, run);
    LogTellsWhatCommitted(s, run);
    ArrivalsCreateNew(s, run);
    forall i | 0 <= i < |log| ensures CreatesNewAt(log, s.taken, i) {
      assert ShapedAt(log, i) && Arrived(run, log[i].tx, log[i].req, log[i].ids);
      assert ArrivesNew(Arrive(log[i].tx, log[i].req, log[i].ids), s.taken);
    }
  }

  lemma {:induction false} LatecomersAreNew(base: Tables, log: seq<Record>, taken: set<RowId>, q: nat, x: int)
    requires GoodLog(base, log) && CreatesNew(log, taken) && q <= |log| && x in At(base, log, q).accounts
    ensures x in base.accounts || AccountId(x) !in taken
    decreases q
  {
    if q > 0 {
      EachCommitRuns(base, log, q - 1);
      IdsFollow(log[q - 1].ops, At(base, log, q - 1));
      assert AccountId(x) in IdsIn(At(base, log, q)) && CreatesNewAt(log, taken, q - 1);
      if x in At(base, log, q - 1).accounts {
        LatecomersAreNew(base, log, taken, q - 1, x);
      }
    }
  }

  /** A payment that commits might have passed at the start: nothing has raised the balance since. */
  lemma CommittedWasDue(s: State, log: seq<Record>, i: nat, pays: seq<Request>, a: int)
    requires GoodLog(s.base, log) && CreatesNew(log, s.taken) && i < |log|
    requires OutOf(pays, a) && LogOfThese(log, pays, a) && a in s.base.accounts && 0 <= log[i].tx < |pays|
    ensures log[i].req == pays[log[i].tx] && MayPass(s, log[i].req)
  {
    var req := pays[log[i].tx];
    assert Permitted(log[i].tx, log[i].req, pays, a) && IsOutOf(req, a);
    ReadingsWereCommitted(s.base, log, i);
    var p, q := log[i].source.value.at, log[i].payee.value.at;
    IdentityIsStable(s.base, log, 0, 0, p, a);
    if req.to in s.base.accounts {
      IdentityIsStable(s.base, log, 0, 0, q, req.to);
    } else {
      LatecomersAreNew(s.base, log, s.taken, q, req.to);
    }
    SourceFalls(s.base, log, p, pays, a);
  }

  // ---------- Each payment counts once ----------

  ghost predicate TookPart(log: seq<Record>, i: nat, t: int)
    requires i <= |log|
  {
    exists j :: 0 <= j < i && log[j].tx == t
  }

  /** Each payment counts once. */
  lemma {:induction false} SpentStep(pays: seq<Request>, log: seq<Record>, i: nat, k: nat)
    requires i <= |log| && k < |pays| && forall t :: 0 <= t < |pays| ==> pays[t].Pay? && Acceptable(pays[t])
    requires forall i, j :: 0 <= i < j < |log| ==> log[i].tx != log[j].tx
    ensures Spent(pays, log, i, k + 1) == Spent(pays, log, i, k) + (if TookPart(log, i, k) then pays[k].amount else 0)
    decreases i
  {
    if i > 0 {
      SpentStep(pays, log, i - 1, k);
      if log[i - 1].tx == k {
        assert !TookPart(log, i - 1, k) && TookPart(log, i, k);
      } else {
        assert TookPart(log, i, k) <==> TookPart(log, i - 1, k);
      }
    }
  }

  lemma {:induction false} NothingSpent(pays: seq<Request>, log: seq<Record>, i: nat)
    requires i <= |log| && forall t :: 0 <= t < |pays| ==> pays[t].Pay? && Acceptable(pays[t])
    ensures Spent(pays, log, i, 0) == 0
  {
    if i > 0 {
      NothingSpent(pays, log, i - 1);
    }
  }

  lemma {:induction false} SpentIsDue(s: State, log: seq<Record>, k: nat, pays: seq<Request>, a: int)
    requires GoodLog(s.base, log) && CreatesNew(log, s.taken) && k <= |pays|
    requires OutOf(pays, a) && LogOfThese(log, pays, a) && a in s.base.accounts
    ensures Spent(pays, log, |log|, k) <= Due(s, pays, k)
    decreases k
  {
    if k == 0 {
      NothingSpent(pays, log, |log|);
    } else {
      SpentIsDue(s, log, k - 1, pays, a);
      SpentStep(pays, log, |log|, k - 1);
      if TookPart(log, |log|, k - 1) {
        var j :| 0 <= j < |log| && log[j].tx == k - 1;
        CommittedWasDue(s, log, j, pays, a);
      }
    }
  }

  lemma RunsLogThese(s: State, run: seq<Event>, pays: seq<Request>, a: int)
    requires Initial(s) && Legal(s, run) && OnlyThese(run, pays, a)
    ensures LogOfThese(Final(s, run).log, pays, a)
  {
    var log := Final(s, run).log;
    LogTellsWhatCommitted(s, run);
    forall i | 0 <= i < |log|
      ensures Permitted(log[i].tx, log[i].req, pays, a)
    {
      assert Arrived(run, log[i].tx, log[i].req, log[i].ids);
    }
  }

  /** However these payments overlap, they take no more than the sum of those that may pass by themselves. */
  lemma BalanceAfterThese(s: State, run: seq<Event>, pays: seq<Request>, a: int)
    requires Initial(s) && Sound(s.base) && a in s.base.accounts && OutOf(pays, a)
    requires Legal(s, run) && OnlyThese(run, pays, a)
    ensures a in CommittedTables(Final(s, run)).accounts
    ensures s.base.accounts[a].balance - Due(s, pays, |pays|)
            <= CommittedTables(Final(s, run)).accounts[a].balance <= s.base.accounts[a].balance
  {
    var log := Final(s, run).log;
    RunsGiveGoodLogs(s, run);
    RunsLogThese(s, run, pays, a);
    RunsCreateNew(s, run);
    SourceFalls(s.base, log, |log|, pays, a);
    SpentIsDue(s, log, |pays|, pays, a);
  }
}
