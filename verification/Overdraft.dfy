/** Non-negative balances: kept by requests served one at a time, lost by payments that overlap. */
module Overdraft {
  import opened Schema
  import opened Statements
  import opened Requests
  import opened Transfers
  import opened Ledger
  import opened Engine
  import opened Isolation
  import opened Commits
  import opened History
  import opened Serializability
  import opened Runs

  // ---------- One at a time ----------

  /** Every request arrives when nothing else is in progress. */
  ghost predicate OneAtATime(s: State, run: seq<Event>)
    requires Legal(s, run)
  {
    run == [] ||
    (OneAtATime(s, run[..|run| - 1]) && (run[|run| - 1].Arrive? ==> Final(s, run[..|run| - 1]).active == map[]))
  }

  /** Every request comes from a handler of the server. */
  predicate AllFromHandlers(run: seq<Event>) {
    forall i :: 0 <= i < |run| && run[i].Arrive? ==> FromHandler(run[i].req)
  }

  /** At most one request is in progress, and nothing has committed since it read its source account. */
  ghost predicate Single(s: State) {
    && (forall t, u :: t in s.active && u in s.active ==> t == u)
    && (forall t :: t in s.active ==>
          && FromHandler(s.active[t].req)
          && (s.active[t].source.Some? ==> s.active[t].source.value.at == |s.log|))
    && (forall i :: 0 <= i < |s.log| ==> FromHandler(s.log[i].req) && Undisturbed(s.log, i))
  }

  lemma EventKeepsSingle(s: State, e: Event)
    requires Single(s) && Enabled(s, e) && (e.Arrive? ==> s.active == map[] && FromHandler(e.req))
    requires !e.Arrive? ==> TxChecked(s.base, s.log, s.active[e.t])
    ensures Single(After(s, e))
  {
    var z := After(s, e);
    if e.Finish? {
      assert forall t :: t !in z.active;
      assert forall i :: 0 <= i < |s.log| ==> Undisturbed(s.log, i) ==> Undisturbed(z.log, i);
    }
  }

  lemma {:induction false} RunsKeepSingle(s: State, run: seq<Event>)
    requires Initial(s) && Legal(s, run) && OneAtATime(s, run) && AllFromHandlers(run)
    ensures Single(Final(s, run))
  {
    if run != [] {
      var front, e := run[..|run| - 1], run[|run| - 1];
      RunsKeepSingle(s, front);
      RunsChronicle(s, front);
      var z := Final(s, front);
      assert !e.Arrive? ==> Pending(z.base, z.log, z.active[e.t]);
      EventKeepsSingle(z, e);
    }
  }

  /** Requests served one at a time never overdraw any account. */
  lemma SerialRunsNeverOverdraw(s: State, run: seq<Event>)
    requires Initial(s) && Sound(s.base) && NoDebt(s.base)
    requires Legal(s, run) && OneAtATime(s, run) && AllFromHandlers(run)
    ensures NoDebt(CommittedTables(Final(s, run)))
  {
    var log := Final(s, run).log;
    RunsGiveGoodLogs(s, run);
    RunsKeepSingle(s, run);
    SerialPaymentsNeverOverdraw(s.base, log, |log|);
  }

  // ---------- A request that nobody blocks ----------

  lemma LegalSnoc(s: State, run: seq<Event>, e: Event)
    requires Legal(s, run) && Enabled(Final(s, run), e)
    ensures Legal(s, run + [e]) && Final(s, run + [e]) == After(Final(s, run), e)
  {
    assert (run + [e])[..|run + [e]| - 1] == run;
  }

  ghost predicate OthersHoldNothing(s: State, t: int) {
    forall u :: u in s.active && u != t ==> s.active[u].held == {}
  }

  /** `t` has checked what it has to, no lock is in its way, and its statements would succeed. */
  ghost predicate Ready(s: State, t: int) {
    && t in s.active && s.active[t].checks == 0 && OthersHoldNothing(s, t)
    && Acceptable(s.active[t].req)
    && Exec(Program(s.active[t].req, s.active[t].ids), CommittedTables(s)).Finished?
  }

  /** In a reachable state the statements done so far, run by themselves, give what the next one sees. */
  lemma ReachableWork(s: State, run: seq<Event>, t: int)
    requires Initial(s) && Legal(s, run) && t in Final(s, run).active
    ensures var z := Final(s, run); var tx := z.active[t];
            && Acceptable(tx.req) && tx.done + tx.todo == Program(tx.req, tx.ids)
            && Exec(tx.done, CommittedTables(z)).Finished?
            && Visible(z, t) == Exec(tx.done, CommittedTables(z)).tables
  {
    var z := Final(s, run);
    RunsKeep(s, run);
    assert Shaped(z.active[t]);
    VisibleIsAlone(z, t);
  }

  lemma NextSucceeds(done: seq<Op>, todo: seq<Op>, c: Tables)
    requires Exec(done + todo, c).Finished? && todo != []
    ensures Exec(done, c).Finished? && Apply(todo[0], Exec(done, c).tables).Some?
  {
    ExecPrefix(done + todo, |done| + 1, c);
    assert (done + todo)[..|done| + 1] == done + [todo[0]];
    ExecSnoc(done, todo[0], c);
  }

  /** `w` is `z` with only transaction `t` further on. */
  ghost predicate OnlyMoved(z: State, w: State, t: int) {
    && t in z.active && t in w.active && w == z.(tables := w.tables, active := z.active[t := w.active[t]])
    && w.active[t].req == z.active[t].req && w.active[t].ids == z.active[t].ids && w.active[t].checks == 0
  }

  lemma StepForward(z: State, t: int)
    requires t in z.active && z.active[t].checks == 0 && z.active[t].todo != [] && OthersHoldNothing(z, t)
    requires Apply(z.active[t].todo[0], Visible(z, t)).Some?
    ensures Enabled(z, Run(t))
    ensures OnlyMoved(z, After(z, Run(t)), t) && After(z, Run(t)).active[t].todo == z.active[t].todo[1..]
  {
    assert !Blocked(z, t);
    var w, tx, op := After(z, Run(t)), z.active[t], z.active[t].todo[0];
    var after := Apply(op, Visible(z, t)).value;
    assert w.active[t] == Advanced(tx, Visible(z, t), after);
  }

  lemma MovedIsReady(z: State, w: State, t: int)
    requires Ready(z, t) && OnlyMoved(z, w, t)
    ensures Ready(w, t) && w.active - {t} == z.active - {t} && CommittedTables(w) == CommittedTables(z)
  {}

  /** `w` is `z` after all of `t`'s program has been committed, and nothing else. */
  ghost predicate OnlyCommitted(z: State, w: State, t: int)
    requires Ready(z, t)
  {
    && w.active == z.active - {t} && w.ended == z.ended[t := Committed] && w.base == z.base && w.taken == z.taken
    && CommittedTables(w) == Exec(Program(z.active[t].req, z.active[t].ids), CommittedTables(z)).tables
    && OneMoreRecord(z, w, t)
  }

  /** The log has grown by the record of `t`. */
  ghost predicate OneMoreRecord(z: State, w: State, t: int)
    requires t in z.active
  {
    && |w.log| == |z.log| + 1 && w.log[..|z.log|] == z.log
    && w.log[|z.log|].tx == t && w.log[|z.log|].req == z.active[t].req && w.log[|z.log|].ids == z.active[t].ids
  }

  lemma CommitAppends(z: State, t: int)
    requires Ready(z, t) && Exec(z.active[t].done, CommittedTables(z)).Finished?
    requires z.active[t].done == Program(z.active[t].req, z.active[t].ids)
    ensures OnlyCommitted(z, Commit(z, t), t)
  {
    var w := Commit(z, t);
    assert w.log[..|w.log| - 1] == z.log;
  }

  lemma RunOnce(s: State, run: seq<Event>, t: int)
    requires Initial(s) && Legal(s, run) && Ready(Final(s, run), t) && Final(s, run).active[t].todo != []
    ensures Legal(s, run + [Run(t)])
    ensures var z, w := Final(s, run), Final(s, run + [Run(t)]);
            Ready(w, t) && OnlyMoved(z, w, t) && |w.active[t].todo| == |z.active[t].todo| - 1
  {
    var z := Final(s, run);
    ReachableWork(s, run, t);
    NextSucceeds(z.active[t].done, z.active[t].todo, CommittedTables(z));
    StepForward(z, t);
    LegalSnoc(s, run, Run(t));
    MovedIsReady(z, Final(s, run + [Run(t)]), t);
  }

  lemma FinishOnce(s: State, run: seq<Event>, t: int)
    requires Initial(s) && Legal(s, run) && Ready(Final(s, run), t) && Final(s, run).active[t].todo == []
    ensures Legal(s, run + [Finish(t)])
    ensures OnlyCommitted(Final(s, run), Final(s, run + [Finish(t)]), t)
  {
    var z := Final(s, run);
    ReachableWork(s, run, t);
    assert z.active[t].done + z.active[t].todo == z.active[t].done;
    LegalSnoc(s, run, Finish(t));
    CommitAppends(z, t);
  }

  lemma MovedThenCommitted(z: State, y: State, w: State, t: int)
    requires Ready(z, t) && OnlyMoved(z, y, t) && Ready(y, t) && OnlyCommitted(y, w, t)
    ensures OnlyCommitted(z, w, t)
  {
    MovedIsReady(z, y, t);
  }

  /** Its own statements and its commit. */
  predicate StepsOf(more: seq<Event>, t: int) {
    forall i :: 0 <= i < |more| ==> more[i] == Run(t) || more[i] == Finish(t)
  }

  lemma StepThenRest(run: seq<Event>, t: int, rest: seq<Event>)
    requires StepsOf(rest, t)
    ensures run + ([Run(t)] + rest) == (run + [Run(t)]) + rest && StepsOf([Run(t)] + rest, t)
  {}

  /** A request that nobody blocks and whose statements would succeed can run on until it commits. */
  lemma {:induction false} RunsToCommit(s: State, run: seq<Event>, t: int) returns (more: seq<Event>)
    requires Initial(s) && Legal(s, run) && Ready(Final(s, run), t)
    ensures Legal(s, run + more) && StepsOf(more, t) && |more| == |Final(s, run).active[t].todo| + 1
    ensures OnlyCommitted(Final(s, run), Final(s, run + more), t)
    decreases |Final(s, run).active[t].todo|, 1
  {
    if Final(s, run).active[t].todo == [] {
      FinishOnce(s, run, t);
      more := [Finish(t)];
    } else {
      more := RunsOn(s, run, t);
    }
  }

  lemma {:induction false} RunsOn(s: State, run: seq<Event>, t: int) returns (more: seq<Event>)
    requires Initial(s) && Legal(s, run) && Ready(Final(s, run), t) && Final(s, run).active[t].todo != []
    ensures Legal(s, run + more) && StepsOf(more, t) && |more| == |Final(s, run).active[t].todo| + 1
    ensures OnlyCommitted(Final(s, run), Final(s, run + more), t)
    decreases |Final(s, run).active[t].todo|, 0
  {
    RunOnce(s, run, t);
    var next := run + [Run(t)];
    var rest := RunsToCommit(s, next, t);
    MovedThenCommitted(Final(s, run), Final(s, next), Final(s, next + rest), t);
    StepThenRest(run, t, rest);
    more := [Run(t)] + rest;
  }

  // ---------- The checks of a payment ----------

  /** The checks that a payment makes of its source pass on these tables. */
  predicate SourcePasses(t: Tables, req: Request)
    requires req.Pay?
  {
    && req.from in t.accounts && t.accounts[req.from].owner == req.user
    && t.accounts[req.from].currency == req.currency && req.amount <= t.accounts[req.from].balance
  }

  /** All checks of a payment pass on these tables. */
  predicate PassesChecks(t: Tables, req: Request)
    requires req.Pay?
  {
    SourcePasses(t, req) && req.to in t.accounts && t.accounts[req.to].currency == req.currency
  }

  ghost predicate SeesCommitted(z: State, t: int) {
    forall a :: Version(z, t, a) == Lookup(CommittedTables(z).accounts, a)
  }

  lemma LookMoves(z: State, t: int)
    requires t in z.active && z.active[t].req.Pay? && z.active[t].checks in {1, 2} && z.active[t].done == []
    requires SeesCommitted(z, t) && PassesChecks(CommittedTables(z), z.active[t].req)
    requires z.active[t].checks == 1 ==>
               z.active[t].source.Some? && z.active[t].req.amount <= z.active[t].source.value.account.balance
    ensures Enabled(z, Look(t))
    ensures var w := After(z, Look(t));
            && t in w.active && w == z.(active := z.active[t := w.active[t]])
            && w.active[t] == z.active[t].(
                 checks := z.active[t].checks - 1, source := w.active[t].source, payee := w.active[t].payee)
            && w.active[t].source.Some? && w.active[t].req.amount <= w.active[t].source.value.account.balance
  {
    var req := z.active[t].req;
    assert Version(z, t, req.from) == Some(CommittedTables(z).accounts[req.from]);
    assert Version(z, t, req.to) == Some(CommittedTables(z).accounts[req.to]);
  }

  lemma ReachableSees(s: State, run: seq<Event>, t: int)
    requires Initial(s) && Legal(s, run) && t in Final(s, run).active && Final(s, run).active[t].done == []
    ensures SeesCommitted(Final(s, run), t)
  {
    RunsKeep(s, run);
    UntouchedVersions(Final(s, run), t);
  }

  /** Both lookups of a payment that has just arrived. */
  lemma LooksPass(s: State, run: seq<Event>, t: int)
    requires Initial(s) && Legal(s, run) && t in Final(s, run).active
    requires Final(s, run).active[t].req.Pay? && Final(s, run).active[t].checks == 2
    requires Final(s, run).active[t].done == []
    requires PassesChecks(CommittedTables(Final(s, run)), Final(s, run).active[t].req)
    ensures Legal(s, run + [Look(t), Look(t)])
    ensures var z, w := Final(s, run), Final(s, run + [Look(t), Look(t)]);
            && t in w.active && w == z.(active := z.active[t := w.active[t]])
            && w.active[t].req == z.active[t].req && w.active[t].ids == z.active[t].ids
            && w.active[t].checks == 0 && w.active[t].held == z.active[t].held
            && w.active[t].todo == z.active[t].todo
  {
    var z := Final(s, run);
    ReachableSees(s, run, t);
    LookMoves(z, t);
    LegalSnoc(s, run, Look(t));
    var y := Final(s, run + [Look(t)]);
    ReachableSees(s, run + [Look(t)], t);
    LookMoves(y, t);
    LegalSnoc(s, run + [Look(t)], Look(t));
    assert run + [Look(t), Look(t)] == (run + [Look(t)]) + [Look(t)];
  }

  lemma PaymentCreates(pay: Request, ids: Ids)
    requires Acceptable(pay) && pay.Pay?
    ensures TransferId(ids.transfer) in Creating(Program(pay, ids))
    ensures EntryId(ids.fromEntry) in Creating(Program(pay, ids)) && EntryId(ids.toEntry) in Creating(Program(pay, ids))
  {
    var ops := Program(pay, ids);
    CreatingHas(ops, 2);
    CreatingHas(ops, 3);
    CreatingHas(ops, 4);
  }

  /** A payment that passes its checks on sound tables can be made, if the payee's balance has room for it. */
  lemma PassedPaymentFits(t: Tables, pay: Request, ids: Ids)
    requires Sound(t) && Acceptable(pay) && pay.Pay? && pay.from in t.accounts && pay.to in t.accounts
    requires MIN_INT64 <= t.accounts[pay.from].balance - pay.amount
    requires t.accounts[pay.to].balance + pay.amount <= MAX_INT64
    requires Creating(Program(pay, ids)) !! IdsIn(t) && ids.fromEntry != ids.toEntry
    ensures CanTransfer(t, pay.from, pay.to, pay.amount, ids)
    ensures Exec(Program(pay, ids), t).Finished?
    ensures Exec(Program(pay, ids), t).tables == Transferred(t, pay.from, pay.to, pay.amount, pay.at, ids)
  {
    PaymentCreates(pay, ids);
    assert ids.transfer in t.transfers ==> TransferId(ids.transfer) in IdsIn(t);
    assert ids.fromEntry in t.entries ==> EntryId(ids.fromEntry) in IdsIn(t);
    assert ids.toEntry in t.entries ==> EntryId(ids.toEntry) in IdsIn(t);
    ProgramServes(t, pay, ids);
  }
}
