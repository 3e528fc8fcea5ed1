/** What becomes of one request in the engine when nobody is in its way. */
module Solo {
  import opened Schema
  import opened Statements
  import opened Requests
  import opened Transfers
  import opened Ledger
  import opened Engine
  import opened Isolation
  import opened Commits
  import opened Serializability
  import opened Runs
  import opened Progress
  import opened Overdraft
  import Overrun

  /** Runs may start on any tables. */
  lemma AnyTablesCanStart(base: Tables) returns (s: State)
    ensures Initial(s) && s.base == base && CommittedTables(s) == base
    ensures forall t :: Visible(s, t) == base
  {
    s := State(base, base, map[], map[], IdsIn(base), []);
    InitialHolds(s);
    forall t ensures Visible(s, t) == base {
      VisibleIsAlone(s, t);
    }
  }

  /** Whatever is going on, any request may arrive. */
  lemma AnyoneMayArrive(s: State, run: seq<Event>, req: Request) returns (t: int, ids: Ids)
    requires Legal(s, run) && Acceptable(req)
    ensures Legal(s, run + [Arrive(t, req, ids)]) && ids.fromEntry != ids.toEntry
    ensures t !in Final(s, run).active
    ensures Final(s, run + [Arrive(t, req, ids)]) == Start(Final(s, run), t, req, ids)
  {
    var z := Final(s, run);
    t := Overrun.NewTransaction(z, 0);
    ids := Overrun.NewIds(z.taken);
    LegalSnoc(s, run, Arrive(t, req, ids));
  }

  /** And any request may be cancelled, at any point: it is gone, and nobody sees a difference. */
  lemma AnyoneMayLeave(s: State, run: seq<Event>, t: int)
    requires Initial(s) && Legal(s, run) && t in Final(s, run).active
    ensures Legal(s, run + [Cancel(t)])
    ensures var z, w := Final(s, run), Final(s, run + [Cancel(t)]);
            && w.active == z.active - {t} && w.ended == z.ended[t := RolledBack] && w.log == z.log
            && (forall u :: u != t ==> Visible(w, u) == Visible(z, u))
            && (w.active == map[] ==> w.tables == CommittedTables(z))
  {
    var z := Final(s, run);
    LegalSnoc(s, run, Cancel(t));
    forall u | u != t ensures Visible(RollBack(z, t), u) == Visible(z, u) {
      RollBackUnseen(s, run, t, u);
    }
    if RollBack(z, t).active == map[] {
      RunsKeep(s, run + [Cancel(t)]);
      QuietTablesAreCommitted(RollBack(z, t));
    }
  }

  // ---------- A request that cannot be served ----------

  /** `t` has checked what it has to, no lock is in its way, and one of its statements will fail. */
  ghost predicate Doomed(z: State, t: int) {
    && t in z.active && z.active[t].checks == 0 && OthersHoldNothing(z, t)
    && Acceptable(z.active[t].req)
    && Exec(Program(z.active[t].req, z.active[t].ids), CommittedTables(z)).Failed?
  }

  /** A DELETE of an account that is not there: the one failure that counts as a success. */
  predicate DeletesMissing(req: Request, c: Tables) {
    req.DeleteAccount? && req.account !in c.accounts
  }

  /** `w` is `z` without `t`, of which nothing is left but the outcome. */
  ghost predicate GoneFrom(z: State, w: State, t: int, outcome: Outcome) {
    w == z.(tables := w.tables, active := z.active - {t}, ended := z.ended[t := outcome])
  }

  function FailureOf(z: State, t: int): Outcome
    requires t in z.active
  {
    if DeletesMissing(z.active[t].req, CommittedTables(z)) then Committed else RolledBack
  }

  lemma StepFails(z: State, t: int)
    requires t in z.active && z.active[t].checks == 0 && z.active[t].todo != [] && OthersHoldNothing(z, t)
    requires Apply(z.active[t].todo[0], Visible(z, t)).None?
    ensures Enabled(z, Run(t))
    ensures var op := z.active[t].todo[0];
            GoneFrom(z, After(z, Run(t)), t,
                     if op.RemoveAccount? && op.account !in Visible(z, t).accounts then Committed else RolledBack)
  {
    assert !Blocked(z, t);
  }

  /** Only a delete starts with a delete, and it has nothing else to do. */
  lemma DeleteComesFirst(tx: Tx)
    requires Shaped(tx) && tx.todo != [] && (tx.todo[0].RemoveAccount? || tx.req.DeleteAccount?)
    ensures tx.done == [] && tx.req.DeleteAccount? && tx.todo[0] == RemoveAccount(tx.req.account)
  {
    assert (tx.done + tx.todo)[|tx.done|] == tx.todo[0];
  }

  lemma FailsOnce(s: State, run: seq<Event>, t: int)
    requires Initial(s) && Legal(s, run) && Doomed(Final(s, run), t)
    requires Final(s, run).active[t].todo != []
    requires Apply(Final(s, run).active[t].todo[0], Visible(Final(s, run), t)).None?
    ensures Legal(s, run + [Run(t)])
    ensures GoneFrom(Final(s, run), Final(s, run + [Run(t)]), t, FailureOf(Final(s, run), t))
  {
    var z := Final(s, run);
    RunsKeep(s, run);
    ReachableWork(s, run, t);
    StepFails(z, t);
    LegalSnoc(s, run, Run(t));
    assert Shaped(z.active[t]);
    if z.active[t].todo[0].RemoveAccount? || z.active[t].req.DeleteAccount? {
      DeleteComesFirst(z.active[t]);
    }
  }

  lemma MovedIsDoomed(z: State, w: State, t: int)
    requires Doomed(z, t) && OnlyMoved(z, w, t)
    ensures Doomed(w, t) && w.active - {t} == z.active - {t} && CommittedTables(w) == CommittedTables(z)
    ensures FailureOf(w, t) == FailureOf(z, t)
  {}

  lemma MovesOnce(s: State, run: seq<Event>, t: int)
    requires Initial(s) && Legal(s, run) && Doomed(Final(s, run), t)
    requires Final(s, run).active[t].todo != []
    requires Apply(Final(s, run).active[t].todo[0], Visible(Final(s, run), t)).Some?
    ensures Legal(s, run + [Run(t)])
    ensures var z, w := Final(s, run), Final(s, run + [Run(t)]);
            && Doomed(w, t) && OnlyMoved(z, w, t) && |w.active[t].todo| < |z.active[t].todo|
            && FailureOf(w, t) == FailureOf(z, t)
  {
    var z := Final(s, run);
    StepForward(z, t);
    LegalSnoc(s, run, Run(t));
    MovedIsDoomed(z, Final(s, run + [Run(t)]), t);
  }

  lemma MovedThenGone(z: State, y: State, w: State, t: int, outcome: Outcome)
    requires Doomed(z, t) && OnlyMoved(z, y, t) && GoneFrom(y, w, t, outcome)
    ensures GoneFrom(z, w, t, outcome)
  {
    MovedIsDoomed(z, y, t);
  }

  lemma SomethingIsLeft(s: State, run: seq<Event>, t: int)
    requires Initial(s) && Legal(s, run) && Doomed(Final(s, run), t)
    ensures Final(s, run).active[t].todo != []
  {
    ReachableWork(s, run, t);
    var tx := Final(s, run).active[t];
    assert tx.todo == [] ==> tx.done + tx.todo == tx.done;
  }

  lemma FailsOrMoves(s: State, run: seq<Event>, t: int) returns (gone: bool)
    requires Initial(s) && Legal(s, run) && Doomed(Final(s, run), t)
    ensures Legal(s, run + [Run(t)])
    ensures gone ==> GoneFrom(Final(s, run), Final(s, run + [Run(t)]), t, FailureOf(Final(s, run), t))
    ensures !gone ==>
              var z, w := Final(s, run), Final(s, run + [Run(t)]);
              && Doomed(w, t) && OnlyMoved(z, w, t) && |w.active[t].todo| < |z.active[t].todo|
              && FailureOf(w, t) == FailureOf(z, t)
  {
    SomethingIsLeft(s, run, t);
    gone := Apply(Final(s, run).active[t].todo[0], Visible(Final(s, run), t)).None?;
    if gone {
      FailsOnce(s, run, t);
    } else {
      MovesOnce(s, run, t);
    }
  }

  /** A request of which some statement must fail runs up to that statement and is gone. */
  lemma {:induction false} RunsToFailure(s: State, run: seq<Event>, t: int) returns (more: seq<Event>)
    requires Initial(s) && Legal(s, run) && Doomed(Final(s, run), t)
    ensures Legal(s, run + more) && StepsOf(more, t)
    ensures GoneFrom(Final(s, run), Final(s, run + more), t, FailureOf(Final(s, run), t))
    decreases |Final(s, run).active[t].todo|
  {
    var z := Final(s, run);
    var gone := FailsOrMoves(s, run, t);
    if gone {
      more := [Run(t)];
    } else {
      var next := run + [Run(t)];
      var rest := RunsToFailure(s, next, t);
      more := [Run(t)] + rest;
      StepThenRest(run, t, rest);
      MovedThenGone(z, Final(s, next), Final(s, next + rest), t, FailureOf(z, t));
    }
  }

  // ---------- A payment that fails its checks ----------

  predicate SourceIsRight(c: Tables, req: Request)
    requires req.Pay?
  {
    && req.from in c.accounts && c.accounts[req.from].owner == req.user
    && c.accounts[req.from].currency == req.currency
  }

  /** The first lookup finds the source and whose it is; it does not look at the balance. */
  lemma FirstLook(z: State, t: int)
    requires t in z.active && z.active[t].req.Pay? && z.active[t].checks == 2 && SeesCommitted(z, t)
    ensures Enabled(z, Look(t))
    ensures var w, tx, c := After(z, Look(t)), z.active[t], CommittedTables(z);
            if SourceIsRight(c, tx.req)
            then w == z.(active := z.active[t := tx.(
                           checks := 1, source := Some(Reading(c.accounts[tx.req.from], |z.log|)))])
            else GoneFrom(z, w, t, RolledBack)
  {
    assert Version(z, t, z.active[t].req.from) == Lookup(CommittedTables(z).accounts, z.active[t].req.from);
  }

  /** The second lookup refuses: there is no such payee in the currency, or the balance read does not cover it. */
  lemma SecondLookRefuses(z: State, t: int)
    requires t in z.active && z.active[t].req.Pay? && z.active[t].checks == 1 && SeesCommitted(z, t)
    requires z.active[t].source.Some? && SourceIsRight(CommittedTables(z), z.active[t].req)
    requires z.active[t].source.value.account == CommittedTables(z).accounts[z.active[t].req.from]
    requires !PassesChecks(CommittedTables(z), z.active[t].req)
    ensures Enabled(z, Look(t)) && GoneFrom(z, After(z, Look(t)), t, RolledBack)
  {
    assert Version(z, t, z.active[t].req.to) == Lookup(CommittedTables(z).accounts, z.active[t].req.to);
  }

  lemma LookedThenGone(z: State, y: State, w: State, t: int, tx: Tx)
    requires t in z.active && y == z.(active := z.active[t := tx]) && GoneFrom(y, w, t, RolledBack)
    ensures GoneFrom(z, w, t, RolledBack)
  {
    assert y.active - {t} == z.active - {t};
  }

  /** The first lookup refuses, or it reads the source and makes no difference otherwise. */
  lemma LooksOnce(s: State, run: seq<Event>, t: int) returns (again: bool)
    requires Initial(s) && Legal(s, run) && t in Final(s, run).active
    requires Final(s, run).active[t].req.Pay? && Final(s, run).active[t].checks == 2
    requires Final(s, run).active[t].done == []
    ensures Legal(s, run + [Look(t)])
    ensures again ==>
              var z, y, c := Final(s, run), Final(s, run + [Look(t)]), CommittedTables(Final(s, run));
              && SourceIsRight(c, z.active[t].req)
              && y == z.(active := z.active[t := z.active[t].(
                           checks := 1, source := Some(Reading(c.accounts[z.active[t].req.from], |z.log|)))])
    ensures !again ==> GoneFrom(Final(s, run), Final(s, run + [Look(t)]), t, RolledBack)
  {
    var z := Final(s, run);
    ReachableSees(s, run, t);
    FirstLook(z, t);
    LegalSnoc(s, run, Look(t));
    again := SourceIsRight(CommittedTables(z), z.active[t].req);
  }

  lemma LooksTwice(s: State, run: seq<Event>, t: int)
    requires Initial(s) && Legal(s, run) && Legal(s, run + [Look(t)]) && t in Final(s, run).active
    requires Final(s, run).active[t].req.Pay? && Final(s, run).active[t].done == []
    requires var z, y, c := Final(s, run), Final(s, run + [Look(t)]), CommittedTables(Final(s, run));
             && SourceIsRight(c, z.active[t].req) && !PassesChecks(c, z.active[t].req)
             && y == z.(active := z.active[t := z.active[t].(
                          checks := 1, source := Some(Reading(c.accounts[z.active[t].req.from], |z.log|)))])
    ensures Legal(s, run + [Look(t), Look(t)])
    ensures GoneFrom(Final(s, run), Final(s, run + [Look(t), Look(t)]), t, RolledBack)
  {
    var z, y := Final(s, run), Final(s, run + [Look(t)]);
    ReachableSees(s, run + [Look(t)], t);
    SecondLookRefuses(y, t);
    LegalSnoc(s, run + [Look(t)], Look(t));
    LookedThenGone(z, y, After(y, Look(t)), t, y.active[t]);
    assert run + [Look(t), Look(t)] == (run + [Look(t)]) + [Look(t)];
  }

  lemma LooksRefuse(s: State, run: seq<Event>, t: int) returns (more: seq<Event>)
    requires Initial(s) && Legal(s, run) && t in Final(s, run).active
    requires Final(s, run).active[t].req.Pay? && Final(s, run).active[t].checks == 2
    requires Final(s, run).active[t].done == []
    requires !PassesChecks(CommittedTables(Final(s, run)), Final(s, run).active[t].req)
    ensures Legal(s, run + more) && forall i :: 0 <= i < |more| ==> more[i] == Look(t)
    ensures GoneFrom(Final(s, run), Final(s, run + more), t, RolledBack)
  {
    var again := LooksOnce(s, run, t);
    more := [Look(t)];
    if again {
      LooksTwice(s, run, t);
      more := [Look(t), Look(t)];
    }
  }

  // ---------- Any request ----------

  /** Its own lookups, statements and commit, and nothing done to it. */
  ghost predicate OwnSteps(more: seq<Event>, t: int) {
    forall i :: 0 <= i < |more| ==> more[i] == Look(t) || more[i] == Run(t) || more[i] == Finish(t)
  }

  /** The checks of its handler pass and its statements can be run. */
  predicate GoesThrough(c: Tables, req: Request, ids: Ids)
    requires Acceptable(req)
  {
    (req.Pay? ==> PassesChecks(c, req)) && Answer(c, req, ids).Finished?
  }

  /** From `z` to `w` the request has been served, with the answer it should get, or refused without a trace. */
  ghost predicate Settled(z: State, w: State, t: int, req: Request, ids: Ids)
    requires Acceptable(req)
  {
    var c := CommittedTables(z);
    && w.active == z.active && w.base == z.base
    && w.ended == z.ended[t := if GoesThrough(c, req, ids) || DeletesMissing(req, c) then Committed else RolledBack]
    && (GoesThrough(c, req, ids) ==>
          && CommittedTables(w) == Answer(c, req, ids).tables
          && |w.log| == |z.log| + 1 && w.log[..|z.log|] == z.log
          && var r := w.log[|z.log|];
             r.tx == t && r.req == req && r.ids == ids && r.rows == Answer(c, req, ids).rows)
    && (!GoesThrough(c, req, ids) ==> w.log == z.log && CommittedTables(w) == c)
  }

  /** `y` is `z` with the request arrived, its checks made, and no statement run. */
  ghost predicate Poised(z: State, y: State, t: int, req: Request, ids: Ids)
    requires Acceptable(req)
  {
    && t in y.active && t !in z.active && y.active - {t} == z.active && y.base == z.base
    && y.log == z.log && y.ended == z.ended && OthersHoldNothing(y, t)
    && y.active[t].req == req && y.active[t].ids == ids && y.active[t].checks == 0
    && y.active[t].todo == Program(req, ids)
  }

  /** Once its checks have passed. */
  lemma ReadyIsSettled(s: State, run: seq<Event>, z: State, t: int, req: Request, ids: Ids)
    returns (more: seq<Event>)
    requires Initial(s) && Sound(s.base) && Legal(s, run) && Acceptable(req)
    requires Poised(z, Final(s, run), t, req, ids)
    requires req.Pay? ==> PassesChecks(CommittedTables(z), req)
    ensures Legal(s, run + more) && OwnSteps(more, t)
    ensures Settled(z, Final(s, run + more), t, req, ids)
    ensures GoesThrough(CommittedTables(z), req, ids) ==> |more| == |Program(req, ids)| + 1
  {
    var y := Final(s, run);
    CommittedIsSound(s, run);
    ProgramAnswers(CommittedTables(y), req, ids);
    if Answer(CommittedTables(y), req, ids).Finished? {
      more := RunsToCommit(s, run, t);
      LastRowsAreAnswered(s, run, run + more, t);
    } else {
      assert DeletesMissing(req, CommittedTables(y)) ==> Answer(CommittedTables(y), req, ids).Failed?;
      more := RunsToFailure(s, run, t);
    }
  }

  /** The new record has the rows of the answer. */
  lemma LastRowsAreAnswered(s: State, run: seq<Event>, whole: seq<Event>, t: int)
    requires Initial(s) && Sound(s.base) && Legal(s, run) && Legal(s, whole) && Ready(Final(s, run), t)
    requires OnlyCommitted(Final(s, run), Final(s, whole), t)
    ensures var y, w := Final(s, run), Final(s, whole);
            && |w.log| == |y.log| + 1
            && Answer(CommittedTables(y), y.active[t].req, y.active[t].ids)
               == Finished(CommittedTables(w), w.log[|y.log|].rows)
  {
    var y, w := Final(s, run), Final(s, whole);
    RunsGiveGoodLogs(s, whole);
    GoodLogsAreSerial(s.base, w.log);
    assert ServedAt(s.base, w.log, |y.log|);
    RunsGiveGoodLogs(s, run);
    AtIsReplay(s.base, w.log, |y.log|);
    AtIsReplay(s.base, y.log, |y.log|);
    assert y.log[..|y.log|] == y.log;
  }

  /** `y` is `z` just after the request has arrived. */
  ghost predicate Begun(z: State, y: State, t: int, req: Request, ids: Ids)
    requires Acceptable(req)
  {
    && t in y.active && t !in z.active && y.active - {t} == z.active
    && y.base == z.base && y.log == z.log && y.ended == z.ended && OthersHoldNothing(y, t)
    && y.active[t].req == req && y.active[t].ids == ids && y.active[t].done == []
    && y.active[t].checks == (if req.Pay? then 2 else 0) && y.active[t].todo == Program(req, ids)
  }

  lemma ArrivalBegins(z: State, t: int, req: Request, ids: Ids)
    requires Acceptable(req) && t !in z.active
    requires forall u :: u in z.active ==> z.active[u].held == {}
    ensures Begun(z, Start(z, t, req, ids), t, req, ids)
  {}

  lemma GoneIsSettled(z: State, y: State, w: State, t: int, req: Request, ids: Ids)
    requires Acceptable(req) && req.Pay? && Begun(z, y, t, req, ids) && GoneFrom(y, w, t, RolledBack)
    requires !PassesChecks(CommittedTables(z), req)
    ensures Settled(z, w, t, req, ids)
  {}

  lemma LookedIsPoised(z: State, x: State, y: State, t: int, req: Request, ids: Ids)
    requires Acceptable(req)
    requires Begun(z, x, t, req, ids) && t in y.active && y == x.(active := x.active[t := y.active[t]])
    requires y.active[t].req == req && y.active[t].ids == ids && y.active[t].checks == 0
    requires y.active[t].todo == x.active[t].todo
    ensures Poised(z, y, t, req, ids)
  {}

  lemma RefusedIsSettled(s: State, run: seq<Event>, z: State, t: int, req: Request, ids: Ids)
    returns (more: seq<Event>)
    requires Initial(s) && Legal(s, run) && Acceptable(req) && req.Pay?
    requires Begun(z, Final(s, run), t, req, ids) && !PassesChecks(CommittedTables(z), req)
    ensures Legal(s, run + more) && OwnSteps(more, t)
    ensures Settled(z, Final(s, run + more), t, req, ids)
  {
    more := LooksRefuse(s, run, t);
    GoneIsSettled(z, Final(s, run), Final(s, run + more), t, req, ids);
  }

  lemma LooksLead(s: State, run: seq<Event>, z: State, t: int, req: Request, ids: Ids)
    requires Initial(s) && Legal(s, run) && Acceptable(req) && req.Pay?
    requires Begun(z, Final(s, run), t, req, ids) && PassesChecks(CommittedTables(z), req)
    ensures Legal(s, run + [Look(t), Look(t)])
    ensures Poised(z, Final(s, run + [Look(t), Look(t)]), t, req, ids)
  {
    LooksPass(s, run, t);
    LookedIsPoised(z, Final(s, run), Final(s, run + [Look(t), Look(t)]), t, req, ids);
  }

  lemma StepsInTurn(run: seq<Event>, t: int, rest: seq<Event>)
    requires OwnSteps(rest, t)
    ensures run + ([Look(t), Look(t)] + rest) == (run + [Look(t), Look(t)]) + rest
    ensures OwnSteps([Look(t), Look(t)] + rest, t)
  {}

  lemma PassedIsSettled(s: State, run: seq<Event>, z: State, t: int, req: Request, ids: Ids)
    returns (more: seq<Event>)
    requires Initial(s) && Sound(s.base) && Legal(s, run) && Acceptable(req) && req.Pay?
    requires Begun(z, Final(s, run), t, req, ids) && PassesChecks(CommittedTables(z), req)
    ensures Legal(s, run + more) && OwnSteps(more, t)
    ensures Settled(z, Final(s, run + more), t, req, ids)
    ensures GoesThrough(CommittedTables(z), req, ids) ==> |more| == |Program(req, ids)| + 3
  {
    LooksLead(s, run, z, t, req, ids);
    var rest := ReadyIsSettled(s, run + [Look(t), Look(t)], z, t, req, ids);
    StepsInTurn(run, t, rest);
    more := [Look(t), Look(t)] + rest;
  }

  /**
   * A request served by itself. In any reachable state in which the others hold no locks, any request may arrive;
   * by its own steps alone it then commits with exactly the answer that it should get, if its checks pass and its
   * statements can be run, and otherwise leaves no trace: rolled back, or, for a DELETE of an account that is
   * not there, committed without a record.
   */
  lemma ServedAlone(s: State, run: seq<Event>, req: Request) returns (t: int, ids: Ids, more: seq<Event>)
    requires Initial(s) && Sound(s.base) && Legal(s, run) && Acceptable(req)
    requires forall u :: u in Final(s, run).active ==> Final(s, run).active[u].held == {}
    ensures Legal(s, run + [Arrive(t, req, ids)]) && ids.fromEntry != ids.toEntry
    ensures Legal(s, (run + [Arrive(t, req, ids)]) + more) && OwnSteps(more, t)
    ensures Settled(Final(s, run), Final(s, (run + [Arrive(t, req, ids)]) + more), t, req, ids)
    ensures GoesThrough(CommittedTables(Final(s, run)), req, ids) ==> |more| == Remaining(Fresh(req, ids))
  {
    t, ids := AnyoneMayArrive(s, run, req);
    var z, start := Final(s, run), run + [Arrive(t, req, ids)];
    ArrivalBegins(z, t, req, ids);
    if req.Pay? {
      if PassesChecks(CommittedTables(z), req) {
        more := PassedIsSettled(s, start, z, t, req, ids);
      } else {
        more := RefusedIsSettled(s, start, z, t, req, ids);
      }
    } else {
      more := ReadyIsSettled(s, start, z, t, req, ids);
    }
  }
}
