/** Concurrent runs against serial ones: commits, rollbacks and reads. */
module Serializability {
  import opened Schema
  import opened Statements
  import opened Requests
  import opened Transfers
  import opened Ledger
  import opened Engine
  import opened Isolation
  import opened Preservation
  import opened Commits
  import opened History
  import opened Outcomes

  // ---------- Logs as serial executions ----------

  /** The log of a run started on sound tables. */
  ghost predicate GoodLog(base: Tables, log: seq<Record>) {
    && Sound(base) && Faithful(base, log) && RecordsShaped(log)
    && RecordsChecked(base, log) && NeverReused(base, log)
  }

  lemma RunsGiveGoodLogs(s: State, run: seq<Event>)
    requires Initial(s) && Sound(s.base) && Legal(s, run)
    ensures GoodLog(s.base, Final(s, run).log) && Final(s, run).base == s.base
    ensures CommittedTables(Final(s, run)) == At(s.base, Final(s, run).log, |Final(s, run).log|)
  {
    var log := Final(s, run).log;
    RunsKeep(s, run);
    RunsChronicle(s, run);
    AtIsReplay(s.base, log, |log|);
    assert log[..|log|] == log;
  }

  /** The committed tables after the first `i` commits. */
  function At(base: Tables, log: seq<Record>, i: nat): Tables
    requires i <= |log|
  {
    if i == 0 then base
    else
      var before := At(base, log, i - 1);
      var run := Exec(log[i - 1].ops, before);
      if run.Finished? then run.tables else before
  }

  /** The ids that were ever in a row by then. */
  function EverAt(base: Tables, log: seq<Record>, i: nat): set<RowId>
    requires i <= |log|
  {
    if i == 0 then IdsIn(base) else EverAt(base, log, i - 1) + Creating(log[i - 1].ops)
  }

  lemma {:induction false} AtIsReplay(base: Tables, log: seq<Record>, i: nat)
    requires i <= |log|
    ensures At(base, log, i) == Replay(base, log[..i]) && EverAt(base, log, i) == Ever(base, log[..i])
    decreases i
  {
    if i == 0 {
      assert log[..0] == [];
    } else {
      AtIsReplay(base, log, i - 1);
      assert log[..i][..i - 1] == log[..i - 1];
    }
  }

  /** A commit runs its statements on the tables before it, and inserts under ids that were never in a row. */
  lemma EachCommitRuns(base: Tables, log: seq<Record>, i: nat)
    requires GoodLog(base, log) && i < |log|
    ensures Acceptable(log[i].req)
    ensures Exec(log[i].ops, At(base, log, i)) == Finished(At(base, log, i + 1), log[i].rows)
    ensures Creating(log[i].ops) !! EverAt(base, log, i)
  {
    assert ShapedAt(log, i) && FaithfulAt(base, log, i) && NewAt(base, log, i);
    AtIsReplay(base, log, i);
    AtIsReplay(base, log, i + 1);
  }

  lemma CommitServes(base: Tables, log: seq<Record>, i: nat)
    requires GoodLog(base, log) && i < |log| && Sound(At(base, log, i))
    ensures Acceptable(log[i].req)
    ensures Serve(At(base, log, i), log[i].req, log[i].ids) == Some(At(base, log, i + 1))
    ensures Sound(At(base, log, i + 1))
  {
    assert ShapedAt(log, i);
    EachCommitRuns(base, log, i);
    ProgramServes(At(base, log, i), log[i].req, log[i].ids);
    ServeKeepsSound(At(base, log, i), log[i].req, log[i].ids);
  }

  /** Each commit serves its request on the tables that the commits before it left. */
  lemma {:induction false} EachCommitServes(base: Tables, log: seq<Record>, i: nat)
    requires GoodLog(base, log) && i <= |log|
    ensures Sound(At(base, log, i))
    ensures i < |log| ==>
              && Acceptable(log[i].req)
              && Serve(At(base, log, i), log[i].req, log[i].ids) == Some(At(base, log, i + 1))
    decreases i
  {
    if i > 0 {
      EachCommitServes(base, log, i - 1);
      CommitServes(base, log, i - 1);
    }
    if i < |log| {
      CommitServes(base, log, i);
    }
  }

  function Amount(req: Request): int
    requires req.Move? || req.Pay?
  {
    match req
    case Move(_, _, amount, _, _) => amount
    case Pay(_, _, _, _, amount, _, _) => amount
  }

  /** Every committed transfer returned what it would have returned by itself at its place in commit order. */
  lemma EachReceiptIsSerial(base: Tables, log: seq<Record>, i: nat)
    requires GoodLog(base, log) && i < |log| && (log[i].req.Move? || log[i].req.Pay?)
    ensures var t, req, ids := At(base, log, i), log[i].req, log[i].ids;
            && InInt64(Amount(req)) && CanTransfer(t, req.from, req.to, Amount(req), ids)
            && log[i].rows == ReceiptRows(ReceiptFor(t, req.from, req.to, Amount(req), req.at, ids))
            && At(base, log, i + 1) == Transferred(t, req.from, req.to, Amount(req), req.at, ids)
  {
    EachCommitServes(base, log, i);
    EachCommitRuns(base, log, i);
    assert ShapedAt(log, i);
    var t, req, ids := At(base, log, i), log[i].req, log[i].ids;
    TransferEffect(t, req.from, req.to, Amount(req), req.at, req.fromKeyFirst, ids);
  }

  // ---------- Serializability ----------

  lemma QuietTablesAreCommitted(s: State)
    requires Invariant(s) && s.active == map[]
    ensures s.tables == CommittedTables(s)
  {
    var c := CommittedTables(s);
    forall a ensures Lookup(s.tables.accounts, a) == Lookup(c.accounts, a) {
      assert forall t :: !Wrote(s, t, a);
    }
    forall i ensures Lookup(s.tables.transfers, i) == Lookup(c.transfers, i) {
      assert forall t :: !InsertsTransfer(s, t, i);
    }
    forall i ensures Lookup(s.tables.entries, i) == Lookup(c.entries, i) {
      assert forall t :: !InsertsEntry(s, t, i);
    }
    SameMap(s.tables.accounts, c.accounts);
    SameMap(s.tables.transfers, c.transfers);
    SameMap(s.tables.entries, c.entries);
  }

  /** Running the logged requests one at a time answers each of them with the rows it was given. */
  ghost predicate SerialLog(base: Tables, log: seq<Record>) {
    forall i :: 0 <= i < |log| ==> ServedAt(base, log, i)
  }

  ghost predicate ServedAt(base: Tables, log: seq<Record>, i: nat)
    requires i < |log|
  {
    var before, after, r := At(base, log, i), At(base, log, i + 1), log[i];
    && Acceptable(r.req)
    && Serve(before, r.req, r.ids) == Some(after)
    && Answer(before, r.req, r.ids) == Finished(after, r.rows)
  }

  lemma GoodLogsAreSerial(base: Tables, log: seq<Record>)
    requires GoodLog(base, log)
    ensures SerialLog(base, log)
  {
    forall i | 0 <= i < |log|
      ensures ServedAt(base, log, i)
    {
      EachCommitServes(base, log, i);
      EachCommitRuns(base, log, i);
      assert ShapedAt(log, i);
      ProgramAnswers(At(base, log, i), log[i].req, log[i].ids);
    }
  }

  /**
   * The same for the requests that are not transfers: each of them was told the row as it stood at its place
   * in commit order, with what it asked for and nothing else in it.
   */
  lemma EachReplyIsSerial(base: Tables, log: seq<Record>, i: nat)
    requires GoodLog(base, log) && i < |log|
    ensures var t, w, r := At(base, log, i), At(base, log, i + 1), log[i];
            && (r.req.SetAccount? ==>
                  var a := r.req.account;
                  && a in t.accounts && w == t.(accounts := w.accounts)
                  && w.accounts == t.accounts[a := t.accounts[a].(balance := r.req.balance)]
                  && r.rows == [AccountRow(a, t.accounts[a].(balance := r.req.balance))])
            && (r.req.OpenAccount? ==>
                  var row := Account(r.req.owner, r.req.currency, r.req.balance);
                  && r.ids.account !in t.accounts && r.req.owner in t.users
                  && !KeyTaken(t, r.req.owner, r.req.currency)
                  && w == t.(accounts := t.accounts[r.ids.account := row])
                  && r.rows == [AccountRow(r.ids.account, row)])
            && (r.req.RecordEntry? ==>
                  var row := Entry(r.req.account, r.req.amount, None, r.req.at);
                  && r.ids.fromEntry !in t.entries && r.req.account in t.accounts
                  && w == t.(entries := t.entries[r.ids.fromEntry := row])
                  && r.rows == [EntryRow(r.ids.fromEntry, row)])
            && (r.req.DeleteAccount? ==>
                  && r.req.account in t.accounts && !Referenced(t, r.req.account)
                  && w == t.(accounts := t.accounts - {r.req.account}) && r.rows == [NoRow])
  {
    GoodLogsAreSerial(base, log);
    assert ServedAt(base, log, i);
  }

  /**
   * Serializability. After any interleaving of any requests, serving the committed requests one at a time
   * in commit order serves each of them, returns to each the rows it did get, and ends in the committed tables;
   * when nothing is in flight the shared tables equal them.
   * The requests of the log are exactly those that committed a change, each once, in the order of their COMMITs:
   * what was refused, cancelled or rolled back has no part in it.
   */
  lemma Serializable(s: State, run: seq<Event>)
    requires Initial(s) && Sound(s.base) && Legal(s, run)
    ensures SerialLog(s.base, Final(s, run).log)
    ensures LogIsOfTheCommitted(s, run)
    ensures CommittedTables(Final(s, run)) == At(s.base, Final(s, run).log, |Final(s, run).log|)
    ensures Final(s, run).active == map[] ==> Final(s, run).tables == CommittedTables(Final(s, run))
  {
    var z := Final(s, run);
    RunsGiveGoodLogs(s, run);
    GoodLogsAreSerial(s.base, z.log);
    LogTellsWhatCommitted(s, run);
    RunsKeep(s, run);
    if z.active == map[] {
      QuietTablesAreCommitted(z);
    }
  }

  /** Whatever is in flight, a reader outside sees exactly the tables of that serial execution. */
  lemma OutsideSeesCommitted(s: State, run: seq<Event>, reader: int)
    requires Initial(s) && Legal(s, run) && reader !in Final(s, run).active
    ensures Visible(Final(s, run), reader) == CommittedTables(Final(s, run))
  {
    RunsKeep(s, run);
    VisibleIsAlone(Final(s, run), reader);
  }

  // ---------- Rollback ----------

  /**
   * Rollback isolation. Undoing a transaction at any point leaves the committed tables as they were
   * and disturbs no row it had not changed; if it was the last one in flight,
   * exactly the committed effects of the others remain.
   */
  lemma RollBackIsolated(s: State, run: seq<Event>, t: int)
    requires Initial(s) && Legal(s, run) && t in Final(s, run).active
    ensures var z := Final(s, run); var w := RollBack(z, t);
            && CommittedTables(w) == CommittedTables(z)
            && (forall a :: !Wrote(z, t, a) ==> Lookup(w.tables.accounts, a) == Lookup(z.tables.accounts, a))
            && (z.active.Keys == {t} ==> w.tables == CommittedTables(z))
  {
    var z := Final(s, run);
    RunsKeep(s, run);
    RollBackKeeps(z, t);
    forall a | !Wrote(z, t, a)
      ensures Lookup(RollBack(z, t).tables.accounts, a) == Lookup(z.tables.accounts, a)
    {
      RestoredRow(z.tables.accounts, z.active[t].undo.accounts, a);
    }
    if z.active.Keys == {t} {
      assert RollBack(z, t).active == map[];
      QuietTablesAreCommitted(RollBack(z, t));
    }
  }

  lemma RollBackHidesNothing(z: State, t: int, u: int)
    requires Invariant(z) && t in z.active && u != t
    ensures Visible(RollBack(z, t), u) == Visible(z, u)
  {
    RollBackKeeps(z, t);
    VisibleIsAlone(z, u);
    VisibleIsAlone(RollBack(z, t), u);
  }

  /** Nobody else, reader or transaction, sees any difference when a transaction is rolled back. */
  lemma RollBackUnseen(s: State, run: seq<Event>, t: int, u: int)
    requires Initial(s) && Legal(s, run) && t in Final(s, run).active && u != t
    ensures Visible(RollBack(Final(s, run), t), u) == Visible(Final(s, run), u)
  {
    RunsKeep(s, run);
    RollBackHidesNothing(Final(s, run), t, u);
  }

  /** Commit is atomic: everyone outside goes from seeing none of a transaction's work to seeing all of it. */
  lemma CommitIsAtomic(s: State, run: seq<Event>, t: int, reader: int)
    requires Initial(s) && Legal(s, run) && t in Final(s, run).active && reader !in Final(s, run).active
    ensures var z := Final(s, run);
            && Visible(z, reader) == CommittedTables(z)
            && Visible(Commit(z, t), reader) == Visible(z, t)
  {
    var z := Final(s, run);
    RunsKeep(s, run);
    CommitKeeps(z, t);
    CommitAdvances(z, t);
    VisibleIsAlone(z, reader);
    VisibleIsAlone(z, t);
    VisibleIsAlone(Commit(z, t), reader);
  }
}
