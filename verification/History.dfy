/** The commit log of a run: what each record means, and what the checks before it had seen. */
module History {
  import opened Schema
  import opened Requests
  import opened Engine
  import opened Isolation
  import opened Commits

  // ---------- Logs ----------

  ghost predicate RecordShaped(r: Record) {
    Acceptable(r.req) && r.ops == Program(r.req, r.ids)
  }

  ghost predicate RecordsShaped(log: seq<Record>) {
    forall i :: 0 <= i < |log| ==> ShapedAt(log, i)
  }

  ghost predicate ShapedAt(log: seq<Record>, i: int)
    requires 0 <= i < |log|
  {
    RecordShaped(log[i])
  }

  /** All ids that were ever in a row. */
  function Ever(base: Tables, log: seq<Record>): set<RowId> {
    if log == [] then IdsIn(base) else Ever(base, log[..|log| - 1]) + Creating(log[|log| - 1].ops)
  }

  /** No commit inserts an id that was in a row before, not even of an account deleted since. */
  ghost predicate NeverReused(base: Tables, log: seq<Record>) {
    forall i :: 0 <= i < |log| ==> NewAt(base, log, i)
  }

  ghost predicate NewAt(base: Tables, log: seq<Record>, i: int)
    requires 0 <= i < |log|
  {
    Creating(log[i].ops) !! Ever(base, log[..i])
  }

  /** The reading is the version of account `a` after the first `r.at` commits. */
  ghost predicate ReadFrom(base: Tables, log: seq<Record>, r: Reading, a: int) {
    r.at <= |log| && Lookup(Replay(base, log[..r.at]).accounts, a) == Some(r.account)
  }

  ghost predicate SourceChecked(base: Tables, log: seq<Record>, req: Request, source: Option<Reading>)
    requires req.Pay?
  {
    && source.Some? && ReadFrom(base, log, source.value, req.from)
    && source.value.account.owner == req.user && source.value.account.currency == req.currency
  }

  /** The checks of the `CreateTransfer` handler were passed by account versions that had been committed. */
  ghost predicate Checked(base: Tables, log: seq<Record>, req: Request, source: Option<Reading>, payee: Option<Reading>)
    requires req.Pay?
  {
    && SourceChecked(base, log, req, source)
    && payee.Some? && ReadFrom(base, log, payee.value, req.to) && payee.value.account.currency == req.currency
    && source.value.at <= payee.value.at
    && req.amount <= source.value.account.balance
  }

  ghost predicate RecordsChecked(base: Tables, log: seq<Record>) {
    forall i :: 0 <= i < |log| ==> CheckedAt(base, log, i)
  }

  ghost predicate CheckedAt(base: Tables, log: seq<Record>, i: int)
    requires 0 <= i < |log|
  {
    log[i].req.Pay? ==> Checked(base, log[..i], log[i].req, log[i].source, log[i].payee)
  }

  ghost predicate TxChecked(base: Tables, log: seq<Record>, tx: Tx) {
    && tx.checks <= 2
    && (tx.checks > 0 ==> tx.req.Pay? && tx.done == [])
    && (tx.req.Pay? && tx.checks == 1 ==> SourceChecked(base, log, tx.req, tx.source))
    && (tx.req.Pay? && tx.checks == 0 ==> Checked(base, log, tx.req, tx.source, tx.payee))
  }

  ghost predicate Pending(base: Tables, log: seq<Record>, tx: Tx) {
    TxChecked(base, log, tx) && Reserved(tx) !! Ever(base, log)
  }

  ghost predicate Chronicle(s: State) {
    && RecordsShaped(s.log)
    && RecordsChecked(s.base, s.log)
    && NeverReused(s.base, s.log)
    && Ever(s.base, s.log) <= s.taken
    && (forall t :: t in s.active ==> Pending(s.base, s.log, s.active[t]))
  }

  // ---------- The log grows, its past stays ----------

  lemma CheckedStays(base: Tables, log: seq<Record>, r: Record, tx: Tx)
    requires TxChecked(base, log, tx)
    ensures TxChecked(base, log + [r], tx)
  {
    if tx.source.Some? && tx.source.value.at <= |log| {
      assert (log + [r])[..tx.source.value.at] == log[..tx.source.value.at];
    }
    if tx.payee.Some? && tx.payee.value.at <= |log| {
      assert (log + [r])[..tx.payee.value.at] == log[..tx.payee.value.at];
    }
  }

  lemma LogGrows(base: Tables, log: seq<Record>, r: Record)
    requires RecordsShaped(log) && RecordsChecked(base, log) && NeverReused(base, log)
    requires RecordShaped(r) && (r.req.Pay? ==> Checked(base, log, r.req, r.source, r.payee))
    requires Creating(r.ops) !! Ever(base, log)
    ensures RecordsShaped(log + [r]) && RecordsChecked(base, log + [r]) && NeverReused(base, log + [r])
  {
    var log' := log + [r];
    assert log'[..|log|] == log;
    forall i | 0 <= i < |log'|
      ensures NewAt(base, log', i) && CheckedAt(base, log', i) && ShapedAt(log', i)
    {
      if i < |log| {
        assert log'[..i] == log[..i];
        assert ShapedAt(log, i) && NewAt(base, log, i) && CheckedAt(base, log, i);
      }
    }
  }

  lemma CommitChronicles(s: State, t: int)
    requires Chronicle(s) && t in s.active && s.active[t].todo == [] && s.active[t].checks == 0
    requires Shaped(s.active[t]) && IdsSound(s)
    ensures Chronicle(Commit(s, t))
  {
    var z, tx, r := Commit(s, t), s.active[t], CommitRecord(s, t);
    assert tx.done + tx.todo == tx.done;
    assert Pending(s.base, s.log, tx);
    LogGrows(s.base, s.log, r);
    assert z.log[..|z.log| - 1] == s.log;
    forall u | u in z.active
      ensures Pending(z.base, z.log, z.active[u])
    {
      assert Pending(s.base, s.log, s.active[u]);
      CheckedStays(s.base, s.log, r, s.active[u]);
    }
  }

  lemma LookChronicles(s: State, t: int)
    requires Chronicle(s) && t in s.active && s.active[t].checks > 0 && s.active[t].req.Pay?
    requires forall a :: Version(s, t, a) == Lookup(CommittedTables(s).accounts, a)
    ensures Chronicle(Check(s, t))
  {
    var z, tx := Check(s, t), s.active[t];
    assert Pending(s.base, s.log, tx);
    assert s.log[..|s.log|] == s.log;
    forall u | u in z.active
      ensures Pending(z.base, z.log, z.active[u])
    {
      assert Pending(s.base, s.log, s.active[u]);
    }
  }

  lemma RunChronicles(s: State, t: int)
    requires Chronicle(s) && t in s.active && s.active[t].todo != [] && s.active[t].checks == 0
    ensures Chronicle(Execute(s, t))
  {
    var z, tx := Execute(s, t), s.active[t];
    assert Pending(s.base, s.log, tx);
    assert tx.done + [tx.todo[0]] + tx.todo[1..] == tx.done + tx.todo;
    forall u | u in z.active
      ensures Pending(z.base, z.log, z.active[u])
    {
      assert Pending(s.base, s.log, s.active[u]);
    }
  }

  lemma StartChronicles(s: State, t: int, req: Request, ids: Ids)
    requires Chronicle(s) && Enabled(s, Arrive(t, req, ids))
    ensures Chronicle(Start(s, t, req, ids))
  {
    assert [] + Program(req, ids) == Program(req, ids);
    assert Reserved(Fresh(req, ids)) == Creating(Program(req, ids));
  }

  lemma UntouchedVersions(s: State, t: int)
    requires Invariant(s) && t in s.active && s.active[t].done == []
    ensures forall a :: Version(s, t, a) == Lookup(CommittedTables(s).accounts, a)
  {
    forall a ensures Version(s, t, a) == Lookup(CommittedTables(s).accounts, a) {
      VersionIsAlone(s, t, a);
    }
  }

  lemma EventChronicles(s: State, e: Event)
    requires Invariant(s) && Chronicle(s) && Enabled(s, e)
    ensures Chronicle(After(s, e)) && After(s, e).base == s.base
  {
    match e
    case Arrive(t, req, ids) => StartChronicles(s, t, req, ids);
    case Cancel(t) =>
    case Finish(t) => CommitChronicles(s, t);
    case Run(t) => RunChronicles(s, t);
    case Look(t) =>
      assert Pending(s.base, s.log, s.active[t]);
      UntouchedVersions(s, t);
      LookChronicles(s, t);
  }

  lemma {:induction false} RunsChronicle(s: State, run: seq<Event>)
    requires Initial(s) && Legal(s, run)
    ensures Chronicle(Final(s, run))
    ensures Final(s, run).base == s.base
  {
    if run != [] {
      RunsKeep(s, run[..|run| - 1]);
      RunsChronicle(s, run[..|run| - 1]);
      EventChronicles(Final(s, run[..|run| - 1]), run[|run| - 1]);
    }
  }
}
