/** The invariant that ties the shared tables to a serial execution of the committed requests. */
module Isolation {
  import opened Schema
  import opened Statements
  import opened Locks
  import opened Requests
  import opened Footprints
  import opened Engine

  /** Every commit record succeeds, with the rows it returned, on the tables its predecessors left. */
  ghost predicate Faithful(base: Tables, log: seq<Record>) {
    forall i :: 0 <= i < |log| ==> FaithfulAt(base, log, i)
  }

  ghost predicate FaithfulAt(base: Tables, log: seq<Record>, i: int)
    requires 0 <= i < |log|
  {
    Exec(log[i].ops, Replay(base, log[..i])) == Finished(Replay(base, log[..i + 1]), log[i].rows)
  }

  /** What a transaction did and will do is the program of its request. */
  ghost predicate Shaped(tx: Tx) {
    && Acceptable(tx.req)
    && tx.done + tx.todo == Program(tx.req, tx.ids)
    && |tx.rows| == |tx.done|
  }

  ghost predicate AllShaped(s: State) {
    forall t :: t in s.active ==> Shaped(s.active[t])
  }

  function Reserved(tx: Tx): set<RowId> {
    Creating(tx.done + tx.todo)
  }

  /** What `t` has done so far is what the same statements do, undisturbed, on the committed tables. */
  ghost predicate TxSound(s: State, tx: Tx) {
    var run := Exec(tx.done, CommittedTables(s));
    && run.Finished? && run.rows == tx.rows
    && tx.undo.accounts.Keys == Changed(tx.done)
    && tx.undo.transfers == NewTransfers(tx.done).Keys
    && tx.undo.entries == NewEntries(tx.done).Keys
    && AllCovered(tx.done, tx.held)
    && (forall a, m :: Lock(RowOf(a), m) in tx.held ==> Touches(tx.done, a))
    && (forall a :: a in tx.undo.accounts ==>
          && tx.undo.accounts[a] == Lookup(CommittedTables(s).accounts, a)
          && Lookup(s.tables.accounts, a) == Lookup(run.tables.accounts, a))
  }

  ghost predicate AllSound(s: State) {
    forall t :: t in s.active ==> TxSound(s, s.active[t])
  }

  /** Away from the writes in flight the shared tables are the committed ones. */
  ghost predicate AccountsInPlace(s: State) {
    forall a :: (forall t :: !Wrote(s, t, a)) ==> Lookup(s.tables.accounts, a) == Lookup(CommittedTables(s).accounts, a)
  }

  ghost predicate InsertsTransfer(s: State, t: int, i: int) {
    t in s.active && i in NewTransfers(s.active[t].done)
  }

  ghost predicate InsertsEntry(s: State, t: int, i: int) {
    t in s.active && i in NewEntries(s.active[t].done)
  }

  ghost predicate TransfersInPlace(s: State) {
    var c := CommittedTables(s);
    && (forall i :: i in c.transfers ==> Lookup(s.tables.transfers, i) == Some(c.transfers[i]))
    && (forall t, i :: InsertsTransfer(s, t, i) ==>
          Lookup(s.tables.transfers, i) == Some(NewTransfers(s.active[t].done)[i]))
    && (forall i :: i in s.tables.transfers ==> i in c.transfers || exists t :: InsertsTransfer(s, t, i))
  }

  ghost predicate EntriesInPlace(s: State) {
    var c := CommittedTables(s);
    && (forall i :: i in c.entries ==> Lookup(s.tables.entries, i) == Some(c.entries[i]))
    && (forall t, i :: InsertsEntry(s, t, i) ==>
          Lookup(s.tables.entries, i) == Some(NewEntries(s.active[t].done)[i]))
    && (forall i :: i in s.tables.entries ==> i in c.entries || exists t :: InsertsEntry(s, t, i))
  }

  ghost predicate IdsSound(s: State) {
    && IdsIn(CommittedTables(s)) <= s.taken
    && (forall t :: t in s.active ==> Reserved(s.active[t]) <= s.taken)
    && (forall t :: t in s.active ==> Reserved(s.active[t]) !! IdsIn(CommittedTables(s)))
    && (forall t, u :: t in s.active && u in s.active && t != u ==> Reserved(s.active[t]) !! Reserved(s.active[u]))
  }

  ghost predicate LocksSound(s: State) {
    forall t, u, l, m :: t in s.active && u in s.active && t != u && l in s.active[t].held && m in s.active[u].held
      ==> !Clash(l, m)
  }

  /** No row is changed by two transactions at once. */
  ghost predicate WritesDisjoint(s: State) {
    forall t, u, a :: t != u && Wrote(s, t, a) ==> !Wrote(s, u, a)
  }

  ghost predicate Invariant(s: State) {
    && Faithful(s.base, s.log)
    && AllShaped(s)
    && AllSound(s)
    && AccountsInPlace(s)
    && s.tables.users == CommittedTables(s).users
    && TransfersInPlace(s)
    && EntriesInPlace(s)
    && IdsSound(s)
    && LocksSound(s)
    && WritesDisjoint(s)
  }

  // ---------- What a transaction sees ----------

  function Work(s: State, t: int): seq<Op> {
    if t in s.active then s.active[t].done else []
  }

  /** The tables as they would be if `t` alone ran on the committed tables. */
  function Alone(s: State, t: int): Tables
    requires Exec(Work(s, t), CommittedTables(s)).Finished?
  {
    Exec(Work(s, t), CommittedTables(s)).tables
  }

  /** What a transaction has done succeeds on the committed tables; so does doing nothing. */
  lemma WorkSucceeds(s: State, t: int)
    requires AllSound(s)
    ensures Exec(Work(s, t), CommittedTables(s)).Finished?
    ensures t in s.active ==> TxSound(s, s.active[t])
    ensures Changed([]) == {} && NewTransfers([]) == map[] && NewEntries([]) == map[]
  {
    assert t in s.active ==> TxSound(s, s.active[t]);
  }

  lemma VersionIsAlone(s: State, t: int, a: int)
    requires Invariant(s)
    ensures Exec(Work(s, t), CommittedTables(s)).Finished?
    ensures t in s.active ==> TxSound(s, s.active[t])
    ensures Version(s, t, a) == Lookup(Alone(s, t).accounts, a)
  {
    WorkSucceeds(s, t);
    ExecFootprint(Work(s, t), CommittedTables(s));
    if u :| WroteElsewhere(s, t, u, a) {
      forall u | WroteElsewhere(s, t, u, a)
        ensures s.active[u].undo.accounts[a] == Lookup(Alone(s, t).accounts, a)
      {
        assert Wrote(s, u, a) && !Wrote(s, t, a);
        assert TxSound(s, s.active[u]);
      }
    } else {
      if !Wrote(s, t, a) {
        forall u ensures !Wrote(s, u, a) {
          assert !WroteElsewhere(s, t, u, a);
        }
      }
    }
  }

  lemma TransfersAreAlone(s: State, t: int)
    requires Invariant(s)
    ensures Exec(Work(s, t), CommittedTables(s)).Finished?
    ensures Visible(s, t).transfers == Alone(s, t).transfers
  {
    var work, c := Work(s, t), CommittedTables(s);
    WorkSucceeds(s, t);
    ExecFootprint(work, c);
    assert Alone(s, t).transfers == c.transfers + NewTransfers(work);
    forall i
      ensures Lookup(Visible(s, t).transfers, i) == Lookup(Alone(s, t).transfers, i)
    {
      if u :| u != t && u in s.active && i in s.active[u].undo.transfers {
        OwnInserts(s, u);
        if t in s.active { OwnInserts(s, t); }
        assert HiddenTransfer(s, t, i);
        assert TransferId(i) in Reserved(s.active[u]);
        assert i !in c.transfers by { assert i in c.transfers ==> TransferId(i) in IdsIn(c); }
      } else {
        assert !HiddenTransfer(s, t, i);
        if i in s.tables.transfers && i !in c.transfers {
          var u :| InsertsTransfer(s, u, i);
          OwnInserts(s, u);
          assert u == t;
        }
        if i in NewTransfers(work) {
          assert InsertsTransfer(s, t, i);
        }
      }
    }
    SameMap(Visible(s, t).transfers, Alone(s, t).transfers);
  }

  lemma EntriesAreAlone(s: State, t: int)
    requires Invariant(s)
    ensures Exec(Work(s, t), CommittedTables(s)).Finished?
    ensures Visible(s, t).entries == Alone(s, t).entries
  {
    var work, c := Work(s, t), CommittedTables(s);
    WorkSucceeds(s, t);
    ExecFootprint(work, c);
    assert Alone(s, t).entries == c.entries + NewEntries(work);
    forall i
      ensures Lookup(Visible(s, t).entries, i) == Lookup(Alone(s, t).entries, i)
    {
      if u :| u != t && u in s.active && i in s.active[u].undo.entries {
        OwnInserts(s, u);
        if t in s.active { OwnInserts(s, t); }
        assert HiddenEntry(s, t, i);
        assert EntryId(i) in Reserved(s.active[u]);
        assert i !in c.entries by { assert i in c.entries ==> EntryId(i) in IdsIn(c); }
      } else {
        assert !HiddenEntry(s, t, i);
        if i in s.tables.entries && i !in c.entries {
          var u :| InsertsEntry(s, u, i);
          OwnInserts(s, u);
          assert u == t;
        }
        if i in NewEntries(work) {
          assert InsertsEntry(s, t, i);
        }
      }
    }
    SameMap(Visible(s, t).entries, Alone(s, t).entries);
  }

  lemma OwnInserts(s: State, t: int)
    requires AllSound(s) && t in s.active
    ensures forall i :: i in NewTransfers(s.active[t].done) ==> TransferId(i) in Reserved(s.active[t])
    ensures forall i :: i in NewEntries(s.active[t].done) ==> EntryId(i) in Reserved(s.active[t])
    ensures forall i :: i in s.active[t].undo.transfers <==> i in NewTransfers(s.active[t].done)
    ensures forall i :: i in s.active[t].undo.entries <==> i in NewEntries(s.active[t].done)
  {
    assert TxSound(s, s.active[t]);
    NewRowsAreCreated(s.active[t].done);
    CreatingPart(s.active[t].done, s.active[t].todo);
  }

  /**
   * Isolation: a transaction sees the committed tables with its own changes on top,
   * and never a change in flight elsewhere.
   */
  lemma VisibleIsAlone(s: State, t: int)
    requires Invariant(s)
    ensures Exec(Work(s, t), CommittedTables(s)).Finished?
    ensures t in s.active ==> TxSound(s, s.active[t])
    ensures Visible(s, t) == Alone(s, t)
  {
    TransfersAreAlone(s, t);
    EntriesAreAlone(s, t);
    WorkSucceeds(s, t);
    ExecFootprint(Work(s, t), CommittedTables(s));
    forall a
      ensures Lookup(Visible(s, t).accounts, a) == Lookup(Alone(s, t).accounts, a)
    {
      VersionIsAlone(s, t, a);
      if a !in RowsTouched(s) {
        assert forall u :: WroteElsewhere(s, t, u, a) ==> a in RowsTouched(s);
        assert Version(s, t, a) == Lookup(s.tables.accounts, a);
      }
    }
    SameMap(Visible(s, t).accounts, Alone(s, t).accounts);
  }
}
