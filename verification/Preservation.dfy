/** Every event keeps the invariant, so it holds throughout every run. */
module Preservation {
  import opened Schema
  import opened Statements
  import opened Requests
  import opened Engine
  import opened Isolation

  // ---------- Arrivals and checks ----------

  /** Two transactions that have run the same statements, or none. */
  predicate SameWork(x: Tx, y: Tx) {
    && x.done == y.done && x.rows == y.rows && x.held == y.held && x.undo == y.undo
  }

  predicate Idle(x: Tx) {
    x.done == [] && x.rows == [] && x.held == {} && x.undo == Undo(map[], {}, {})
  }

  /** `z` differs from `s` only in requests that have not run a statement and in what checks recorded. */
  ghost predicate NothingRan(s: State, z: State) {
    && z.base == s.base && z.tables == s.tables && z.log == s.log
    && (forall u :: u in s.active ==> u in z.active && SameWork(s.active[u], z.active[u]))
    && (forall u :: u in z.active && u !in s.active ==> Idle(z.active[u]))
  }

  lemma NothingRanKeepsTxs(s: State, z: State)
    requires AllSound(s) && NothingRan(s, z)
    ensures AllSound(z)
  {
    assert Changed([]) == {};
    forall u | u in z.active
      ensures TxSound(z, z.active[u])
    {
      if u in s.active {
        assert TxSound(s, s.active[u]);
      }
    }
  }

  lemma NothingRanKeepsTables(s: State, z: State)
    requires AccountsInPlace(s) && TransfersInPlace(s) && EntriesInPlace(s) && WritesDisjoint(s) && NothingRan(s, z)
    ensures AccountsInPlace(z) && TransfersInPlace(z) && EntriesInPlace(z) && WritesDisjoint(z)
  {
    assert forall u, a :: Wrote(z, u, a) <==> Wrote(s, u, a);
    assert forall u, i :: InsertsTransfer(z, u, i) <==> InsertsTransfer(s, u, i);
    assert forall u, i :: InsertsEntry(z, u, i) <==> InsertsEntry(s, u, i);
  }

  lemma NothingRanKeepsLocks(s: State, z: State)
    requires LocksSound(s) && NothingRan(s, z)
    ensures LocksSound(z)
  {}

  lemma JoiningKeepsIds(s: State, z: State, t: int, tx: Tx)
    requires IdsSound(s) && t !in s.active && Reserved(tx) !! s.taken
    requires z == s.(active := s.active[t := tx], taken := s.taken + Reserved(tx))
    ensures IdsSound(z)
  {}

  lemma NothingRanKeeps(s: State, z: State)
    requires Invariant(s) && NothingRan(s, z) && AllShaped(z) && IdsSound(z)
    ensures Invariant(z)
  {
    NothingRanKeepsTxs(s, z);
    NothingRanKeepsTables(s, z);
    NothingRanKeepsLocks(s, z);
  }

  lemma FreshIsIdle(req: Request, ids: Ids)
    requires Acceptable(req)
    ensures Idle(Fresh(req, ids)) && Shaped(Fresh(req, ids))
    ensures Reserved(Fresh(req, ids)) == Creating(Program(req, ids))
  {
    assert [] + Program(req, ids) == Program(req, ids);
  }

  lemma JoiningRunsNothing(s: State, z: State, t: int, tx: Tx)
    requires AllShaped(s) && t !in s.active && Idle(tx) && Shaped(tx)
    requires z == s.(active := s.active[t := tx], taken := z.taken)
    ensures NothingRan(s, z) && AllShaped(z)
  {}

  lemma StartKeeps(s: State, t: int, req: Request, ids: Ids)
    requires Invariant(s) && Enabled(s, Arrive(t, req, ids))
    ensures Invariant(Start(s, t, req, ids))
  {
    FreshIsIdle(req, ids);
    JoiningRunsNothing(s, Start(s, t, req, ids), t, Fresh(req, ids));
    JoiningKeepsIds(s, Start(s, t, req, ids), t, Fresh(req, ids));
    NothingRanKeeps(s, Start(s, t, req, ids));
  }

  lemma SameIds(s: State, z: State)
    requires IdsSound(s) && z.base == s.base && z.log == s.log && z.taken == s.taken
    requires forall u :: u in z.active ==> u in s.active && Reserved(z.active[u]) == Reserved(s.active[u])
    ensures IdsSound(z)
  {}

  /** Recording what a check read changes nothing the invariant speaks of. */
  lemma ReadingKeeps(s: State, t: int, tx: Tx)
    requires Invariant(s) && t in s.active
    requires tx.(checks := s.active[t].checks, source := s.active[t].source, payee := s.active[t].payee) == s.active[t]
    ensures Invariant(s.(active := s.active[t := tx]))
  {
    var z := s.(active := s.active[t := tx]);
    assert NothingRan(s, z) && AllShaped(z);
    SameIds(s, z);
    NothingRanKeeps(s, z);
  }

  lemma OutcomesAreFree(s: State, ended: map<int, Outcome>)
    requires Invariant(s)
    ensures Invariant(s.(ended := ended))
  {
    var z := s.(ended := ended);
    assert NothingRan(s, z);
    NothingRanKeepsTxs(s, z);
    NothingRanKeepsTables(s, z);
    NothingRanKeepsLocks(s, z);
  }

  // ---------- Rollback ----------

  lemma RestoredRow(accounts: map<int, Account>, images: map<int, Option<Account>>, a: int)
    ensures Lookup(Restored(accounts, images), a) == if a in images then images[a] else Lookup(accounts, a)
  {}

  lemma RollBackAccounts(s: State, t: int)
    requires Invariant(s) && t in s.active
    ensures AccountsInPlace(RollBack(s, t))
    ensures forall u :: u in RollBack(s, t).active ==> TxSound(RollBack(s, t), s.active[u])
  {
    var s' := RollBack(s, t);
    var images := s.active[t].undo.accounts;
    assert TxSound(s, s.active[t]);
    forall a | forall u :: !Wrote(s', u, a)
      ensures Lookup(s'.tables.accounts, a) == Lookup(CommittedTables(s').accounts, a)
    {
      RestoredRow(s.tables.accounts, images, a);
      if a !in images {
        forall u ensures !Wrote(s, u, a) {
          assert !Wrote(s', u, a);
        }
      }
    }
    forall u | u in s'.active
      ensures TxSound(s', s'.active[u])
    {
      assert TxSound(s, s.active[u]);
      forall a | a in s.active[u].undo.accounts
        ensures Lookup(s'.tables.accounts, a) == Lookup(s.tables.accounts, a)
      {
        assert Wrote(s, u, a) && !Wrote(s, t, a);
        RestoredRow(s.tables.accounts, images, a);
      }
    }
  }

  lemma RollBackTransfers(s: State, t: int)
    requires Invariant(s) && t in s.active
    ensures TransfersInPlace(RollBack(s, t))
  {
    var s', c, undo := RollBack(s, t), CommittedTables(s), s.active[t].undo;
    OwnInserts(s, t);
    assert forall u, i :: InsertsTransfer(s', u, i) <==> u != t && InsertsTransfer(s, u, i);
    forall i | i in c.transfers
      ensures i !in undo.transfers
    {
      assert TransferId(i) in IdsIn(c);
    }
    forall u, i | u != t && InsertsTransfer(s, u, i)
      ensures i !in undo.transfers
    {
      OwnInserts(s, u);
    }
    forall i | i in s'.tables.transfers && i !in c.transfers
      ensures exists u :: InsertsTransfer(s', u, i)
    {
      var u :| InsertsTransfer(s, u, i);
      assert InsertsTransfer(s', u, i);
    }
  }

  lemma RollBackEntries(s: State, t: int)
    requires Invariant(s) && t in s.active
    ensures EntriesInPlace(RollBack(s, t))
  {
    var s', c, undo := RollBack(s, t), CommittedTables(s), s.active[t].undo;
    OwnInserts(s, t);
    assert forall u, i :: InsertsEntry(s', u, i) <==> u != t && InsertsEntry(s, u, i);
    forall i | i in c.entries
      ensures i !in undo.entries
    {
      assert EntryId(i) in IdsIn(c);
    }
    forall u, i | u != t && InsertsEntry(s, u, i)
      ensures i !in undo.entries
    {
      OwnInserts(s, u);
    }
    forall i | i in s'.tables.entries && i !in c.entries
      ensures exists u :: InsertsEntry(s', u, i)
    {
      var u :| InsertsEntry(s, u, i);
      assert InsertsEntry(s', u, i);
    }
  }

  lemma RollBackKeeps(s: State, t: int)
    requires Invariant(s) && t in s.active
    ensures Invariant(RollBack(s, t))
    ensures CommittedTables(RollBack(s, t)) == CommittedTables(s)
  {
    RollBackAccounts(s, t);
    RollBackTransfers(s, t);
    RollBackEntries(s, t);
    var s' := RollBack(s, t);
    assert forall u, a :: Wrote(s', u, a) ==> Wrote(s, u, a);
  }

  /** A transaction that has run no statement can end as if it had never been. */
  lemma EmptyEndKeeps(s: State, t: int)
    requires Invariant(s) && t in s.active && s.active[t].done == []
    ensures Invariant(End(s, t, Committed))
  {
    RollBackKeeps(s, t);
    assert TxSound(s, s.active[t]);
    assert Changed([]) == {};
    var undo := s.active[t].undo;
    assert undo.accounts == map[];
    forall a
      ensures Lookup(Restored(s.tables.accounts, undo.accounts), a) == Lookup(s.tables.accounts, a)
    {
      RestoredRow(s.tables.accounts, undo.accounts, a);
    }
    SameMap(Restored(s.tables.accounts, undo.accounts), s.tables.accounts);
    assert RollBack(s, t).tables == s.tables;
    var r, e := RollBack(s, t), End(s, t, Committed);
    assert e == r.(ended := e.ended);
    OutcomesAreFree(r, e.ended);
  }
}
