/** A commit keeps the invariant: whatever the others have done would come out the same after it. */
module Commits {
  import opened Schema
  import opened Statements
  import opened Locks
  import opened Requests
  import opened Footprints
  import opened Engine
  import opened Isolation
  import opened Preservation
  import opened Steps

  lemma NoClash(s: State, t: int, u: int, l: Lock, m: Lock)
    requires LocksSound(s) && t in s.active && u in s.active && t != u
    requires l in s.active[t].held && m in s.active[u].held
    ensures !Clash(l, m)
  {}

  /** A row that `u` has locked was committed before `t` ends. */
  lemma LockedRowsAreCommitted(s: State, t: int, u: int, a: int, m: Mode)
    requires Invariant(s) && t in s.active && u in s.active && t != u
    requires Lock(RowOf(a), m) in s.active[u].held
    ensures AccountId(a) !in Reserved(s.active[t])
  {
    var ux, c := s.active[u], CommittedTables(s);
    assert TxSound(s, ux);
    TouchedExisted(ux.done, c, a);
    CreatingPart(ux.done, ux.todo);
    assert a in c.accounts ==> AccountId(a) in IdsIn(c);
  }

  lemma CommitKeepsKeySharedRows(s: State, t: int, u: int, a: int)
    requires Invariant(s) && t in s.active && u in s.active && t != u
    requires Lock(RowOf(a), KeyShare) in s.active[u].held && a in CommittedTables(s).accounts
    ensures TxSound(s, s.active[t]) && a in Alone(s, t).accounts
  {
    var tx, c := s.active[t], CommittedTables(s);
    assert TxSound(s, tx);
    AccountsFollow(tx.done, c);
    if a !in Alone(s, t).accounts {
      var i :| 0 <= i < |tx.done| && tx.done[i] == RemoveAccount(a);
      assert Covered(tx.done[i], tx.held);
      NoClash(s, t, u, Lock(RowOf(a), Update), Lock(RowOf(a), KeyShare));
    }
  }

  lemma CommitKeepsWriteLockedRows(s: State, t: int, u: int, a: int)
    requires Invariant(s) && t in s.active && u in s.active && t != u && WriteLocked(s.active[u].held, a)
    ensures TxSound(s, s.active[t]) && Lookup(Alone(s, t).accounts, a) == Lookup(CommittedTables(s).accounts, a)
  {
    var tx := s.active[t];
    assert TxSound(s, tx);
    ExecFootprint(tx.done, CommittedTables(s));
    var m := if Lock(RowOf(a), Update) in s.active[u].held then Update else NoKeyUpdate;
    LockedRowsAreCommitted(s, t, u, a, m);
    if a in Changed(tx.done) {
      assert Wrote(s, t, a);
      WriterHoldsRow(s, t, a);
      var n := if Lock(RowOf(a), Update) in tx.held then Update else NoKeyUpdate;
      NoClash(s, t, u, Lock(RowOf(a), n), Lock(RowOf(a), m));
    }
  }

  lemma CommitKeepsReferences(s: State, t: int, u: int, a: int)
    requires Invariant(s) && t in s.active && u in s.active && t != u
    requires Lock(RowOf(a), Update) in s.active[u].held && TxSound(s, s.active[t])
    ensures Referenced(Alone(s, t), a) ==> Referenced(CommittedTables(s), a)
  {
    var tx := s.active[t];
    ReferencesFollow(tx.done, CommittedTables(s), a);
    if Names(tx.done, a) {
      var i :| 0 <= i < |tx.done| && NamesOne(tx.done[i], a);
      assert Covered(tx.done[i], tx.held);
      NoClash(s, t, u, Lock(RowOf(a), KeyShare), Lock(RowOf(a), Update));
    }
  }

  lemma CommitKeepsUniqueKeys(s: State, t: int, u: int, a: int, o: string, c: string)
    requires Invariant(s) && t in s.active && u in s.active && t != u
    requires Lock(OwnerCurrency(o, c), Update) in s.active[u].held && TxSound(s, s.active[t])
    ensures HasKey(Alone(s, t), a, o, c) ==> HasKey(CommittedTables(s), a, o, c)
  {
    var tx := s.active[t];
    AccountsFollow(tx.done, CommittedTables(s));
    if Opens(tx.done, a, o, c) {
      var i :| 0 <= i < |tx.done| && OpensOne(tx.done[i], a, o, c);
      assert Covered(tx.done[i], tx.held);
      NoClash(s, t, u, Lock(OwnerCurrency(o, c), Update), Lock(OwnerCurrency(o, c), Update));
    }
  }

  /** The commit of `t` leaves everything that `u` has locked as `u` found it. */
  lemma CommitAgrees(s: State, t: int, u: int)
    requires Invariant(s) && t in s.active && u in s.active && t != u
    ensures TxSound(s, s.active[t])
    ensures Agrees(CommittedTables(s), Alone(s, t), s.active[u].held)
  {
    var tx, c, held := s.active[t], CommittedTables(s), s.active[u].held;
    assert TxSound(s, tx);
    var w := Alone(s, t);
    ExecFootprint(tx.done, c);
    forall a | Lock(RowOf(a), KeyShare) in held && a in c.accounts ensures a in w.accounts {
      CommitKeepsKeySharedRows(s, t, u, a);
    }
    forall a | WriteLocked(held, a) ensures Lookup(c.accounts, a) == Lookup(w.accounts, a) {
      CommitKeepsWriteLockedRows(s, t, u, a);
    }
    forall a | Lock(RowOf(a), Update) in held && Referenced(w, a) ensures Referenced(c, a) {
      CommitKeepsReferences(s, t, u, a);
    }
    forall a, o, k | Lock(OwnerCurrency(o, k), Update) in held && HasKey(w, a, o, k) ensures HasKey(c, a, o, k) {
      CommitKeepsUniqueKeys(s, t, u, a, o, k);
    }
  }

  lemma CommitLeavesIdsUnused(s: State, t: int, u: int)
    requires Invariant(s) && t in s.active && u in s.active && t != u
    ensures TxSound(s, s.active[t])
    ensures Unused(s.active[u].done, Alone(s, t))
    ensures IdsIn(Alone(s, t)) !! Reserved(s.active[u])
  {
    var tx, ux, c := s.active[t], s.active[u], CommittedTables(s);
    assert TxSound(s, tx);
    var w := Alone(s, t);
    IdsFollow(tx.done, c);
    CreatingPart(tx.done, tx.todo);
    CreatingPart(ux.done, ux.todo);
    forall i | 0 <= i < |ux.done| && Creates(ux.done[i]).Some?
      ensures Creates(ux.done[i]).value !in IdsIn(w)
    {
      CreatingHas(ux.done, i);
    }
    UnusedFromIds(ux.done, w);
  }

  lemma UnusedFromIds(ops: seq<Op>, t: Tables)
    requires forall i :: 0 <= i < |ops| && Creates(ops[i]).Some? ==> Creates(ops[i]).value !in IdsIn(t)
    ensures Unused(ops, t)
  {
    assert forall a :: a in t.accounts ==> AccountId(a) in IdsIn(t);
    assert forall a :: a in t.transfers ==> TransferId(a) in IdsIn(t);
    assert forall a :: a in t.entries ==> EntryId(a) in IdsIn(t);
    forall i | 0 <= i < |ops|
      ensures ops[i].PutTransfer? ==> ops[i].id !in t.transfers
      ensures ops[i].PutEntry? ==> ops[i].id !in t.entries
      ensures ops[i].PutAccount? ==> ops[i].id !in t.accounts
    {
      var r := Creates(ops[i]);
      assert r.Some? ==> r.value !in IdsIn(t);
    }
  }

  /** Committing `t` makes its view the committed tables. */
  lemma CommitAdvances(s: State, t: int)
    requires Invariant(s) && t in s.active
    ensures TxSound(s, s.active[t])
    ensures CommittedTables(Commit(s, t)) == Alone(s, t)
    ensures Faithful(s.base, Commit(s, t).log)
  {
    assert TxSound(s, s.active[t]);
    var rec, log' := CommitRecord(s, t), Commit(s, t).log;
    assert log'[..|log'| - 1] == s.log;
    assert log'[|log'| - 1] == rec;
    forall i | 0 <= i < |log'|
      ensures FaithfulAt(s.base, log', i)
    {
      if i < |s.log| {
        assert FaithfulAt(s.base, s.log, i);
        assert log'[..i] == s.log[..i] && log'[..i + 1] == s.log[..i + 1];
      } else {
        assert log'[..i] == s.log && log'[..i + 1] == log';
      }
    }
  }

  lemma CommitKeepsOthers(s: State, t: int, u: int)
    requires Invariant(s) && t in s.active && u in s.active && t != u
    ensures TxSound(Commit(s, t), s.active[u])
  {
    var z, ux, c := Commit(s, t), s.active[u], CommittedTables(s);
    CommitAdvances(s, t);
    CommitAgrees(s, t, u);
    CommitLeavesIdsUnused(s, t, u);
    assert TxSound(s, ux);
    RunIsShielded(ux.done, c, Alone(s, t), ux.held);
    ExecFootprint(s.active[t].done, c);
    forall a | a in ux.undo.accounts
      ensures ux.undo.accounts[a] == Lookup(CommittedTables(z).accounts, a)
    {
      assert Wrote(s, u, a) && !Wrote(s, t, a);
    }
  }

  lemma CommitKeepsAccounts(s: State, t: int)
    requires Invariant(s) && t in s.active
    ensures AccountsInPlace(Commit(s, t))
  {
    var z, c := Commit(s, t), CommittedTables(s);
    CommitAdvances(s, t);
    ExecFootprint(s.active[t].done, c);
    forall a | forall u :: !Wrote(z, u, a)
      ensures Lookup(z.tables.accounts, a) == Lookup(CommittedTables(z).accounts, a)
    {
      if !Wrote(s, t, a) {
        forall u ensures !Wrote(s, u, a) {
          assert !Wrote(z, u, a);
        }
      }
    }
  }

  lemma CommitKeepsTransfers(s: State, t: int)
    requires TransfersInPlace(s) && t in s.active
    requires CommittedTables(Commit(s, t)).transfers == CommittedTables(s).transfers + NewTransfers(s.active[t].done)
    ensures TransfersInPlace(Commit(s, t))
  {
    var z, c := Commit(s, t), CommittedTables(s);
    assert forall u, i :: InsertsTransfer(z, u, i) <==> u != t && InsertsTransfer(s, u, i);
    assert forall i :: i in NewTransfers(s.active[t].done) ==> InsertsTransfer(s, t, i);
    forall i | i in z.tables.transfers && i !in CommittedTables(z).transfers
      ensures exists u :: InsertsTransfer(z, u, i)
    {
      var u :| InsertsTransfer(s, u, i);
      assert InsertsTransfer(z, u, i);
    }
  }

  lemma CommitKeepsEntries(s: State, t: int)
    requires EntriesInPlace(s) && t in s.active
    requires CommittedTables(Commit(s, t)).entries == CommittedTables(s).entries + NewEntries(s.active[t].done)
    ensures EntriesInPlace(Commit(s, t))
  {
    var z, c := Commit(s, t), CommittedTables(s);
    assert forall u, i :: InsertsEntry(z, u, i) <==> u != t && InsertsEntry(s, u, i);
    assert forall i :: i in NewEntries(s.active[t].done) ==> InsertsEntry(s, t, i);
    forall i | i in z.tables.entries && i !in CommittedTables(z).entries
      ensures exists u :: InsertsEntry(z, u, i)
    {
      var u :| InsertsEntry(s, u, i);
      assert InsertsEntry(z, u, i);
    }
  }

  lemma CommitKeepsIds(s: State, t: int)
    requires Invariant(s) && t in s.active
    ensures IdsSound(Commit(s, t))
  {
    var z, c, tx := Commit(s, t), CommittedTables(s), s.active[t];
    CommitAdvances(s, t);
    IdsFollow(tx.done, c);
    CreatingPart(tx.done, tx.todo);
    forall u | u in z.active
      ensures Reserved(z.active[u]) !! IdsIn(CommittedTables(z))
    {
      CommitLeavesIdsUnused(s, t, u);
    }
  }

  lemma CommitKeeps(s: State, t: int)
    requires Invariant(s) && t in s.active
    ensures Invariant(Commit(s, t))
  {
    var z := Commit(s, t);
    CommitAdvances(s, t);
    ExecFootprint(s.active[t].done, CommittedTables(s));
    CommitKeepsAccounts(s, t);
    CommitKeepsTransfers(s, t);
    CommitKeepsEntries(s, t);
    CommitKeepsIds(s, t);
    forall u | u in z.active
      ensures TxSound(z, z.active[u])
    {
      CommitKeepsOthers(s, t, u);
    }
    assert forall u, a :: Wrote(z, u, a) ==> Wrote(s, u, a);
  }

  // ---------- All events, all runs ----------

  lemma EventKeeps(s: State, e: Event)
    requires Invariant(s) && Enabled(s, e)
    ensures Invariant(After(s, e))
  {
    match e
    case Arrive(t, req, ids) => StartKeeps(s, t, req, ids);
    case Cancel(t) => RollBackKeeps(s, t);
    case Finish(t) => CommitKeeps(s, t);
    case Look(t) => LookKeeps(s, t);
    case Run(t) => RunKeeps(s, t);
  }

  lemma LookKeeps(s: State, t: int)
    requires Invariant(s) && Enabled(s, Look(t))
    ensures Invariant(Check(s, t))
  {
    var z, tx := Check(s, t), s.active[t];
    if z == RollBack(s, t) {
      RollBackKeeps(s, t);
    } else {
      assert z == s.(active := s.active[t := z.active[t]]);
      ReadingKeeps(s, t, z.active[t]);
    }
  }

  lemma RunKeeps(s: State, t: int)
    requires Invariant(s) && Enabled(s, Run(t))
    ensures Invariant(Execute(s, t))
  {
    var tx, seen := s.active[t], Visible(s, t);
    var op := tx.todo[0];
    ProgramOrder(tx);
    if op.RemoveAccount? && op.account !in seen.accounts {
      EmptyEndKeeps(s, t);
    } else if Apply(op, seen).None? {
      RollBackKeeps(s, t);
    } else {
      StepKeeps(s, t, op, Apply(op, seen).value);
    }
  }

  lemma InitialHolds(s: State)
    requires Initial(s)
    ensures Invariant(s)
  {}

  /** The invariant holds after every run of every set of requests. */
  lemma {:induction false} RunsKeep(s: State, run: seq<Event>)
    requires Initial(s) && Legal(s, run)
    ensures Invariant(Final(s, run))
  {
    if run == [] {
      InitialHolds(s);
    } else {
      RunsKeep(s, run[..|run| - 1]);
      EventKeeps(Final(s, run[..|run| - 1]), run[|run| - 1]);
    }
  }
}
