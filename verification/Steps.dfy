/** Running a statement keeps the invariant. */
module Steps {
  import opened Schema
  import opened Statements
  import opened Locks
  import opened Requests
  import opened Footprints
  import opened Engine
  import opened Isolation
  import opened Preservation

  /** `t` runs `op`, which turns what `t` sees into `after`. */
  ghost predicate Running(s: State, t: int, op: Op, after: Tables) {
    && Invariant(s)
    && t in s.active && s.active[t].todo != [] && s.active[t].todo[0] == op
    && !Blocked(s, t) && s.active[t].checks == 0
    && Apply(op, Visible(s, t)) == Some(after)
  }

  function Stepped(s: State, t: int, op: Op, seen: Tables, after: Tables): State
    requires t in s.active && s.active[t].todo != []
  {
    s.(tables := InPlace(op, after, s.tables), active := s.active[t := Advanced(s.active[t], seen, after)])
  }

  /** The foreign keys of a transfer row have been checked when the row is inserted. */
  lemma ProgramOrder(tx: Tx)
    requires Shaped(tx) && tx.todo != []
    ensures tx.todo[0].PutTransfer? ==>
              CheckKey(tx.todo[0].from) in tx.done && CheckKey(tx.todo[0].to) in tx.done
    ensures tx.todo[0].RemoveAccount? ==> tx.done == []
    ensures tx.todo[0].PutAccount? ==> tx.done == []
  {
    var ops, k := Program(tx.req, tx.ids), |tx.done|;
    assert tx.todo[0] == ops[k];
    if tx.todo[0].PutTransfer? {
      assert k == 2;
      assert tx.done[0] == ops[0] && tx.done[1] == ops[1];
    }
  }

  lemma CoveredWhenRun(tx: Tx, seen: Tables)
    requires Shaped(tx) && tx.todo != [] && AllCovered(tx.done, tx.held)
    ensures AllCovered(tx.done + [tx.todo[0]], tx.held + Wanted(tx.todo[0], seen))
  {
    var op, held := tx.todo[0], tx.held + Wanted(tx.todo[0], seen);
    ProgramOrder(tx);
    if op.PutTransfer? {
      forall a | CheckKey(a) in tx.done
        ensures Lock(RowOf(a), KeyShare) in tx.held
      {
        var i :| 0 <= i < |tx.done| && tx.done[i] == CheckKey(a);
        assert Covered(tx.done[i], tx.held);
      }
    }
    assert Covered(op, held);
    forall i | 0 <= i < |tx.done|
      ensures Covered(tx.done[i], held)
    {
      assert Covered(tx.done[i], tx.held);
    }
  }

  lemma HeldWhenRun(tx: Tx, seen: Tables)
    requires tx.todo != []
    requires forall a, m :: Lock(RowOf(a), m) in tx.held ==> Touches(tx.done, a)
    ensures forall a, m :: Lock(RowOf(a), m) in tx.held + Wanted(tx.todo[0], seen) ==>
              Touches(tx.done + [tx.todo[0]], a)
  {
    Later(tx.done, tx.todo[0]);
  }

  /** A row changed in flight is either committed and write-locked, or new and not yet committed. */
  lemma WriterHoldsRow(s: State, u: int, a: int)
    requires Invariant(s) && Wrote(s, u, a)
    ensures a in CommittedTables(s).accounts ==> WriteLocked(s.active[u].held, a)
    ensures a !in CommittedTables(s).accounts ==> AccountId(a) in Reserved(s.active[u])
    ensures AccountId(a) in Reserved(s.active[u]) ==> a !in CommittedTables(s).accounts
  {
    var ux, c := s.active[u], CommittedTables(s);
    assert TxSound(s, ux);
    CreatingPart(ux.done, ux.todo);
    ChangedExisted(ux.done, c, a);
    ChangedBy(ux.done, a);
    var i :| 0 <= i < |ux.done| && Changes(ux.done[i]) == Some(a);
    assert Covered(ux.done[i], ux.held);
    assert a in c.accounts ==> AccountId(a) in IdsIn(c);
    if ux.done[i].PutAccount? {
      CreatingHas(ux.done, i);
    }
  }

  /** A statement that changes a committed row waits for every holder of a write lock on it. */
  lemma WriterWaits(s: State, t: int, op: Op, after: Tables, u: int, a: int)
    requires Running(s, t, op, after) && u in s.active && u != t
    requires Changes(op) == Some(a) && !op.PutAccount?
    ensures !WriteLocked(s.active[u].held, a)
  {
    if WriteLocked(s.active[u].held, a) {
      var mine := Lock(RowOf(a), if op.RemoveAccount? then Update else NoKeyUpdate);
      var theirs := Lock(RowOf(a), if Lock(RowOf(a), Update) in s.active[u].held then Update else NoKeyUpdate);
      assert mine in Wanted(op, Visible(s, t)) && theirs in s.active[u].held && Clash(mine, theirs);
      assert WaitsFor(s, t, u);
    }
  }

  /** Whoever has changed a row excludes every other writer of it. */
  lemma NobodyElseWrote(s: State, t: int, op: Op, after: Tables, u: int, a: int)
    requires Running(s, t, op, after) && Changes(op) == Some(a) && u != t
    ensures !Wrote(s, u, a)
  {
    if Wrote(s, u, a) {
      WriterHoldsRow(s, u, a);
      CreatingPart(s.active[t].done, s.active[t].todo);
      if !op.PutAccount? {
        WriterWaits(s, t, op, after, u, a);
        NewRowIsInvisible(s, t, u, a);
      }
    }
  }

  /** An uncommitted new account does not exist for anyone else. */
  lemma NewRowIsInvisible(s: State, t: int, u: int, a: int)
    requires Invariant(s) && t in s.active && u != t && Wrote(s, u, a)
    requires a !in CommittedTables(s).accounts
    ensures a !in Visible(s, t).accounts
  {
    VisibleIsAlone(s, t);
    VersionIsAlone(s, t, a);
    ExecFootprint(s.active[t].done, CommittedTables(s));
    assert TxSound(s, s.active[t]);
    assert !Wrote(s, t, a);
  }

  // ---------- The parts of the invariant after a step ----------

  /** The images and in-place rows of `t` are right after the step. */
  ghost predicate ImagesRight(s: State, t: int, op: Op, seen: Tables, after: Tables)
    requires t in s.active && s.active[t].todo != []
  {
    var z := Stepped(s, t, op, seen, after);
    forall a :: a in z.active[t].undo.accounts ==>
      && z.active[t].undo.accounts[a] == Lookup(CommittedTables(s).accounts, a)
      && Lookup(z.tables.accounts, a) == Lookup(after.accounts, a)
  }

  lemma StepKeepsOwn(s: State, t: int, op: Op, seen: Tables, after: Tables)
    requires t in s.active && s.active[t].todo != [] && s.active[t].todo[0] == op
    requires TxSound(s, s.active[t]) && Shaped(s.active[t])
    requires Exec(s.active[t].done, CommittedTables(s)).tables == seen && Apply(op, seen) == Some(after)
    requires ImagesRight(s, t, op, seen, after)
    ensures var z := Stepped(s, t, op, seen, after); TxSound(z, z.active[t])
  {
    var tx := s.active[t];
    ExecSnoc(tx.done, op, CommittedTables(s));
    FootprintSnoc(tx.done, op);
    CoveredWhenRun(tx, seen);
    HeldWhenRun(tx, seen);
  }

  lemma OwnImages(s: State, t: int, op: Op, after: Tables)
    requires Running(s, t, op, after) && TxSound(s, s.active[t]) && Visible(s, t) == Alone(s, t)
    ensures ImagesRight(s, t, op, Visible(s, t), after)
  {
    var seen, c, undo := Visible(s, t), CommittedTables(s), s.active[t].undo;
    ExecFootprint(s.active[t].done, c);
    forall a | a in Logged(undo, op, seen).accounts
      ensures Logged(undo, op, seen).accounts[a] == Lookup(c.accounts, a)
      ensures Lookup(InPlace(op, after, s.tables).accounts, a) == Lookup(after.accounts, a)
    {
      OwnImage(op, seen, after, s.tables, undo, c, a);
    }
  }

  lemma OwnImage(op: Op, seen: Tables, after: Tables, tables: Tables, undo: Undo, c: Tables, a: int)
    requires Apply(op, seen) == Some(after) && a in Logged(undo, op, seen).accounts
    requires a in undo.accounts ==>
               undo.accounts[a] == Lookup(c.accounts, a) && Lookup(tables.accounts, a) == Lookup(seen.accounts, a)
    requires a !in undo.accounts ==> Lookup(seen.accounts, a) == Lookup(c.accounts, a)
    ensures Logged(undo, op, seen).accounts[a] == Lookup(c.accounts, a)
    ensures Lookup(InPlace(op, after, tables).accounts, a) == Lookup(after.accounts, a)
  {
    if Changes(op) != Some(a) {
      ApplyElsewhere(op, seen, a);
      InPlaceElsewhere(op, after, tables, a);
    }
  }

  lemma InPlaceElsewhere(op: Op, after: Tables, tables: Tables, a: int)
    requires Changes(op) != Some(a)
    ensures Lookup(InPlace(op, after, tables).accounts, a) == Lookup(tables.accounts, a)
  {}

  lemma StepKeepsOthers(s: State, t: int, op: Op, after: Tables, u: int)
    requires Running(s, t, op, after) && u in s.active && u != t
    ensures var z := Stepped(s, t, op, Visible(s, t), after); TxSound(z, z.active[u])
  {
    var z := Stepped(s, t, op, Visible(s, t), after);
    assert TxSound(s, s.active[u]);
    forall a | a in s.active[u].undo.accounts
      ensures Lookup(z.tables.accounts, a) == Lookup(s.tables.accounts, a)
    {
      assert Wrote(s, u, a);
      if Changes(op) == Some(a) {
        NobodyElseWrote(s, t, op, after, u, a);
      }
      InPlaceElsewhere(op, after, s.tables, a);
    }
  }

  /** `t` alone has changed the row that `op` changes. */
  ghost predicate OnlyWriter(s: State, t: int, op: Op) {
    Changes(op).Some? ==> forall u :: u != t ==> !Wrote(s, u, Changes(op).value)
  }

  lemma StepWrites(s: State, t: int, op: Op, seen: Tables, after: Tables, u: int, a: int)
    requires t in s.active && s.active[t].todo != [] && s.active[t].todo[0] == op
    ensures Wrote(Stepped(s, t, op, seen, after), u, a) <==> Wrote(s, u, a) || (u == t && Changes(op) == Some(a))
  {}

  lemma StepKeepsAccounts(s: State, t: int, op: Op, seen: Tables, after: Tables)
    requires t in s.active && s.active[t].todo != [] && s.active[t].todo[0] == op
    requires AccountsInPlace(s)
    ensures AccountsInPlace(Stepped(s, t, op, seen, after))
  {
    var z := Stepped(s, t, op, seen, after);
    forall a | forall u :: !Wrote(z, u, a)
      ensures Lookup(z.tables.accounts, a) == Lookup(CommittedTables(z).accounts, a)
    {
      StepWrites(s, t, op, seen, after, t, a);
      InPlaceElsewhere(op, after, s.tables, a);
      forall u ensures !Wrote(s, u, a) {
        StepWrites(s, t, op, seen, after, u, a);
      }
    }
  }

  lemma StepKeepsDisjoint(s: State, t: int, op: Op, seen: Tables, after: Tables)
    requires t in s.active && s.active[t].todo != [] && s.active[t].todo[0] == op
    requires WritesDisjoint(s) && OnlyWriter(s, t, op)
    ensures WritesDisjoint(Stepped(s, t, op, seen, after))
  {
    var z := Stepped(s, t, op, seen, after);
    forall x, u, a | x != u && Wrote(z, x, a)
      ensures !Wrote(z, u, a)
    {
      StepWrites(s, t, op, seen, after, x, a);
      StepWrites(s, t, op, seen, after, u, a);
    }
  }

  lemma StepKeepsIds(s: State, t: int, op: Op, seen: Tables, after: Tables)
    requires IdsSound(s) && t in s.active && s.active[t].todo != [] && s.active[t].todo[0] == op
    ensures IdsSound(Stepped(s, t, op, seen, after))
  {
    var z, tx := Stepped(s, t, op, seen, after), s.active[t];
    assert z.active[t].done + z.active[t].todo == tx.done + tx.todo;
    SameIds(s, z);
  }

  lemma StepKeepsLocks(s: State, t: int, op: Op, after: Tables)
    requires LocksSound(s) && t in s.active && s.active[t].todo != [] && s.active[t].todo[0] == op
    requires !Blocked(s, t) && s.active[t].checks == 0
    ensures LocksSound(Stepped(s, t, op, Visible(s, t), after))
  {
    var seen := Visible(s, t);
    var z := Stepped(s, t, op, seen, after);
    forall l, m, u | u in s.active && u != t && l in Wanted(op, seen) && m in s.active[u].held
      ensures !Clash(l, m) && !Clash(m, l)
    {
      ConflictIsSymmetric(l.mode, m.mode);
      assert !WaitsFor(s, t, u);
    }
    forall x, u, l, m | x in z.active && u in z.active && x != u && l in z.active[x].held && m in z.active[u].held
      ensures !Clash(l, m)
    {
      assert x != t ==> z.active[x] == s.active[x];
      assert u != t ==> z.active[u] == s.active[u];
      assert z.active[t].held == s.active[t].held + Wanted(op, seen);
    }
  }

  /** The id of a row about to be inserted is in no committed row and reserved by no one else. */
  lemma NewIdIsUnused(s: State, t: int, op: Op)
    requires IdsSound(s) && t in s.active && s.active[t].todo != [] && s.active[t].todo[0] == op
    requires Creates(op).Some?
    ensures Creates(op).value !in IdsIn(CommittedTables(s))
    ensures forall u :: u in s.active && u != t ==> Creates(op).value !in Reserved(s.active[u])
  {
    CreatingPart(s.active[t].done, s.active[t].todo);
    assert Creates(op).value in Reserved(s.active[t]);
  }

  /** No committed row and no row of another transaction carries the id that `op` is about to insert. */
  ghost predicate InsertsNew(s: State, t: int, op: Op) {
    && (op.PutTransfer? ==>
          op.id !in CommittedTables(s).transfers && forall u :: u != t ==> !InsertsTransfer(s, u, op.id))
    && (op.PutEntry? ==>
          op.id !in CommittedTables(s).entries && forall u :: u != t ==> !InsertsEntry(s, u, op.id))
  }

  lemma StepInsertsNew(s: State, t: int, op: Op)
    requires AllSound(s) && IdsSound(s) && t in s.active && s.active[t].todo != [] && s.active[t].todo[0] == op
    ensures InsertsNew(s, t, op)
  {
    var c := CommittedTables(s);
    assert forall i :: i in c.transfers ==> TransferId(i) in IdsIn(c);
    assert forall i :: i in c.entries ==> EntryId(i) in IdsIn(c);
    if Creates(op).Some? {
      NewIdIsUnused(s, t, op);
    }
    forall u | u in s.active
      ensures forall i :: i in NewTransfers(s.active[u].done) ==> TransferId(i) in Reserved(s.active[u])
      ensures forall i :: i in NewEntries(s.active[u].done) ==> EntryId(i) in Reserved(s.active[u])
    {
      OwnInserts(s, u);
    }
  }

  lemma InPlaceInserts(op: Op, seen: Tables, after: Tables, tables: Tables)
    requires Apply(op, seen) == Some(after)
    ensures InPlace(op, after, tables).transfers ==
            if op.PutTransfer? then tables.transfers[op.id := Transfer(op.from, op.to, op.amount)] else tables.transfers
    ensures InPlace(op, after, tables).entries ==
            if op.PutEntry? then tables.entries[op.id := Entry(op.account, op.amount, op.transfer, op.createdAt)]
            else tables.entries
  {}

  /** Adding the same new row to the table and to the work of `t`. */
  lemma NewTransferKeeps(s: State, z: State, t: int, i: int, row: Transfer)
    requires TransfersInPlace(s) && t in s.active && t in z.active
    requires z.base == s.base && z.log == s.log && z.active.Keys == s.active.Keys
    requires forall u :: u in s.active && u != t ==> z.active[u] == s.active[u]
    requires NewTransfers(z.active[t].done) == NewTransfers(s.active[t].done)[i := row]
    requires z.tables.transfers == s.tables.transfers[i := row]
    requires i !in CommittedTables(s).transfers && forall u :: u != t ==> !InsertsTransfer(s, u, i)
    ensures TransfersInPlace(z)
  {
    assert forall u, j :: InsertsTransfer(z, u, j) <==> InsertsTransfer(s, u, j) || (u == t && i == j);
    forall j | j in z.tables.transfers && j !in CommittedTables(z).transfers
      ensures exists u :: InsertsTransfer(z, u, j)
    {
      if i == j {
        assert InsertsTransfer(z, t, j);
      } else {
        var u :| InsertsTransfer(s, u, j);
        assert InsertsTransfer(z, u, j);
      }
    }
  }

  lemma StepKeepsTransfers(s: State, t: int, op: Op, seen: Tables, after: Tables)
    requires TransfersInPlace(s) && InsertsNew(s, t, op)
    requires t in s.active && s.active[t].todo != [] && s.active[t].todo[0] == op && Apply(op, seen) == Some(after)
    ensures TransfersInPlace(Stepped(s, t, op, seen, after))
  {
    var z, done := Stepped(s, t, op, seen, after), s.active[t].done;
    FootprintSnoc(done, op);
    InPlaceInserts(op, seen, after, s.tables);
    if op.PutTransfer? {
      NewTransferKeeps(s, z, t, op.id, Transfer(op.from, op.to, op.amount));
    } else {
      SameTransfers(s, z);
    }
  }

  lemma SameTransfers(s: State, z: State)
    requires TransfersInPlace(s) && z.base == s.base && z.log == s.log && z.tables.transfers == s.tables.transfers
    requires z.active.Keys == s.active.Keys
    requires forall u :: u in s.active ==> NewTransfers(z.active[u].done) == NewTransfers(s.active[u].done)
    ensures TransfersInPlace(z)
  {
    assert forall u, i :: InsertsTransfer(z, u, i) <==> InsertsTransfer(s, u, i);
  }

  /** Adding the same new row to the table and to the work of `t`. */
  lemma NewEntryKeeps(s: State, z: State, t: int, i: int, row: Entry)
    requires EntriesInPlace(s) && t in s.active && t in z.active
    requires z.base == s.base && z.log == s.log && z.active.Keys == s.active.Keys
    requires forall u :: u in s.active && u != t ==> z.active[u] == s.active[u]
    requires NewEntries(z.active[t].done) == NewEntries(s.active[t].done)[i := row]
    requires z.tables.entries == s.tables.entries[i := row]
    requires i !in CommittedTables(s).entries && forall u :: u != t ==> !InsertsEntry(s, u, i)
    ensures EntriesInPlace(z)
  {
    assert forall u, j :: InsertsEntry(z, u, j) <==> InsertsEntry(s, u, j) || (u == t && i == j);
    forall j | j in z.tables.entries && j !in CommittedTables(z).entries
      ensures exists u :: InsertsEntry(z, u, j)
    {
      if i == j {
        assert InsertsEntry(z, t, j);
      } else {
        var u :| InsertsEntry(s, u, j);
        assert InsertsEntry(z, u, j);
      }
    }
  }

  lemma StepKeepsEntries(s: State, t: int, op: Op, seen: Tables, after: Tables)
    requires EntriesInPlace(s) && InsertsNew(s, t, op)
    requires t in s.active && s.active[t].todo != [] && s.active[t].todo[0] == op && Apply(op, seen) == Some(after)
    ensures EntriesInPlace(Stepped(s, t, op, seen, after))
  {
    var z, done := Stepped(s, t, op, seen, after), s.active[t].done;
    FootprintSnoc(done, op);
    InPlaceInserts(op, seen, after, s.tables);
    if op.PutEntry? {
      NewEntryKeeps(s, z, t, op.id, Entry(op.account, op.amount, op.transfer, op.createdAt));
    } else {
      assert forall u :: u in s.active ==> NewEntries(z.active[u].done) == NewEntries(s.active[u].done);
      SameEntries(s, z);
    }
  }

  lemma SameEntries(s: State, z: State)
    requires EntriesInPlace(s) && z.base == s.base && z.log == s.log && z.tables.entries == s.tables.entries
    requires z.active.Keys == s.active.Keys
    requires forall u :: u in s.active ==> NewEntries(z.active[u].done) == NewEntries(s.active[u].done)
    ensures EntriesInPlace(z)
  {
    assert forall u, i :: InsertsEntry(z, u, i) <==> InsertsEntry(s, u, i);
  }

  lemma StepKeepsShapes(s: State, t: int, op: Op, seen: Tables, after: Tables)
    requires AllShaped(s) && t in s.active && s.active[t].todo != [] && s.active[t].todo[0] == op
    ensures AllShaped(Stepped(s, t, op, seen, after))
  {
    var z, tx := Stepped(s, t, op, seen, after), s.active[t];
    assert z.active[t].done + z.active[t].todo == tx.done + tx.todo;
  }

  lemma StepIsOnlyWriter(s: State, t: int, op: Op, after: Tables)
    requires Running(s, t, op, after)
    ensures OnlyWriter(s, t, op)
  {
    if Changes(op).Some? {
      forall u | u != t ensures !Wrote(s, u, Changes(op).value) {
        NobodyElseWrote(s, t, op, after, u, Changes(op).value);
      }
    }
  }

  lemma StepKeepsTxs(s: State, t: int, op: Op, after: Tables)
    requires Running(s, t, op, after)
    ensures AllSound(Stepped(s, t, op, Visible(s, t), after))
  {
    var z := Stepped(s, t, op, Visible(s, t), after);
    VisibleIsAlone(s, t);
    OwnImages(s, t, op, after);
    forall u | u in z.active
      ensures TxSound(z, z.active[u])
    {
      if u == t { StepKeepsOwn(s, t, op, Visible(s, t), after); } else { StepKeepsOthers(s, t, op, after, u); }
    }
  }

  lemma StepKeepsUsers(op: Op, after: Tables, tables: Tables)
    ensures InPlace(op, after, tables).users == tables.users
  {}

  lemma StepKeeps(s: State, t: int, op: Op, after: Tables)
    requires Running(s, t, op, after)
    ensures Invariant(Stepped(s, t, op, Visible(s, t), after))
  {
    var seen := Visible(s, t);
    StepKeepsShapes(s, t, op, seen, after);
    StepIsOnlyWriter(s, t, op, after);
    StepKeepsAccounts(s, t, op, seen, after);
    StepKeepsDisjoint(s, t, op, seen, after);
    StepKeepsIds(s, t, op, seen, after);
    StepKeepsLocks(s, t, op, after);
    StepInsertsNew(s, t, op);
    StepKeepsTransfers(s, t, op, seen, after);
    StepKeepsEntries(s, t, op, seen, after);
    StepKeepsTxs(s, t, op, after);
    StepKeepsUsers(op, after, s.tables);
  }
}
