/**
 * Row locks, as in section 13.3.2 (Row-Level Locks) of the PostgreSQL 16 documentation,
 * and what holding them guarantees about a run of statements.
 */
module Locks {
  import opened Schema
  import opened Statements

  datatype Mode = KeyShare | Share | NoKeyUpdate | Update

  /** The conflict table: which requested mode waits for which held mode. */
  predicate Conflict(a: Mode, b: Mode) {
    match a
    case KeyShare => b.Update?
    case Share => b.NoKeyUpdate? || b.Update?
    case NoKeyUpdate => !b.KeyShare?
    case Update => true
  }

  lemma ConflictIsSymmetric(a: Mode, b: Mode)
    ensures Conflict(a, b) == Conflict(b, a)
  {}

  function Strength(m: Mode): nat {
    match m
    case KeyShare => 0
    case Share => 1
    case NoKeyUpdate => 2
    case Update => 3
  }

  /** The table in one line: two modes conflict when together they are strong enough. */
  lemma ConflictIsByStrength(a: Mode, b: Mode)
    ensures Conflict(a, b) <==> Strength(a) + Strength(b) >= 3
  {}

  /** An account row, or an entry of the unique index on (owner, currency). */
  datatype Resource = RowOf(account: int) | OwnerCurrency(owner: string, currency: string)

  datatype Lock = Lock(on: Resource, mode: Mode)

  predicate Clash(a: Lock, b: Lock) {
    a.on == b.on && Conflict(a.mode, b.mode)
  }

  /** The locks a statement takes before it acts, given the rows it can see. */
  function Wanted(op: Op, seen: Tables): set<Lock> {
    match op
    case CheckKey(a) => {Lock(RowOf(a), KeyShare)}
    case PutTransfer(_, _, _, _) => {}
    case PutEntry(_, a, _, _, _) => {Lock(RowOf(a), KeyShare)}
    case AddBalance(a, _) => {Lock(RowOf(a), NoKeyUpdate)}
    case SetBalance(a, _) => {Lock(RowOf(a), NoKeyUpdate)}
    case RemoveAccount(a) =>
      {Lock(RowOf(a), Update)} +
      (if a in seen.accounts
       then {Lock(OwnerCurrency(seen.accounts[a].owner, seen.accounts[a].currency), Update)} else {})
    case PutAccount(_, owner, currency, _) => {Lock(OwnerCurrency(owner, currency), Update)}
  }

  /** The locks that protect what `op` read and wrote from the commits of others. */
  predicate Covered(op: Op, held: set<Lock>) {
    match op
    case CheckKey(a) => Lock(RowOf(a), KeyShare) in held
    case PutTransfer(_, from, to, _) => Lock(RowOf(from), KeyShare) in held && Lock(RowOf(to), KeyShare) in held
    case PutEntry(_, a, _, _, _) => Lock(RowOf(a), KeyShare) in held
    case AddBalance(a, _) => Lock(RowOf(a), NoKeyUpdate) in held
    case SetBalance(a, _) => Lock(RowOf(a), NoKeyUpdate) in held
    case RemoveAccount(a) => Lock(RowOf(a), Update) in held
    case PutAccount(_, owner, currency, _) => Lock(OwnerCurrency(owner, currency), Update) in held
  }

  predicate AllCovered(ops: seq<Op>, held: set<Lock>) {
    forall i :: 0 <= i < |ops| ==> Covered(ops[i], held)
  }

  predicate WriteLocked(held: set<Lock>, a: int) {
    Lock(RowOf(a), NoKeyUpdate) in held || Lock(RowOf(a), Update) in held
  }

  /**
   * Tables `w` agree with tables `v` on everything that the locks in `held` protect.
   * A key-share lock keeps the row, a write lock keeps its contents, and so on.
   */
  ghost predicate Agrees(v: Tables, w: Tables, held: set<Lock>) {
    && v.users == w.users
    && v.transfers.Keys <= w.transfers.Keys
    && (forall a :: Lock(RowOf(a), KeyShare) in held && a in v.accounts ==> a in w.accounts)
    && (forall a :: WriteLocked(held, a) ==> Lookup(v.accounts, a) == Lookup(w.accounts, a))
    && (forall a :: Lock(RowOf(a), Update) in held && Referenced(w, a) ==> Referenced(v, a))
    && (forall a, o, c :: Lock(OwnerCurrency(o, c), Update) in held && HasKey(w, a, o, c) ==> HasKey(v, a, o, c))
  }

  /** None of the ids that `ops` inserts is in the tables. */
  ghost predicate Unused(ops: seq<Op>, t: Tables) {
    forall i :: 0 <= i < |ops| ==>
      && (ops[i].PutTransfer? ==> ops[i].id !in t.transfers)
      && (ops[i].PutEntry? ==> ops[i].id !in t.entries)
      && (ops[i].PutAccount? ==> ops[i].id !in t.accounts)
  }

  /** One covered statement gives the same outcome on both tables, and keeps them in agreement. */
  lemma StatementIsShielded(op: Op, v: Tables, w: Tables, held: set<Lock>)
    requires Agrees(v, w, held) && Covered(op, held)
    requires Unused([op], w)
    requires Apply(op, v).Some?
    ensures Apply(op, w).Some?
    ensures Agrees(Apply(op, v).value, Apply(op, w).value, held)
    ensures Returning(op, Apply(op, v).value) == Returning(op, Apply(op, w).value)
    ensures Changes(op).Some? ==>
              Lookup(Apply(op, v).value.accounts, Changes(op).value) ==
              Lookup(Apply(op, w).value.accounts, Changes(op).value)
  {
    assert [op][0] == op;
    if Changes(op).Some? && !op.PutAccount? {
      assert WriteLocked(held, Changes(op).value);
      assert Lookup(v.accounts, Changes(op).value) == Lookup(w.accounts, Changes(op).value);
    }
    if op.PutAccount? {
      assert forall a :: HasKey(w, a, op.owner, op.currency) ==> HasKey(v, a, op.owner, op.currency);
    }
    var v', w' := Apply(op, v).value, Apply(op, w).value;
    forall a | Lock(RowOf(a), Update) in held && Referenced(w', a)
      ensures Referenced(v', a)
    {
      ReferencesAfter(op, v, v', a);
      ReferencesAfter(op, w, w', a);
    }
    forall a, o, c | Lock(OwnerCurrency(o, c), Update) in held && HasKey(w', a, o, c)
      ensures HasKey(v', a, o, c)
    {
      if Changes(op) != Some(a) {
        assert HasKey(w, a, o, c);
        assert HasKey(v, a, o, c);
      }
    }
  }

  /** A statement adds references to the accounts it names and removes none. */
  lemma ReferencesAfter(op: Op, t: Tables, after: Tables, a: int)
    requires Apply(op, t) == Some(after)
    ensures Referenced(after, a) <==>
            || Referenced(t, a)
            || (op.PutTransfer? && (op.from == a || op.to == a))
            || (op.PutEntry? && op.account == a)
  {
    if op.PutTransfer? {
      assert after.transfers[op.id] == Transfer(op.from, op.to, op.amount);
      assert forall i :: i in t.transfers ==> after.transfers[i] == t.transfers[i];
    } else if op.PutEntry? {
      assert after.entries[op.id] == Entry(op.account, op.amount, op.transfer, op.createdAt);
      assert forall i :: i in t.entries ==> after.entries[i] == t.entries[i];
    }
  }

  lemma ApplyElsewhere(op: Op, t: Tables, a: int)
    requires Apply(op, t).Some? && Changes(op) != Some(a)
    ensures Lookup(Apply(op, t).value.accounts, a) == Lookup(t.accounts, a)
  {}

  /** The id a statement inserts is unused where it ran; it is unused on agreeing tables that lacked it at first. */
  lemma StaysUnused(front: seq<Op>, op: Op, t: Tables, u: Tables)
    requires Exec(front + [op], t).Finished? && Exec(front, t).Finished? && Exec(front, u).Finished?
    requires Unused(front + [op], u)
    requires forall a :: a in Changed(front) ==>
               Lookup(Exec(front, t).tables.accounts, a) == Lookup(Exec(front, u).tables.accounts, a)
    ensures Unused([op], Exec(front, u).tables)
  {
    var ops := front + [op];
    assert ops[|ops| - 1] == op;
    ExecSnoc(front, op, t);
    ExecFootprint(front, t);
    ExecFootprint(front, u);
    var v, w := Exec(front, t).tables, Exec(front, u).tables;
    if op.PutAccount? {
      assert Lookup(v.accounts, op.id).None? && Lookup(u.accounts, op.id).None?;
      assert Lookup(w.accounts, op.id).None?;
    }
  }

  /**
   * Statements whose footprint is locked run the same on any tables that agree under the locks:
   * they succeed again, return the same rows and leave the same contents in the rows they changed.
   */
  lemma {:induction false} RunIsShielded(ops: seq<Op>, t: Tables, u: Tables, held: set<Lock>)
    requires Exec(ops, t).Finished?
    requires AllCovered(ops, held) && Agrees(t, u, held) && Unused(ops, u)
    ensures Exec(ops, u).Finished?
    ensures Exec(ops, u).rows == Exec(ops, t).rows
    ensures Agrees(Exec(ops, t).tables, Exec(ops, u).tables, held)
    ensures forall a :: a in Changed(ops) ==>
              Lookup(Exec(ops, t).tables.accounts, a) == Lookup(Exec(ops, u).tables.accounts, a)
  {
    if ops != [] {
      var front, op := ops[..|ops| - 1], ops[|ops| - 1];
      assert ops == front + [op];
      ExecPrefix(ops, |front|, t);
      RunIsShielded(front, t, u, held);
      StaysUnused(front, op, t, u);
      LastIsShielded(front, op, t, u, held);
    }
  }

  lemma LastIsShielded(front: seq<Op>, op: Op, t: Tables, u: Tables, held: set<Lock>)
    requires Exec(front + [op], t).Finished? && Exec(front, t).Finished? && Exec(front, u).Finished?
    requires Covered(op, held) && Unused([op], Exec(front, u).tables)
    requires Exec(front, u).rows == Exec(front, t).rows
    requires Agrees(Exec(front, t).tables, Exec(front, u).tables, held)
    requires forall a :: a in Changed(front) ==>
               Lookup(Exec(front, t).tables.accounts, a) == Lookup(Exec(front, u).tables.accounts, a)
    ensures Exec(front + [op], u).Finished?
    ensures Exec(front + [op], u).rows == Exec(front + [op], t).rows
    ensures Agrees(Exec(front + [op], t).tables, Exec(front + [op], u).tables, held)
    ensures forall a :: a in Changed(front + [op]) ==>
              Lookup(Exec(front + [op], t).tables.accounts, a) == Lookup(Exec(front + [op], u).tables.accounts, a)
  {
    ExecSnoc(front, op, t);
    ExecSnoc(front, op, u);
    FootprintSnoc(front, op);
    var v, w := Exec(front, t).tables, Exec(front, u).tables;
    StatementIsShielded(op, v, w, held);
    forall a | a in Changed(front) && Changes(op) != Some(a)
      ensures Lookup(Apply(op, v).value.accounts, a) == Lookup(Apply(op, w).value.accounts, a)
    {
      ApplyElsewhere(op, v, a);
      ApplyElsewhere(op, w, a);
    }
  }
}
