/** Who waits for whom, told by the statements that have run, without a word about locks. */
module Waiting {
  import opened Schema
  import opened Statements
  import opened Locks
  import opened Requests
  import opened Engine
  import opened Isolation
  import opened Commits

  /** A statement that needs account `a` to stay, but not its balance. */
  predicate Guards(op: Op, a: int) {
    match op
    case CheckKey(b) => a == b
    case PutEntry(_, b, _, _, _) => a == b
    case _ => false
  }

  predicate WritesBalance(op: Op, a: int) {
    match op
    case AddBalance(b, _) => a == b
    case SetBalance(b, _) => a == b
    case _ => false
  }

  /** Two writes of one balance get in each other's way, and a delete gets in the way of everything. */
  predicate RowConflict(x: Op, y: Op, a: int) {
    || (WritesBalance(x, a) && WritesBalance(y, a))
    || (x == RemoveAccount(a) && (Guards(y, a) || WritesBalance(y, a) || y == RemoveAccount(a)))
    || (y == RemoveAccount(a) && (Guards(x, a) || WritesBalance(x, a) || x == RemoveAccount(a)))
  }

  /** `op` inserts an account with this key, or deletes the account that had it among `accounts`. */
  predicate FillsKey(op: Op, accounts: map<int, Account>, owner: string, currency: string) {
    || (op.PutAccount? && op.owner == owner && op.currency == currency)
    || (op.RemoveAccount? && op.account in accounts
        && accounts[op.account].owner == owner && accounts[op.account].currency == currency)
  }

  /** `u` has inserted or deleted an account with this key and not ended. */
  ghost predicate HasFilledKey(z: State, u: int, owner: string, currency: string) {
    u in z.active &&
    exists j :: 0 <= j < |z.active[u].done|
                && FillsKey(z.active[u].done[j], CommittedTables(z).accounts, owner, currency)
  }

  ghost predicate RowMet(op: Op, done: seq<Op>, a: int) {
    exists j :: 0 <= j < |done| && RowConflict(op, done[j], a)
  }

  ghost predicate RowInTheWay(z: State, op: Op, u: int, a: int) {
    u in z.active && RowMet(op, z.active[u].done, a)
  }

  /** Something `u` has done is in the way of the next statement of `t`. */
  ghost predicate InTheWay(z: State, t: int, u: int) {
    && t in z.active && u in z.active && t != u && z.active[t].checks == 0 && z.active[t].todo != []
    && var op := z.active[t].todo[0];
       || (exists a :: RowInTheWay(z, op, u, a))
       || (exists o, c :: FillsKey(op, Visible(z, t).accounts, o, c) && HasFilledKey(z, u, o, c))
  }

  // ---------- Every lock comes from a statement ----------

  function RowMode(op: Op, a: int): Option<Mode> {
    if Guards(op, a) then Some(KeyShare)
    else if WritesBalance(op, a) then Some(NoKeyUpdate)
    else if op == RemoveAccount(a) then Some(Update)
    else None
  }

  ghost predicate RowHeld(done: seq<Op>, a: int, m: Mode) {
    exists j :: 0 <= j < |done| && RowMode(done[j], a) == Some(m)
  }

  /** Before-images of the accounts that have one. */
  function Images(undo: Undo): map<int, Account> {
    map a | a in undo.accounts && undo.accounts[a].Some? :: undo.accounts[a].value
  }

  ghost predicate KeyHeld(done: seq<Op>, undo: Undo, o: string, c: string) {
    exists j :: 0 <= j < |done| && FillsKey(done[j], Images(undo), o, c)
  }

  ghost predicate HeldExactly(tx: Tx) {
    && (forall a, m :: Lock(RowOf(a), m) in tx.held <==> RowHeld(tx.done, a, m))
    && (forall o, c, m :: Lock(OwnerCurrency(o, c), m) in tx.held <==>
                          m.Update? && KeyHeld(tx.done, tx.undo, o, c))
  }

  ghost predicate AllHeldExactly(z: State) {
    forall t :: t in z.active ==> HeldExactly(z.active[t])
  }

  lemma RowsWanted(op: Op, seen: Tables, a: int, m: Mode)
    ensures Lock(RowOf(a), m) in Wanted(op, seen) <==> RowMode(op, a) == Some(m)
  {}

  lemma KeysWanted(op: Op, seen: Tables, o: string, c: string, m: Mode)
    ensures Lock(OwnerCurrency(o, c), m) in Wanted(op, seen) <==> m.Update? && FillsKey(op, seen.accounts, o, c)
  {}

  lemma RowHeldSnoc(done: seq<Op>, op: Op, a: int, m: Mode)
    ensures RowHeld(done + [op], a, m) <==> RowHeld(done, a, m) || RowMode(op, a) == Some(m)
  {
    var all := done + [op];
    assert all[|done|] == op;
    assert forall j :: 0 <= j < |done| ==> all[j] == done[j];
    if j :| 0 <= j < |done| && RowMode(done[j], a) == Some(m) {
      assert RowMode(all[j], a) == Some(m);
    }
  }

  lemma KeyHeldSnoc(done: seq<Op>, op: Op, undo: Undo, undo': Undo, o: string, c: string)
    requires forall j :: 0 <= j < |done| ==> !done[j].RemoveAccount?
    ensures KeyHeld(done + [op], undo', o, c) <==> KeyHeld(done, undo, o, c) || FillsKey(op, Images(undo'), o, c)
  {
    var all := done + [op];
    assert all[|done|] == op;
    assert forall j :: 0 <= j < |done| ==> all[j] == done[j];
    if j :| 0 <= j < |done| && FillsKey(done[j], Images(undo), o, c) {
      assert FillsKey(all[j], Images(undo'), o, c);
    }
    if j :| 0 <= j < |all| && FillsKey(all[j], Images(undo'), o, c) && j < |done| {
      assert FillsKey(done[j], Images(undo), o, c);
    }
  }

  /** A delete is the only statement of its transaction. */
  lemma DeletesStandAlone(tx: Tx, i: nat)
    requires Shaped(tx) && i < |tx.done + tx.todo| && (tx.done + tx.todo)[i].RemoveAccount?
    ensures |tx.done + tx.todo| == 1 && tx.req.DeleteAccount?
  {}

  lemma NoDeleteBefore(tx: Tx)
    requires Shaped(tx) && tx.todo != []
    ensures forall j :: 0 <= j < |tx.done| ==> !tx.done[j].RemoveAccount?
  {
    forall j | 0 <= j < |tx.done| ensures !tx.done[j].RemoveAccount? {
      assert (tx.done + tx.todo)[j] == tx.done[j];
      if tx.done[j].RemoveAccount? {
        DeletesStandAlone(tx, j);
      }
    }
  }

  lemma StepHoldsRow(tx: Tx, seen: Tables, after: Tables, a: int, m: Mode)
    requires HeldExactly(tx) && tx.todo != []
    ensures Lock(RowOf(a), m) in Advanced(tx, seen, after).held
            <==> RowHeld(Advanced(tx, seen, after).done, a, m)
  {
    RowHeldSnoc(tx.done, tx.todo[0], a, m);
    RowsWanted(tx.todo[0], seen, a, m);
  }

  lemma StepHoldsKey(tx: Tx, seen: Tables, after: Tables, o: string, c: string, m: Mode)
    requires Shaped(tx) && HeldExactly(tx) && tx.todo != [] && Apply(tx.todo[0], seen) == Some(after)
    requires tx.undo.accounts.Keys == Changed(tx.done)
    ensures Lock(OwnerCurrency(o, c), m) in Advanced(tx, seen, after).held
            <==> m.Update? && KeyHeld(Advanced(tx, seen, after).done, Advanced(tx, seen, after).undo, o, c)
  {
    var op, w := tx.todo[0], Advanced(tx, seen, after);
    NoDeleteBefore(tx);
    KeyHeldSnoc(tx.done, op, tx.undo, w.undo, o, c);
    KeysWanted(op, seen, o, c, m);
    ImageOfDelete(tx, seen, after, o, c);
    assert Lock(OwnerCurrency(o, c), m) in tx.held <==> m.Update? && KeyHeld(tx.done, tx.undo, o, c);
  }

  lemma StepHolds(tx: Tx, seen: Tables, after: Tables)
    requires Shaped(tx) && HeldExactly(tx) && tx.todo != [] && Apply(tx.todo[0], seen) == Some(after)
    requires tx.undo.accounts.Keys == Changed(tx.done)
    ensures HeldExactly(Advanced(tx, seen, after))
  {
    var w := Advanced(tx, seen, after);
    forall a, m ensures Lock(RowOf(a), m) in w.held <==> RowHeld(w.done, a, m) {
      StepHoldsRow(tx, seen, after, a, m);
    }
    forall o, c, m
      ensures Lock(OwnerCurrency(o, c), m) in w.held <==> m.Update? && KeyHeld(w.done, w.undo, o, c)
    {
      StepHoldsKey(tx, seen, after, o, c, m);
    }
  }

  /** The before-image of a deleted account is the row as the delete saw it. */
  lemma ImageOfDelete(tx: Tx, seen: Tables, after: Tables, o: string, c: string)
    requires Shaped(tx) && tx.todo != [] && Apply(tx.todo[0], seen) == Some(after)
    requires tx.undo.accounts.Keys == Changed(tx.done)
    ensures FillsKey(tx.todo[0], Images(Logged(tx.undo, tx.todo[0], seen)), o, c)
            <==> FillsKey(tx.todo[0], seen.accounts, o, c)
  {
    if tx.todo[0].RemoveAccount? {
      assert (tx.done + tx.todo)[|tx.done|] == tx.todo[0];
      DeletesStandAlone(tx, |tx.done|);
      assert tx.done == [];
    }
  }

  lemma FreshHolds(req: Request, ids: Ids)
    requires Acceptable(req)
    ensures HeldExactly(Fresh(req, ids))
  {}

  /** Running a statement moves one transaction or ends it. */
  lemma RunChangesOne(z: State, t: int)
    requires t in z.active && z.active[t].todo != []
    ensures var tx, seen, w := z.active[t], Visible(z, t), Execute(z, t);
            || w.active == z.active - {t}
            || (Apply(tx.todo[0], seen).Some?
                && w.active == z.active[t := Advanced(tx, seen, Apply(tx.todo[0], seen).value)])
  {}

  /** Looking moves one transaction, its statements and locks apart, or ends it. */
  lemma LookChangesOne(z: State, t: int)
    requires Enabled(z, Look(t))
    ensures var w := Check(z, t);
            || w.active == z.active - {t}
            || (t in w.active && w.active == z.active[t := w.active[t]]
                && w.active[t].done == z.active[t].done && w.active[t].held == z.active[t].held
                && w.active[t].undo == z.active[t].undo)
  {}

  lemma OthersStillHold(z: State, w: State, t: int)
    requires AllHeldExactly(z) && (t in w.active ==> HeldExactly(w.active[t]))
    requires w.active == z.active - {t} || (t in w.active && w.active == z.active[t := w.active[t]])
    ensures AllHeldExactly(w)
  {}

  lemma SameHolds(x: Tx, y: Tx)
    requires HeldExactly(x) && y.done == x.done && y.held == x.held && y.undo == x.undo
    ensures HeldExactly(y)
  {}

  lemma LookHolds(z: State, t: int)
    requires AllHeldExactly(z) && Enabled(z, Look(t))
    ensures AllHeldExactly(Check(z, t))
  {
    var w := Check(z, t);
    LookChangesOne(z, t);
    if t in w.active {
      SameHolds(z.active[t], w.active[t]);
    }
    OthersStillHold(z, w, t);
  }

  lemma RunHolds(z: State, t: int)
    requires Invariant(z) && AllHeldExactly(z) && Enabled(z, Run(t))
    ensures AllHeldExactly(Execute(z, t))
  {
    var tx, seen := z.active[t], Visible(z, t);
    assert Shaped(tx) && TxSound(z, tx);
    if Apply(tx.todo[0], seen).Some? {
      StepHolds(tx, seen, Apply(tx.todo[0], seen).value);
    }
    RunChangesOne(z, t);
    OthersStillHold(z, Execute(z, t), t);
  }

  lemma StartHolds(z: State, t: int, req: Request, ids: Ids)
    requires AllHeldExactly(z) && Acceptable(req)
    ensures AllHeldExactly(Start(z, t, req, ids))
  {
    FreshHolds(req, ids);
    OthersStillHold(z, Start(z, t, req, ids), t);
  }

  lemma EventHolds(z: State, e: Event)
    requires Invariant(z) && AllHeldExactly(z) && Enabled(z, e)
    ensures AllHeldExactly(After(z, e))
  {
    match e
    case Arrive(t, req, ids) => StartHolds(z, t, req, ids);
    case Look(t) => LookHolds(z, t);
    case Run(t) => RunHolds(z, t);
    case Finish(t) => OthersStillHold(z, Commit(z, t), t);
    case Cancel(t) => OthersStillHold(z, RollBack(z, t), t);
  }

  lemma {:induction false} RunsHoldExactly(s: State, run: seq<Event>)
    requires Initial(s) && Legal(s, run)
    ensures AllHeldExactly(Final(s, run))
  {
    if run != [] {
      RunsHoldExactly(s, run[..|run| - 1]);
      RunsKeep(s, run[..|run| - 1]);
      EventHolds(Final(s, run[..|run| - 1]), run[|run| - 1]);
    }
  }

  // ---------- Who waits for whom ----------

  predicate ClashBy(on: Resource, wanted: set<Lock>, held: set<Lock>, l: Mode, m: Mode) {
    Lock(on, l) in wanted && Lock(on, m) in held && Conflict(l, m)
  }

  ghost predicate ClashOn(on: Resource, wanted: set<Lock>, held: set<Lock>) {
    exists l, m :: ClashBy(on, wanted, held, l, m)
  }

  /** Lock modes clash exactly when the statements behind them conflict. */
  lemma ModesConflict(x: Op, y: Op, a: int)
    ensures RowConflict(x, y, a) <==>
            RowMode(x, a).Some? && RowMode(y, a).Some? && Conflict(RowMode(x, a).value, RowMode(y, a).value)
  {}

  lemma RowClash(op: Op, seen: Tables, tx: Tx, a: int)
    requires HeldExactly(tx)
    ensures ClashOn(RowOf(a), Wanted(op, seen), tx.held) <==> RowMet(op, tx.done, a)
  {
    if l, m :| ClashBy(RowOf(a), Wanted(op, seen), tx.held, l, m) {
      RowsWanted(op, seen, a, l);
      assert RowHeld(tx.done, a, m);
      var j :| 0 <= j < |tx.done| && RowMode(tx.done[j], a) == Some(m);
      ModesConflict(op, tx.done[j], a);
    }
    if j :| 0 <= j < |tx.done| && RowConflict(op, tx.done[j], a) {
      ModesConflict(op, tx.done[j], a);
      var l, m := RowMode(op, a).value, RowMode(tx.done[j], a).value;
      RowsWanted(op, seen, a, l);
      assert RowHeld(tx.done, a, m);
      assert ClashBy(RowOf(a), Wanted(op, seen), tx.held, l, m);
    }
  }

  lemma KeyClash(op: Op, seen: Tables, tx: Tx, o: string, c: string)
    requires HeldExactly(tx)
    ensures ClashOn(OwnerCurrency(o, c), Wanted(op, seen), tx.held)
            <==> FillsKey(op, seen.accounts, o, c) && KeyHeld(tx.done, tx.undo, o, c)
  {
    var on := OwnerCurrency(o, c);
    forall l, m
      ensures ClashBy(on, Wanted(op, seen), tx.held, l, m)
              <==> l.Update? && m.Update? && FillsKey(op, seen.accounts, o, c) && KeyHeld(tx.done, tx.undo, o, c)
    {
      KeysWanted(op, seen, o, c, l);
      assert Lock(on, m) in tx.held <==> m.Update? && KeyHeld(tx.done, tx.undo, o, c);
    }
    assert ClashBy(on, Wanted(op, seen), tx.held, Update, Update)
      <==> FillsKey(op, seen.accounts, o, c) && KeyHeld(tx.done, tx.undo, o, c);
  }

  /** A delete is recorded under the key that the committed row has. */
  lemma KeyIsCommitted(z: State, u: int, o: string, c: string)
    requires Invariant(z) && u in z.active
    ensures KeyHeld(z.active[u].done, z.active[u].undo, o, c) <==> HasFilledKey(z, u, o, c)
  {
    var tx, images := z.active[u], Images(z.active[u].undo);
    assert TxSound(z, tx);
    forall j | 0 <= j < |tx.done|
      ensures FillsKey(tx.done[j], images, o, c) <==> FillsKey(tx.done[j], CommittedTables(z).accounts, o, c)
    {
      if tx.done[j].RemoveAccount? {
        ChangesAreChanged(tx.done, j);
      }
    }
  }

  lemma {:induction false} ChangesAreChanged(ops: seq<Op>, j: nat)
    requires j < |ops| && Changes(ops[j]).Some?
    ensures Changes(ops[j]).value in Changed(ops)
  {
    if j < |ops| - 1 {
      ChangesAreChanged(ops[..|ops| - 1], j);
    }
  }

  /**
   * In every reachable state a transaction waits for another exactly when something that one has done is in the
   * way of its next statement: it wrote the same balance, one of the two deletes an account that the other needs,
   * or both insert or delete an account with one owner and currency.
   */
  lemma WaitsExactly(s: State, run: seq<Event>, t: int, u: int)
    requires Initial(s) && Legal(s, run)
    ensures WaitsFor(Final(s, run), t, u) <==> InTheWay(Final(s, run), t, u)
  {
    var z := Final(s, run);
    RunsKeep(s, run);
    RunsHoldExactly(s, run);
    if t in z.active && u in z.active && t != u && z.active[t].checks == 0 && z.active[t].todo != [] {
      assert HeldExactly(z.active[u]);
      WaitsByResource(z, t, u);
    }
  }

  lemma ClashesAreOn(wanted: set<Lock>, held: set<Lock>)
    ensures (exists l, m :: l in wanted && m in held && Clash(l, m)) <==> exists on :: ClashOn(on, wanted, held)
  {
    if l, m :| l in wanted && m in held && Clash(l, m) {
      assert ClashBy(l.on, wanted, held, l.mode, m.mode);
      assert ClashOn(l.on, wanted, held);
    }
    if on :| ClashOn(on, wanted, held) {
      var l, m :| ClashBy(on, wanted, held, l, m);
      assert Clash(Lock(on, l), Lock(on, m));
    }
  }

  lemma WaitsByResource(z: State, t: int, u: int)
    requires Invariant(z) && t in z.active && u in z.active && t != u && HeldExactly(z.active[u])
    requires z.active[t].checks == 0 && z.active[t].todo != []
    ensures WaitsFor(z, t, u) <==> InTheWay(z, t, u)
  {
    var op, seen, tx := z.active[t].todo[0], Visible(z, t), z.active[u];
    var wanted := Wanted(op, seen);
    ClashesAreOn(wanted, tx.held);
    forall a ensures RowInTheWay(z, op, u, a) <==> ClashOn(RowOf(a), wanted, tx.held) {
      RowClash(op, seen, tx, a);
    }
    forall o, c
      ensures FillsKey(op, seen.accounts, o, c) && HasFilledKey(z, u, o, c)
              <==> ClashOn(OwnerCurrency(o, c), wanted, tx.held)
    {
      KeyIsCommitted(z, u, o, c);
      KeyClash(op, seen, tx, o, c);
    }
    if on :| ClashOn(on, wanted, tx.held) {
      match on
      case RowOf(a) => assert RowInTheWay(z, op, u, a);
      case OwnerCurrency(o, c) => assert HasFilledKey(z, u, o, c);
    }
  }

  /** A delete that has run is all that its transaction does. */
  lemma DeleteIsDone(tx: Tx, a: int, j: nat)
    requires Shaped(tx) && j < |tx.done| && tx.done[j] == RemoveAccount(a)
    ensures tx.req == DeleteAccount(a) && tx.todo == []
  {
    assert (tx.done + tx.todo)[j] == tx.done[j];
    DeletesStandAlone(tx, j);
    assert Program(tx.req, tx.ids)[0] == RemoveAccount(tx.req.account);
  }

  /**
   * The inserts of a transfer never wait for another transfer, whatever accounts the two have in common:
   * only for a delete of an account they need that has run and not yet committed.
   */
  lemma InsertsWaitForDeletesAlone(s: State, run: seq<Event>, t: int, u: int)
    requires Initial(s) && Legal(s, run) && WaitsFor(Final(s, run), t, u)
    requires var op := Final(s, run).active[t].todo[0]; op.CheckKey? || op.PutTransfer? || op.PutEntry?
    ensures Final(s, run).active[u].todo == []
    ensures exists a :: Final(s, run).active[u].req == DeleteAccount(a) && Guards(Final(s, run).active[t].todo[0], a)
  {
    var z := Final(s, run);
    RunsKeep(s, run);
    WaitsExactly(s, run, t, u);
    InTheWayOfInserts(z, t, u);
  }

  lemma InTheWayOfInserts(z: State, t: int, u: int)
    requires AllShaped(z) && InTheWay(z, t, u)
    requires var op := z.active[t].todo[0]; op.CheckKey? || op.PutTransfer? || op.PutEntry?
    ensures z.active[u].todo == []
    ensures exists a :: z.active[u].req == DeleteAccount(a) && Guards(z.active[t].todo[0], a)
  {
    var op, tx := z.active[t].todo[0], z.active[u];
    var a :| RowInTheWay(z, op, u, a);
    var j :| 0 <= j < |tx.done| && RowConflict(op, tx.done[j], a);
    DeleteIsDone(tx, a, j);
    assert Guards(op, a);
  }
}
