/**
 * Any number of requests running at once against one database.
 *
 * Rows are changed in place under row locks; each transaction keeps an undo record.
 * A statement sees committed rows and its own (Read Committed, section 13.2.1 of the
 * PostgreSQL 16 documentation): for a row that another transaction has changed, the version before that change.
 */
module Engine {
  import opened Schema
  import opened Statements
  import opened Locks
  import opened Requests

  /** Before-images of the account rows a transaction changed, and the ids of the rows it inserted. */
  datatype Undo = Undo(accounts: map<int, Option<Account>>, transfers: set<int>, entries: set<int>)

  /** What a `Pay` read about an account before its transaction began, and how many commits preceded the read. */
  datatype Reading = Reading(account: Account, at: nat)

  /** A request in progress: checks still to make, statements still to run and already run. */
  datatype Tx = Tx(
    req: Request, ids: Ids,
    checks: nat, source: Option<Reading>, payee: Option<Reading>,
    todo: seq<Op>, done: seq<Op>, rows: seq<Row>,
    held: set<Lock>, undo: Undo)

  /** The commit record of a request. */
  datatype Record = Record(
    tx: int, req: Request, ids: Ids, ops: seq<Op>, rows: seq<Row>,
    source: Option<Reading>, payee: Option<Reading>)

  datatype Outcome = Committed | RolledBack

  datatype State = State(
    base: Tables,
    tables: Tables,
    active: map<int, Tx>,
    ended: map<int, Outcome>,
    taken: set<RowId>,
    log: seq<Record>)

  // ---------- Visibility ----------

  ghost predicate Wrote(s: State, u: int, a: int) {
    u in s.active && a in s.active[u].undo.accounts
  }

  ghost predicate WroteElsewhere(s: State, t: int, u: int, a: int) {
    u != t && Wrote(s, u, a)
  }

  /** The version of account row `a` that a statement of `t` sees. */
  ghost function Version(s: State, t: int, a: int): Option<Account> {
    if exists u :: WroteElsewhere(s, t, u, a)
    then var u :| WroteElsewhere(s, t, u, a); s.active[u].undo.accounts[a]
    else Lookup(s.tables.accounts, a)
  }

  ghost predicate HiddenTransfer(s: State, t: int, i: int) {
    exists u :: u != t && u in s.active && i in s.active[u].undo.transfers
  }

  ghost predicate HiddenEntry(s: State, t: int, i: int) {
    exists u :: u != t && u in s.active && i in s.active[u].undo.entries
  }

  function RowsTouched(s: State): set<int> {
    s.tables.accounts.Keys + (set u, a | u in s.active && a in s.active[u].undo.accounts :: a)
  }

  /** All that a statement of `t` sees. */
  ghost function Visible(s: State, t: int): Tables {
    Tables(
      s.tables.users,
      map a | a in RowsTouched(s) && Version(s, t, a).Some? :: Version(s, t, a).value,
      map i | i in s.tables.transfers && !HiddenTransfer(s, t, i) :: s.tables.transfers[i],
      map i | i in s.tables.entries && !HiddenEntry(s, t, i) :: s.tables.entries[i])
  }

  // ---------- Steps ----------

  /** `t` waits for `u`: its next statement wants a lock that clashes with one `u` holds. */
  ghost predicate WaitsFor(s: State, t: int, u: int) {
    && t in s.active && u in s.active && t != u
    && s.active[t].checks == 0 && s.active[t].todo != []
    && exists l, m :: l in Wanted(s.active[t].todo[0], Visible(s, t)) && m in s.active[u].held && Clash(l, m)
  }

  ghost predicate Blocked(s: State, t: int) {
    exists u :: WaitsFor(s, t, u)
  }

  function Fresh(req: Request, ids: Ids): Tx
    requires Acceptable(req)
  {
    Tx(req, ids, if req.Pay? then 2 else 0, None, None, Program(req, ids), [], [], {}, Undo(map[], {}, {}))
  }

  function Start(s: State, t: int, req: Request, ids: Ids): State
    requires Acceptable(req)
  {
    s.(active := s.active[t := Fresh(req, ids)], taken := s.taken + Creating(Program(req, ids)))
  }

  function End(s: State, t: int, outcome: Outcome): State {
    s.(active := s.active - {t}, ended := s.ended[t := outcome])
  }

  function Restored(accounts: map<int, Account>, images: map<int, Option<Account>>): map<int, Account> {
    map a | a in accounts.Keys + images.Keys && (if a in images then images[a].Some? else a in accounts)
      :: if a in images then images[a].value else accounts[a]
  }

  /** Undoes everything `t` did in place and releases its locks. */
  function RollBack(s: State, t: int): State
    requires t in s.active
  {
    var undo := s.active[t].undo;
    End(s.(tables := Tables(
             s.tables.users,
             Restored(s.tables.accounts, undo.accounts),
             s.tables.transfers - undo.transfers,
             s.tables.entries - undo.entries)), t, RolledBack)
  }

  function CommitRecord(s: State, t: int): Record
    requires t in s.active
  {
    var tx := s.active[t];
    Record(t, tx.req, tx.ids, tx.done, tx.rows, tx.source, tx.payee)
  }

  /** Keeps what `t` wrote and releases its locks. */
  function Commit(s: State, t: int): State
    requires t in s.active
  {
    End(s.(log := s.log + [CommitRecord(s, t)]), t, Committed)
  }

  /** Account lookups of the `CreateTransfer` handler, made before its transaction begins. */
  ghost function Check(s: State, t: int): State
    requires t in s.active && s.active[t].checks > 0 && s.active[t].req.Pay?
  {
    var tx := s.active[t];
    var req := tx.req;
    if tx.checks != 1 then
      match Version(s, t, req.from)
      case None => RollBack(s, t)
      case Some(account) =>
        if account.currency != req.currency || account.owner != req.user then RollBack(s, t)
        else s.(active := s.active[t := tx.(checks := 1, source := Some(Reading(account, |s.log|)))])
    else
      match Version(s, t, req.to)
      case None => RollBack(s, t)
      case Some(account) =>
        if account.currency != req.currency then RollBack(s, t)
        else if tx.source.None? || tx.source.value.account.balance < req.amount then RollBack(s, t)
        else s.(active := s.active[t := tx.(checks := 0, payee := Some(Reading(account, |s.log|)))])
  }

  /** The row the statement changed or inserted, copied into the shared tables. */
  function InPlace(op: Op, after: Tables, tables: Tables): Tables {
    match op
    case CheckKey(_) => tables
    case PutTransfer(i, _, _, _) =>
      if i in after.transfers then tables.(transfers := tables.transfers[i := after.transfers[i]]) else tables
    case PutEntry(i, _, _, _, _) =>
      if i in after.entries then tables.(entries := tables.entries[i := after.entries[i]]) else tables
    case RemoveAccount(a) => tables.(accounts := tables.accounts - {a})
    case _ =>
      var a := Changes(op).value;
      if a in after.accounts then tables.(accounts := tables.accounts[a := after.accounts[a]]) else tables
  }

  function Logged(undo: Undo, op: Op, seen: Tables): Undo {
    match op
    case CheckKey(_) => undo
    case PutTransfer(i, _, _, _) => undo.(transfers := undo.transfers + {i})
    case PutEntry(i, _, _, _, _) => undo.(entries := undo.entries + {i})
    case _ =>
      var a := Changes(op).value;
      if a in undo.accounts then undo else undo.(accounts := undo.accounts[a := Lookup(seen.accounts, a)])
  }

  /** `tx` after its next statement turned the tables it saw into `after`. */
  function Advanced(tx: Tx, seen: Tables, after: Tables): Tx
    requires tx.todo != []
  {
    var op := tx.todo[0];
    tx.(todo := tx.todo[1..], done := tx.done + [op], rows := tx.rows + [Returning(op, after)],
        held := tx.held + Wanted(op, seen), undo := Logged(tx.undo, op, seen))
  }

  /**
   * Runs the next statement of `t`. A failing statement rolls the transaction back.
   * A DELETE that matches no row succeeds, writes nothing and so leaves no commit record.
   */
  ghost function Execute(s: State, t: int): State
    requires t in s.active && s.active[t].todo != []
  {
    var tx, seen := s.active[t], Visible(s, t);
    var op := tx.todo[0];
    if op.RemoveAccount? && op.account !in seen.accounts then End(s, t, Committed)
    else match Apply(op, seen)
      case None => RollBack(s, t)
      case Some(after) =>
        s.(tables := InPlace(op, after, s.tables), active := s.active[t := Advanced(tx, seen, after)])
  }

  // ---------- Runs ----------

  datatype Event =
    | Arrive(t: int, req: Request, ids: Ids)
    | Look(t: int)
    | Run(t: int)
    | Finish(t: int)
    /** The client goes away, the connection breaks, or the server cancels the request. */
    | Cancel(t: int)

  ghost predicate Enabled(s: State, e: Event) {
    match e
    case Arrive(t, req, ids) =>
      && t !in s.active && t !in s.ended && Acceptable(req)
      && Creating(Program(req, ids)) !! s.taken
    case Look(t) => t in s.active && s.active[t].checks > 0 && s.active[t].req.Pay?
    case Run(t) => t in s.active && s.active[t].checks == 0 && s.active[t].todo != [] && !Blocked(s, t)
    case Finish(t) => t in s.active && s.active[t].checks == 0 && s.active[t].todo == []
    case Cancel(t) => t in s.active
  }

  ghost function After(s: State, e: Event): State
    requires Enabled(s, e)
  {
    match e
    case Arrive(t, req, ids) => Start(s, t, req, ids)
    case Look(t) => Check(s, t)
    case Run(t) => Execute(s, t)
    case Finish(t) => Commit(s, t)
    case Cancel(t) => RollBack(s, t)
  }

  ghost predicate Legal(s: State, run: seq<Event>)
    decreases |run|, 0
  {
    run == [] || (Legal(s, run[..|run| - 1]) && Enabled(Final(s, run[..|run| - 1]), run[|run| - 1]))
  }

  ghost function Final(s: State, run: seq<Event>): State
    requires Legal(s, run)
    decreases |run|, 1
  {
    if run == [] then s else After(Final(s, run[..|run| - 1]), run[|run| - 1])
  }

  /** The tables after running the committed requests one at a time. */
  function Replay(base: Tables, log: seq<Record>): Tables {
    if log == [] then base
    else
      var before := Replay(base, log[..|log| - 1]);
      var run := Exec(log[|log| - 1].ops, before);
      if run.Finished? then run.tables else before
  }

  function CommittedTables(s: State): Tables {
    Replay(s.base, s.log)
  }

  /** Nothing is running yet; all ids present have been drawn from the sequences. */
  ghost predicate Initial(s: State) {
    && s.tables == s.base && s.active == map[] && s.ended == map[] && s.log == []
    && IdsIn(s.base) <= s.taken
  }
}
