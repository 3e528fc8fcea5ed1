/** What one statement does to the tables it can see, and what a list of statements does in a row. */
module Statements {
  import opened Schema

  /** One database action, with the ids its inserts were given by the sequences. */
  datatype Op =
    | CheckKey(account: int)
    | PutTransfer(id: int, from: int, to: int, amount: int)
    | PutEntry(id: int, account: int, amount: int, transfer: Option<int>, createdAt: int)
    | AddBalance(account: int, delta: int)
    | SetBalance(account: int, balance: int)
    | RemoveAccount(account: int)
    | PutAccount(id: int, owner: string, currency: string, balance: int)

  /** The row a statement returns to its caller. */
  datatype Row =
    | NoRow
    | TransferRow(transferId: int, transfer: Transfer)
    | EntryRow(entryId: int, entry: Entry)
    | AccountRow(accountId: int, account: Account)

  /** The tables after `op`, or None when the statement ends in an error. */
  function Apply(op: Op, t: Tables): Option<Tables> {
    match op
    case CheckKey(a) =>
      if a in t.accounts then Some(t) else None
    case PutTransfer(id, from, to, amount) =>
      if id !in t.transfers && from in t.accounts && to in t.accounts
      then Some(t.(transfers := t.transfers[id := Transfer(from, to, amount)]))
      else None
    case PutEntry(id, a, amount, link, at) =>
      if id !in t.entries && a in t.accounts && (link.Some? ==> link.value in t.transfers)
      then Some(t.(entries := t.entries[id := Entry(a, amount, link, at)]))
      else None
    case AddBalance(a, delta) =>
      if a in t.accounts && InInt64(t.accounts[a].balance + delta)
      then Some(t.(accounts := t.accounts[a := t.accounts[a].(balance := t.accounts[a].balance + delta)]))
      else None
    case SetBalance(a, balance) =>
      if a in t.accounts
      then Some(t.(accounts := t.accounts[a := t.accounts[a].(balance := balance)]))
      else None
    case RemoveAccount(a) =>
      if a in t.accounts && !Referenced(t, a)
      then Some(t.(accounts := t.accounts - {a}))
      else None
    case PutAccount(id, owner, currency, balance) =>
      if id !in t.accounts && owner in t.users && !KeyTaken(t, owner, currency)
      then Some(t.(accounts := t.accounts[id := Account(owner, currency, balance)]))
      else None
  }

  /** The RETURNING row, read from the tables after the statement. */
  function Returning(op: Op, after: Tables): Row {
    match op
    case PutTransfer(id, _, _, _) => if id in after.transfers then TransferRow(id, after.transfers[id]) else NoRow
    case PutEntry(id, _, _, _, _) => if id in after.entries then EntryRow(id, after.entries[id]) else NoRow
    case AddBalance(a, _) => if a in after.accounts then AccountRow(a, after.accounts[a]) else NoRow
    case SetBalance(a, _) => if a in after.accounts then AccountRow(a, after.accounts[a]) else NoRow
    case PutAccount(a, _, _, _) => if a in after.accounts then AccountRow(a, after.accounts[a]) else NoRow
    case CheckKey(_) => NoRow
    case RemoveAccount(_) => NoRow
  }

  datatype Run = Failed | Finished(tables: Tables, rows: seq<Row>)

  /** A list of statements run one after the other with nothing in between. */
  function Exec(ops: seq<Op>, t: Tables): Run {
    if ops == [] then Finished(t, [])
    else
      var before := Exec(ops[..|ops| - 1], t);
      if before.Failed? then Failed
      else
        var op := ops[|ops| - 1];
        match Apply(op, before.tables)
        case None => Failed
        case Some(after) => Finished(after, before.rows + [Returning(op, after)])
  }

  lemma ExecSnoc(ops: seq<Op>, op: Op, t: Tables)
    ensures Exec(ops + [op], t) ==
            if Exec(ops, t).Failed? || Apply(op, Exec(ops, t).tables).None? then Failed
            else var after := Apply(op, Exec(ops, t).tables).value;
                 Finished(after, Exec(ops, t).rows + [Returning(op, after)])
  {
    assert (ops + [op])[..|ops + [op]| - 1] == ops;
  }

  lemma {:induction false} ExecPrefix(ops: seq<Op>, k: nat, t: Tables)
    requires k <= |ops| && Exec(ops, t).Finished?
    ensures Exec(ops[..k], t).Finished?
  {
    if k == |ops| {
      assert ops[..k] == ops;
    } else {
      ExecPrefix(ops[..|ops| - 1], k, t);
      assert ops[..|ops| - 1][..k] == ops[..k];
    }
  }

  // ---------- The footprint of a list of statements ----------

  /** The account row an action changes, if it changes one. */
  function Changes(op: Op): Option<int> {
    match op
    case AddBalance(a, _) => Some(a)
    case SetBalance(a, _) => Some(a)
    case RemoveAccount(a) => Some(a)
    case PutAccount(a, _, _, _) => Some(a)
    case _ => None
  }

  function Changed(ops: seq<Op>): set<int> {
    if ops == [] then {}
    else
      Changed(ops[..|ops| - 1])
      + (if Changes(ops[|ops| - 1]).Some? then {Changes(ops[|ops| - 1]).value} else {})
  }

  lemma {:induction false} ChangedBy(ops: seq<Op>, a: int)
    requires a in Changed(ops)
    ensures exists i :: 0 <= i < |ops| && Changes(ops[i]) == Some(a)
  {
    if Changes(ops[|ops| - 1]) != Some(a) {
      ChangedBy(ops[..|ops| - 1], a);
      var i :| 0 <= i < |ops| - 1 && Changes(ops[..|ops| - 1][i]) == Some(a);
      assert Changes(ops[i]) == Some(a);
    }
  }

  function NewTransfers(ops: seq<Op>): map<int, Transfer> {
    if ops == [] then map[]
    else
      var rest := NewTransfers(ops[..|ops| - 1]);
      var op := ops[|ops| - 1];
      if op.PutTransfer? then rest[op.id := Transfer(op.from, op.to, op.amount)] else rest
  }

  function NewEntries(ops: seq<Op>): map<int, Entry> {
    if ops == [] then map[]
    else
      var rest := NewEntries(ops[..|ops| - 1]);
      var op := ops[|ops| - 1];
      if op.PutEntry? then rest[op.id := Entry(op.account, op.amount, op.transfer, op.createdAt)] else rest
  }

  lemma FootprintSnoc(ops: seq<Op>, op: Op)
    ensures Changed(ops + [op]) == Changed(ops) + (if Changes(op).Some? then {Changes(op).value} else {})
    ensures NewTransfers(ops + [op]) ==
            if op.PutTransfer? then NewTransfers(ops)[op.id := Transfer(op.from, op.to, op.amount)]
            else NewTransfers(ops)
    ensures NewEntries(ops + [op]) ==
            if op.PutEntry? then NewEntries(ops)[op.id := Entry(op.account, op.amount, op.transfer, op.createdAt)]
            else NewEntries(ops)
  {
    assert (ops + [op])[..|ops + [op]| - 1] == ops;
  }

  lemma ApplyFootprint(op: Op, t: Tables)
    requires Apply(op, t).Some?
    ensures Apply(op, t).value.users == t.users
    ensures forall a :: Changes(op) != Some(a) ==> Lookup(Apply(op, t).value.accounts, a) == Lookup(t.accounts, a)
    ensures Apply(op, t).value.transfers ==
            if op.PutTransfer? then t.transfers[op.id := Transfer(op.from, op.to, op.amount)] else t.transfers
    ensures Apply(op, t).value.entries ==
            if op.PutEntry? then t.entries[op.id := Entry(op.account, op.amount, op.transfer, op.createdAt)]
            else t.entries
    ensures op.PutTransfer? ==> op.id !in t.transfers
    ensures op.PutEntry? ==> op.id !in t.entries
  {}

  /** A run changes the account rows of its footprint and appends its own transfers and entries: nothing else. */
  lemma {:induction false} ExecFootprint(ops: seq<Op>, t: Tables)
    requires Exec(ops, t).Finished?
    ensures Exec(ops, t).tables.users == t.users
    ensures forall a :: a !in Changed(ops) ==> Lookup(Exec(ops, t).tables.accounts, a) == Lookup(t.accounts, a)
    ensures Exec(ops, t).tables.transfers == t.transfers + NewTransfers(ops)
    ensures Exec(ops, t).tables.entries == t.entries + NewEntries(ops)
    ensures t.transfers.Keys !! NewTransfers(ops).Keys
    ensures t.entries.Keys !! NewEntries(ops).Keys
  {
    if ops != [] {
      var front, op := ops[..|ops| - 1], ops[|ops| - 1];
      assert ops == front + [op];
      ExecFootprint(front, t);
      ExecSnoc(front, op, t);
      FootprintSnoc(front, op);
      ApplyFootprint(op, Exec(front, t).tables);
    }
  }
}
