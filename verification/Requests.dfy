/** What clients may ask of the bank, and the statements each request issues. */
module Requests {
  import opened Schema
  import opened Statements

  /** Ids drawn from the sequences for one request: never drawn again, whether or not they end up in a row. */
  datatype Ids = Ids(transfer: int, fromEntry: int, toEntry: int, account: int)

  datatype Request =
    /** `TransferTx` called directly on the store. */
    | Move(from: int, to: int, amount: int, at: int, fromKeyFirst: bool)
    /** The `CreateTransfer` handler: reads and checks both accounts, then calls `TransferTx`. */
    | Pay(user: string, currency: string, from: int, to: int, amount: int, at: int, fromKeyFirst: bool)
    | SetAccount(account: int, balance: int)
    | DeleteAccount(account: int)
    | OpenAccount(owner: string, currency: string, balance: int)
    | RecordEntry(account: int, amount: int, at: int)

  predicate Supported(currency: string) {
    currency == "USD" || currency == "EUR" || currency == "EGP"
  }

  /** Arguments fit their Go types, and a `Pay` has passed the validation of its handler. */
  predicate Acceptable(req: Request) {
    match req
    case Move(_, _, amount, _, _) => InInt64(amount)
    case Pay(_, currency, from, to, amount, _, _) =>
      0 < from && 0 < to && from != to && Supported(currency) && 0 <= amount <= MAX_INT64
    case SetAccount(_, balance) => InInt64(balance)
    case DeleteAccount(_) => true
    case OpenAccount(_, _, balance) => InInt64(balance)
    case RecordEntry(_, amount, _) => InInt64(amount)
  }

  /**
   * The statements of `TransferTx`. An insert checks its foreign keys before anyone else can see its row,
   * so the checks come first; the two checks of the transfer row come in an order the program does not choose.
   * The two balance updates come in ascending order of account id.
   */
  function TransferOps(from: int, to: int, amount: int, at: int, fromKeyFirst: bool, ids: Ids): seq<Op>
    requires InInt64(amount)
  {
    (if fromKeyFirst then [CheckKey(from), CheckKey(to)] else [CheckKey(to), CheckKey(from)]) +
    [ PutTransfer(ids.transfer, from, to, amount),
      PutEntry(ids.fromEntry, from, Negate(amount), Some(ids.transfer), at),
      PutEntry(ids.toEntry, to, amount, Some(ids.transfer), at)] +
    (if from < to
     then [AddBalance(from, Negate(amount)), AddBalance(to, amount)]
     else [AddBalance(to, amount), AddBalance(from, Negate(amount))])
  }

  function Program(req: Request, ids: Ids): (ops: seq<Op>)
    requires Acceptable(req)
    ensures ops != []
  {
    match req
    case Move(from, to, amount, at, first) => TransferOps(from, to, amount, at, first, ids)
    case Pay(_, _, from, to, amount, at, first) => TransferOps(from, to, amount, at, first, ids)
    case SetAccount(a, balance) => [SetBalance(a, balance)]
    case DeleteAccount(a) => [RemoveAccount(a)]
    case OpenAccount(owner, currency, balance) => [PutAccount(ids.account, owner, currency, balance)]
    case RecordEntry(a, amount, at) => [PutEntry(ids.fromEntry, a, amount, None, at)]
  }

  datatype RowId = AccountId(n: int) | TransferId(n: int) | EntryId(n: int)

  function Creates(op: Op): Option<RowId> {
    match op
    case PutTransfer(id, _, _, _) => Some(TransferId(id))
    case PutEntry(id, _, _, _, _) => Some(EntryId(id))
    case PutAccount(id, _, _, _) => Some(AccountId(id))
    case _ => None
  }

  /** The ids that a list of statements inserts. */
  function Creating(ops: seq<Op>): set<RowId> {
    if ops == [] then {}
    else
      Creating(ops[..|ops| - 1])
      + (if Creates(ops[|ops| - 1]).Some? then {Creates(ops[|ops| - 1]).value} else {})
  }

  function IdsIn(t: Tables): set<RowId> {
    (set a | a in t.accounts :: AccountId(a)) +
    (set i | i in t.transfers :: TransferId(i)) +
    (set i | i in t.entries :: EntryId(i))
  }

  lemma CreatingSnoc(ops: seq<Op>, op: Op)
    ensures Creating(ops + [op]) == Creating(ops) + (if Creates(op).Some? then {Creates(op).value} else {})
  {
    assert (ops + [op])[..|ops + [op]| - 1] == ops;
  }

  lemma {:induction false} CreatingHas(ops: seq<Op>, i: nat)
    requires i < |ops| && Creates(ops[i]).Some?
    ensures Creates(ops[i]).value in Creating(ops)
  {
    if i < |ops| - 1 {
      CreatingHas(ops[..|ops| - 1], i);
    }
  }

  lemma {:induction false} CreatedBy(ops: seq<Op>, r: RowId)
    requires r in Creating(ops)
    ensures exists i :: 0 <= i < |ops| && Creates(ops[i]) == Some(r)
  {
    if Creates(ops[|ops| - 1]) != Some(r) {
      CreatedBy(ops[..|ops| - 1], r);
      var i :| 0 <= i < |ops| - 1 && Creates(ops[..|ops| - 1][i]) == Some(r);
      assert Creates(ops[i]) == Some(r);
    }
  }

  lemma {:induction false} CreatingGrows(done: seq<Op>, todo: seq<Op>)
    ensures Creating(done) <= Creating(done + todo)
  {
    if todo == [] {
      assert done + todo == done;
    } else {
      CreatingGrows(done, todo[..|todo| - 1]);
      assert (done + todo)[..|done + todo| - 1] == done + todo[..|todo| - 1];
    }
  }

  lemma CreatingPart(done: seq<Op>, todo: seq<Op>)
    ensures Creating(done) <= Creating(done + todo)
    ensures forall i :: 0 <= i < |todo| && Creates(todo[i]).Some? ==> Creates(todo[i]).value in Creating(done + todo)
  {
    CreatingGrows(done, todo);
    forall i | 0 <= i < |todo| && Creates(todo[i]).Some?
      ensures Creates(todo[i]).value in Creating(done + todo)
    {
      CreatingHas(done + todo, |done| + i);
    }
  }

  /** Every inserted row carries an id the list of statements created. */
  lemma {:induction false} NewRowsAreCreated(ops: seq<Op>)
    ensures forall i :: i in NewTransfers(ops) ==> TransferId(i) in Creating(ops)
    ensures forall i :: i in NewEntries(ops) ==> EntryId(i) in Creating(ops)
  {
    if ops != [] {
      var front, op := ops[..|ops| - 1], ops[|ops| - 1];
      assert ops == front + [op];
      NewRowsAreCreated(front);
      CreatingSnoc(front, op);
      FootprintSnoc(front, op);
    }
  }
}
