/** The meaning of one transfer run by itself, stated without reference to its statements. */
module Transfers {
  import opened Schema
  import opened Statements
  import opened Requests

  /** What `TransferTx` returns. */
  datatype Receipt = Receipt(
    transferId: int, transfer: Transfer,
    fromEntryId: int, fromEntry: Entry, toEntryId: int, toEntry: Entry,
    fromAccount: Account, toAccount: Account)

  /** A transfer goes through exactly when both accounts exist, the ids are new and no balance leaves its range. */
  predicate CanTransfer(t: Tables, from: int, to: int, amount: int, ids: Ids)
    requires InInt64(amount)
  {
    && from in t.accounts && to in t.accounts
    && ids.transfer !in t.transfers && ids.fromEntry !in t.entries && ids.toEntry !in t.entries
    && ids.fromEntry != ids.toEntry
    && InInt64(t.accounts[to].balance + amount)
    && InInt64(t.accounts[from].balance + (if from == to then amount else 0) + Negate(amount))
  }

  function Credited(a: Account, amount: int): Account {
    a.(balance := a.balance + amount)
  }

  /** Both legs recorded, both balances moved, and nothing else touched. */
  function Transferred(t: Tables, from: int, to: int, amount: int, at: int, ids: Ids): Tables
    requires InInt64(amount) && CanTransfer(t, from, to, amount, ids)
  {
    Tables(
      t.users,
      if from == to then t.accounts
      else t.accounts[from := Credited(t.accounts[from], Negate(amount))][to := Credited(t.accounts[to], amount)],
      t.transfers[ids.transfer := Transfer(from, to, amount)],
      t.entries[ids.fromEntry := Entry(from, Negate(amount), Some(ids.transfer), at)]
               [ids.toEntry := Entry(to, amount, Some(ids.transfer), at)])
  }

  /** On a transfer from an account to itself the credit comes first, so the source comes back unchanged. */
  function ReceiptFor(t: Tables, from: int, to: int, amount: int, at: int, ids: Ids): Receipt
    requires InInt64(amount) && CanTransfer(t, from, to, amount, ids)
  {
    Receipt(
      ids.transfer, Transfer(from, to, amount),
      ids.fromEntry, Entry(from, Negate(amount), Some(ids.transfer), at),
      ids.toEntry, Entry(to, amount, Some(ids.transfer), at),
      if from == to then t.accounts[from] else Credited(t.accounts[from], Negate(amount)),
      Credited(t.accounts[to], amount))
  }

  /** The rows that the statements of a transfer return, in order. */
  function ReceiptRows(r: Receipt): seq<Row> {
    [NoRow, NoRow, TransferRow(r.transferId, r.transfer),
     EntryRow(r.fromEntryId, r.fromEntry), EntryRow(r.toEntryId, r.toEntry)] +
    (if r.transfer.from < r.transfer.to
     then [AccountRow(r.transfer.from, r.fromAccount), AccountRow(r.transfer.to, r.toAccount)]
     else [AccountRow(r.transfer.to, r.toAccount), AccountRow(r.transfer.from, r.fromAccount)])
  }

  lemma OnlyMinimumLosesSelfTransfer(b: int, amount: int)
    requires InInt64(b) && InInt64(amount) && InInt64(b + amount + Negate(amount))
    ensures b + amount + Negate(amount) == b
  {}

  /** Running two lists of statements in turn. */
  lemma {:induction false} ExecConcat(xs: seq<Op>, ys: seq<Op>, t: Tables)
    ensures Exec(xs + ys, t) ==
            if Exec(xs, t).Failed? || Exec(ys, Exec(xs, t).tables).Failed? then Failed
            else Finished(Exec(ys, Exec(xs, t).tables).tables, Exec(xs, t).rows + Exec(ys, Exec(xs, t).tables).rows)
  {
    if ys == [] {
      assert xs + ys == xs;
    } else {
      var front, op := ys[..|ys| - 1], ys[|ys| - 1];
      assert ys == front + [op];
      assert xs + ys == (xs + front) + [op];
      ExecConcat(xs, front, t);
      ExecSnoc(xs + front, op, t);
      if Exec(xs, t).Finished? {
        ExecSnoc(front, op, Exec(xs, t).tables);
      }
    }
  }

  lemma ExecPair(a: Op, b: Op, t: Tables)
    ensures Exec([a, b], t) ==
            if Apply(a, t).None? || Apply(b, Apply(a, t).value).None? then Failed
            else Finished(Apply(b, Apply(a, t).value).value,
                          [Returning(a, Apply(a, t).value), Returning(b, Apply(b, Apply(a, t).value).value)])
  {
    ExecSnoc([], a, t);
    assert [] + [a] == [a] && [a] + [b] == [a, b];
    ExecSnoc([a], b, t);
  }

  /** First part of a transfer: foreign keys checked and the three rows inserted. */
  lemma InsertsEffect(t: Tables, from: int, to: int, amount: int, at: int, first: bool, ids: Ids)
    requires InInt64(amount)
    ensures var keys := if first then [CheckKey(from), CheckKey(to)] else [CheckKey(to), CheckKey(from)];
            var rows := [PutTransfer(ids.transfer, from, to, amount),
                         PutEntry(ids.fromEntry, from, Negate(amount), Some(ids.transfer), at),
                         PutEntry(ids.toEntry, to, amount, Some(ids.transfer), at)];
            var run := Exec(keys + rows, t);
            && (run.Finished? <==>
                  && from in t.accounts && to in t.accounts
                  && ids.transfer !in t.transfers && ids.fromEntry !in t.entries && ids.toEntry !in t.entries
                  && ids.fromEntry != ids.toEntry)
            && (run.Finished? ==>
                  && run.tables == t.(
                      transfers := t.transfers[ids.transfer := Transfer(from, to, amount)],
                      entries := t.entries[ids.fromEntry := Entry(from, Negate(amount), Some(ids.transfer), at)]
                                          [ids.toEntry := Entry(to, amount, Some(ids.transfer), at)])
                  && run.rows == [NoRow, NoRow, TransferRow(ids.transfer, Transfer(from, to, amount)),
                                  EntryRow(ids.fromEntry, Entry(from, Negate(amount), Some(ids.transfer), at)),
                                  EntryRow(ids.toEntry, Entry(to, amount, Some(ids.transfer), at))])
  {
    var keys := if first then [CheckKey(from), CheckKey(to)] else [CheckKey(to), CheckKey(from)];
    var a := PutTransfer(ids.transfer, from, to, amount);
    var b := PutEntry(ids.fromEntry, from, Negate(amount), Some(ids.transfer), at);
    var c := PutEntry(ids.toEntry, to, amount, Some(ids.transfer), at);
    ExecPair(keys[0], keys[1], t);
    assert keys == [keys[0], keys[1]];
    assert keys + [a, b, c] == ((keys + [a]) + [b]) + [c];
    ExecSnoc(keys, a, t);
    ExecSnoc(keys + [a], b, t);
    ExecSnoc((keys + [a]) + [b], c, t);
  }

  lemma TwoUpdates(t: Tables, a: int, x: int, b: int, y: int)
    requires a in t.accounts && b in t.accounts
    ensures var run := Exec([AddBalance(a, x), AddBalance(b, y)], t);
            var m := t.accounts[a := Credited(t.accounts[a], x)];
            && (run.Finished? <==> InInt64(t.accounts[a].balance + x) && InInt64(m[b].balance + y))
            && (run.Finished? ==>
                  && run.tables == t.(accounts := m[b := Credited(m[b], y)])
                  && run.rows == [AccountRow(a, m[a]), AccountRow(b, Credited(m[b], y))])
  {
    ExecPair(AddBalance(a, x), AddBalance(b, y), t);
  }

  /** Second part of a transfer: the two balance updates, lower account id first. */
  lemma UpdatesEffect(t: Tables, from: int, to: int, amount: int)
    requires InInt64(amount) && from in t.accounts && to in t.accounts && InInt64(t.accounts[from].balance)
    ensures var f, g := Credited(t.accounts[from], Negate(amount)), Credited(t.accounts[to], amount);
            var x, y := AddBalance(from, Negate(amount)), AddBalance(to, amount);
            var run := Exec(if from < to then [x, y] else [y, x], t);
            && (run.Finished? <==>
                  && InInt64(t.accounts[to].balance + amount)
                  && InInt64(t.accounts[from].balance + (if from == to then amount else 0) + Negate(amount)))
            && (run.Finished? ==>
                  && run.tables == (if from == to then t else t.(accounts := t.accounts[from := f][to := g]))
                  && run.rows ==
                       (if from < to then [AccountRow(from, f), AccountRow(to, g)]
                        else [AccountRow(to, g), AccountRow(from, if from == to then t.accounts[from] else f)]))
  {
    var f, g := Credited(t.accounts[from], Negate(amount)), Credited(t.accounts[to], amount);
    if from < to {
      TwoUpdates(t, from, Negate(amount), to, amount);
    } else {
      TwoUpdates(t, to, amount, from, Negate(amount));
      if from == to {
        assert t.accounts == t.accounts[to := g][from := t.accounts[from]];
      } else {
        assert t.accounts[from := f][to := g] == t.accounts[to := g][from := f];
      }
    }
  }

  /** A transfer run by itself succeeds exactly when it can, with exactly these rows and these tables. */
  lemma TransferEffect(t: Tables, from: int, to: int, amount: int, at: int, first: bool, ids: Ids)
    requires InInt64(amount) && (from in t.accounts ==> InInt64(t.accounts[from].balance))
    ensures Exec(TransferOps(from, to, amount, at, first, ids), t) ==
            if CanTransfer(t, from, to, amount, ids)
            then Finished(Transferred(t, from, to, amount, at, ids),
                          ReceiptRows(ReceiptFor(t, from, to, amount, at, ids)))
            else Failed
  {
    var keys := if first then [CheckKey(from), CheckKey(to)] else [CheckKey(to), CheckKey(from)];
    var rows := [PutTransfer(ids.transfer, from, to, amount),
                 PutEntry(ids.fromEntry, from, Negate(amount), Some(ids.transfer), at),
                 PutEntry(ids.toEntry, to, amount, Some(ids.transfer), at)];
    var x, y := AddBalance(from, Negate(amount)), AddBalance(to, amount);
    var updates := if from < to then [x, y] else [y, x];
    InsertsEffect(t, from, to, amount, at, first, ids);
    var run := Exec(keys + rows, t);
    assert TransferOps(from, to, amount, at, first, ids) == (keys + rows) + updates;
    ExecConcat(keys + rows, updates, t);
    if run.Finished? {
      UpdatesEffect(run.tables, from, to, amount);
    }
  }

  // ---------- Whole requests ----------

  /** What one request does to the tables when nothing runs beside it; None when it is refused. */
  function Serve(t: Tables, req: Request, ids: Ids): Option<Tables>
    requires Acceptable(req)
  {
    match req
    case Move(from, to, amount, at, _) =>
      if CanTransfer(t, from, to, amount, ids) then Some(Transferred(t, from, to, amount, at, ids)) else None
    case Pay(_, _, from, to, amount, at, _) =>
      if CanTransfer(t, from, to, amount, ids) then Some(Transferred(t, from, to, amount, at, ids)) else None
    case SetAccount(a, balance) => Apply(SetBalance(a, balance), t)
    case DeleteAccount(a) => Apply(RemoveAccount(a), t)
    case OpenAccount(owner, currency, balance) => Apply(PutAccount(ids.account, owner, currency, balance), t)
    case RecordEntry(a, amount, at) => Apply(PutEntry(ids.fromEntry, a, amount, None, at), t)
  }

  predicate BalancesFit(t: Tables) {
    forall a :: a in t.accounts ==> InInt64(t.accounts[a].balance)
  }

  lemma OneStatement(op: Op, t: Tables)
    ensures Exec([op], t) ==
            if Apply(op, t).None? then Failed
            else Finished(Apply(op, t).value, [Returning(op, Apply(op, t).value)])
  {
    ExecSnoc([], op, t);
    assert [] + [op] == [op];
  }

  /** The statements of a request, run undisturbed, serve it. */
  lemma ProgramServes(t: Tables, req: Request, ids: Ids)
    requires Acceptable(req) && BalancesFit(t)
    ensures var run := Exec(Program(req, ids), t);
            Serve(t, req, ids) == if run.Finished? then Some(run.tables) else None
  {
    match req
    case Move(from, to, amount, at, first) => TransferEffect(t, from, to, amount, at, first, ids);
    case Pay(_, _, from, to, amount, at, first) => TransferEffect(t, from, to, amount, at, first, ids);
    case _ =>
      OneStatement(Program(req, ids)[0], t);
  }

  // ---------- What clients are told ----------

  /**
   * The tables and the returned rows that each request must end with when nothing runs beside it, spelled out
   * row by row; Failed when it is refused.
   */
  function Answer(t: Tables, req: Request, ids: Ids): Run
    requires Acceptable(req)
  {
    match req
    case Move(from, to, amount, at, _) =>
      if !CanTransfer(t, from, to, amount, ids) then Failed
      else Finished(Transferred(t, from, to, amount, at, ids),
                    ReceiptRows(ReceiptFor(t, from, to, amount, at, ids)))
    case Pay(_, _, from, to, amount, at, _) =>
      if !CanTransfer(t, from, to, amount, ids) then Failed
      else Finished(Transferred(t, from, to, amount, at, ids),
                    ReceiptRows(ReceiptFor(t, from, to, amount, at, ids)))
    case SetAccount(a, balance) =>
      if a !in t.accounts then Failed
      else
        var row := Account(t.accounts[a].owner, t.accounts[a].currency, balance);
        Finished(Tables(t.users, t.accounts[a := row], t.transfers, t.entries), [AccountRow(a, row)])
    case DeleteAccount(a) =>
      if a !in t.accounts || Referenced(t, a) then Failed
      else Finished(Tables(t.users, t.accounts - {a}, t.transfers, t.entries), [NoRow])
    case OpenAccount(owner, currency, balance) =>
      if ids.account in t.accounts || owner !in t.users || KeyTaken(t, owner, currency) then Failed
      else
        var row := Account(owner, currency, balance);
        Finished(Tables(t.users, t.accounts[ids.account := row], t.transfers, t.entries),
                 [AccountRow(ids.account, row)])
    case RecordEntry(a, amount, at) =>
      if ids.fromEntry in t.entries || a !in t.accounts then Failed
      else
        var row := Entry(a, amount, None, at);
        Finished(Tables(t.users, t.accounts, t.transfers, t.entries[ids.fromEntry := row]),
                 [EntryRow(ids.fromEntry, row)])
  }

  lemma ApplyAnswers(t: Tables, req: Request, ids: Ids)
    requires Acceptable(req) && !req.Move? && !req.Pay?
    ensures var op := Program(req, ids)[0];
            Answer(t, req, ids) ==
            if Apply(op, t).None? then Failed
            else Finished(Apply(op, t).value, [Returning(op, Apply(op, t).value)])
  {}

  /** The statements of every request, run undisturbed, give that answer: the tables and the returned rows. */
  lemma ProgramAnswers(t: Tables, req: Request, ids: Ids)
    requires Acceptable(req) && BalancesFit(t)
    ensures Exec(Program(req, ids), t) == Answer(t, req, ids)
    ensures Serve(t, req, ids) ==
            if Answer(t, req, ids).Finished? then Some(Answer(t, req, ids).tables) else None
  {
    ProgramServes(t, req, ids);
    match req
    case Move(from, to, amount, at, first) => TransferEffect(t, from, to, amount, at, first, ids);
    case Pay(_, _, from, to, amount, at, first) => TransferEffect(t, from, to, amount, at, first, ids);
    case _ =>
      ApplyAnswers(t, req, ids);
      OneStatement(Program(req, ids)[0], t);
  }
}
