/** Which statement is answerable for each difference between the tables before and after a run. */
module Footprints {
  import opened Schema
  import opened Statements
  import opened Requests
  import opened Locks

  /** Some statement needs account `a` to exist beforehand. */
  ghost predicate Touches(ops: seq<Op>, a: int) {
    exists i :: 0 <= i < |ops| && TouchesOne(ops[i], a)
  }

  predicate TouchesOne(op: Op, a: int) {
    match op
    case CheckKey(b) => a == b
    case PutTransfer(_, from, to, _) => a == from || a == to
    case PutEntry(_, b, _, _, _) => a == b
    case AddBalance(b, _) => a == b
    case SetBalance(b, _) => a == b
    case RemoveAccount(b) => a == b
    case PutAccount(_, _, _, _) => false
  }

  ghost predicate Removes(ops: seq<Op>, a: int) {
    exists i :: 0 <= i < |ops| && ops[i] == RemoveAccount(a)
  }

  ghost predicate Opens(ops: seq<Op>, a: int, owner: string, currency: string) {
    exists i :: 0 <= i < |ops| && OpensOne(ops[i], a, owner, currency)
  }

  predicate OpensOne(op: Op, a: int, owner: string, currency: string) {
    op.PutAccount? && op.id == a && op.owner == owner && op.currency == currency
  }

  /** Some statement inserts a row that references account `a`. */
  ghost predicate Names(ops: seq<Op>, a: int) {
    exists i :: 0 <= i < |ops| && NamesOne(ops[i], a)
  }

  predicate NamesOne(op: Op, a: int) {
    (op.PutTransfer? && (op.from == a || op.to == a)) || (op.PutEntry? && op.account == a)
  }

  lemma Later(ops: seq<Op>, op: Op)
    ensures forall a :: Touches(ops + [op], a) <==> Touches(ops, a) || TouchesOne(op, a)
    ensures forall a :: Removes(ops + [op], a) <==> Removes(ops, a) || op == RemoveAccount(a)
    ensures forall a, o, c :: Opens(ops + [op], a, o, c) <==> Opens(ops, a, o, c) || OpensOne(op, a, o, c)
    ensures forall a :: Names(ops + [op], a) <==> Names(ops, a) || NamesOne(op, a)
  {
    var all := ops + [op];
    assert all[|ops|] == op;
    assert forall i :: 0 <= i < |ops| ==> all[i] == ops[i];
    forall a
      ensures Touches(all, a) <==> Touches(ops, a) || TouchesOne(op, a)
      ensures Removes(all, a) <==> Removes(ops, a) || op == RemoveAccount(a)
      ensures Names(all, a) <==> Names(ops, a) || NamesOne(op, a)
    {
      if i :| 0 <= i < |ops| && TouchesOne(ops[i], a) { assert TouchesOne(all[i], a); }
      if i :| 0 <= i < |ops| && ops[i] == RemoveAccount(a) { assert all[i] == RemoveAccount(a); }
      if i :| 0 <= i < |ops| && NamesOne(ops[i], a) { assert NamesOne(all[i], a); }
      assert TouchesOne(op, a) ==> TouchesOne(all[|ops|], a);
      assert NamesOne(op, a) ==> NamesOne(all[|ops|], a);
    }
    forall a, o, c
      ensures Opens(all, a, o, c) <==> Opens(ops, a, o, c) || OpensOne(op, a, o, c)
    {
      if i :| 0 <= i < |ops| && OpensOne(ops[i], a, o, c) { assert OpensOne(all[i], a, o, c); }
      assert OpensOne(op, a, o, c) ==> OpensOne(all[|ops|], a, o, c);
    }
  }

  /** Rows vanish only by removal, and appear only by opening an account; owner and currency never change. */
  lemma {:induction false} AccountsFollow(ops: seq<Op>, t: Tables)
    requires Exec(ops, t).Finished?
    ensures forall a :: a in t.accounts && a !in Exec(ops, t).tables.accounts ==> Removes(ops, a)
    ensures forall a, o, c :: HasKey(Exec(ops, t).tables, a, o, c) ==> HasKey(t, a, o, c) || Opens(ops, a, o, c)
  {
    if ops != [] {
      var front, op := ops[..|ops| - 1], ops[|ops| - 1];
      assert ops == front + [op];
      AccountsFollow(front, t);
      ExecSnoc(front, op, t);
      Later(front, op);
      AccountsFollowOne(op, Exec(front, t).tables, Exec(ops, t).tables);
    }
  }

  lemma {:induction false} ReferencesFollow(ops: seq<Op>, t: Tables, a: int)
    requires Exec(ops, t).Finished?
    ensures Referenced(Exec(ops, t).tables, a) <==> Referenced(t, a) || Names(ops, a)
  {
    if ops != [] {
      var front, op := ops[..|ops| - 1], ops[|ops| - 1];
      assert ops == front + [op];
      ReferencesFollow(front, t, a);
      ExecSnoc(front, op, t);
      Later(front, op);
      ReferencesAfter(op, Exec(front, t).tables, Exec(ops, t).tables, a);
    }
  }

  lemma OpensCreates(ops: seq<Op>, a: int, owner: string, currency: string)
    requires Opens(ops, a, owner, currency)
    ensures AccountId(a) in Creating(ops)
  {
    var i :| 0 <= i < |ops| && OpensOne(ops[i], a, owner, currency);
    CreatingHas(ops, i);
  }

  /** An account that a run leaves behind and did not open was there before, with the same owner and currency. */
  lemma SameAccountBefore(ops: seq<Op>, t: Tables, a: int)
    requires Exec(ops, t).Finished? && a in Exec(ops, t).tables.accounts && AccountId(a) !in Creating(ops)
    ensures a in t.accounts
    ensures t.accounts[a].owner == Exec(ops, t).tables.accounts[a].owner
    ensures t.accounts[a].currency == Exec(ops, t).tables.accounts[a].currency
  {
    var row := Exec(ops, t).tables.accounts[a];
    AccountsFollow(ops, t);
    assert HasKey(Exec(ops, t).tables, a, row.owner, row.currency);
    if Opens(ops, a, row.owner, row.currency) {
      OpensCreates(ops, a, row.owner, row.currency);
    }
  }

  lemma AccountsFollowOne(op: Op, v: Tables, w: Tables)
    requires Apply(op, v) == Some(w)
    ensures forall a :: a in v.accounts && a !in w.accounts ==> op == RemoveAccount(a)
    ensures forall a, o, c :: HasKey(w, a, o, c) ==> HasKey(v, a, o, c) || OpensOne(op, a, o, c)
  {}

  /** A successful run touches only accounts that existed, or that it opened itself. */
  lemma {:induction false} TouchedExisted(ops: seq<Op>, t: Tables, a: int)
    requires Exec(ops, t).Finished? && Touches(ops, a)
    ensures a in t.accounts || AccountId(a) in Creating(ops)
  {
    if ops != [] {
      var front, op := ops[..|ops| - 1], ops[|ops| - 1];
      assert ops == front + [op];
      ExecSnoc(front, op, t);
      Later(front, op);
      CreatingSnoc(front, op);
      if Touches(front, a) {
        TouchedExisted(front, t, a);
      } else {
        var v := Exec(front, t).tables;
        assert a in v.accounts;
        AccountsFollow(front, t);
        assert HasKey(v, a, v.accounts[a].owner, v.accounts[a].currency);
        if a !in t.accounts {
          OpensCreates(front, a, v.accounts[a].owner, v.accounts[a].currency);
        }
      }
    }
  }

  lemma ChangedExisted(ops: seq<Op>, t: Tables, a: int)
    requires Exec(ops, t).Finished? && a in Changed(ops)
    ensures a in t.accounts || AccountId(a) in Creating(ops)
  {
    ChangedBy(ops, a);
    var i :| 0 <= i < |ops| && Changes(ops[i]) == Some(a);
    if ops[i].PutAccount? {
      CreatingHas(ops, i);
    } else {
      assert TouchesOne(ops[i], a);
      TouchedExisted(ops, t, a);
    }
  }

  /** Ids in the tables after a run were there before or were created by it. */
  lemma IdsFollow(ops: seq<Op>, t: Tables)
    requires Exec(ops, t).Finished?
    ensures IdsIn(Exec(ops, t).tables) <= IdsIn(t) + Creating(ops)
  {
    var w := Exec(ops, t).tables;
    AccountsFollow(ops, t);
    ExecFootprint(ops, t);
    NewRowsAreCreated(ops);
    forall a | a in w.accounts
      ensures AccountId(a) in IdsIn(t) + Creating(ops)
    {
      var o, c := w.accounts[a].owner, w.accounts[a].currency;
      assert HasKey(w, a, o, c);
      if !HasKey(t, a, o, c) {
        OpensCreates(ops, a, o, c);
      }
    }
  }
}
