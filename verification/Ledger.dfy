/** What every served request keeps true of the ledger. */
module Ledger {
  import opened Schema
  import opened Requests
  import opened Transfers
  import opened Sums

  // ---------- Referential integrity and unique keys ----------

  ghost predicate Referential(t: Tables) {
    && (forall i :: i in t.transfers ==> t.transfers[i].from in t.accounts && t.transfers[i].to in t.accounts)
    && (forall e :: e in t.entries ==> t.entries[e].account in t.accounts)
    && (forall e :: e in t.entries && t.entries[e].transfer.Some? ==> t.entries[e].transfer.value in t.transfers)
    && (forall a :: a in t.accounts ==> t.accounts[a].owner in t.users)
  }

  /** One account per currency per user. */
  ghost predicate UniqueKeys(t: Tables) {
    forall a, b, o, c :: HasKey(t, a, o, c) && HasKey(t, b, o, c) ==> a == b
  }

  lemma ServeKeepsReferences(t: Tables, req: Request, ids: Ids)
    requires Acceptable(req) && Referential(t) && Serve(t, req, ids).Some?
    ensures Referential(Serve(t, req, ids).value)
  {
    if req.DeleteAccount? {
      var a, w := req.account, Serve(t, req, ids).value;
      assert forall i :: i in w.transfers ==> w.transfers[i].from != a && w.transfers[i].to != a;
      assert forall e :: e in w.entries ==> w.entries[e].account != a;
    }
  }

  lemma ServeKeepsKeys(t: Tables, req: Request, ids: Ids)
    requires Acceptable(req) && UniqueKeys(t) && Serve(t, req, ids).Some?
    ensures UniqueKeys(Serve(t, req, ids).value)
  {
    var w := Serve(t, req, ids).value;
    assert forall a, o, c :: HasKey(w, a, o, c) ==>
        HasKey(t, a, o, c) || (req.OpenAccount? && a == ids.account && o == req.owner && c == req.currency);
    assert req.OpenAccount? ==> forall a :: !HasKey(t, a, req.owner, req.currency);
  }

  lemma ServeKeepsBalancesInRange(t: Tables, req: Request, ids: Ids)
    requires Acceptable(req) && BalancesFit(t) && Serve(t, req, ids).Some?
    ensures BalancesFit(Serve(t, req, ids).value)
  {}

  // ---------- Double entry ----------

  /** Entries `d` and `c` are the two legs of transfer `i`, and it has no others. */
  ghost predicate Legs(t: Tables, i: int, d: int, c: int) {
    && i in t.transfers && InInt64(t.transfers[i].amount)
    && d in t.entries && c in t.entries && d != c
    && t.entries[d].account == t.transfers[i].from && t.entries[d].amount == Negate(t.transfers[i].amount)
    && t.entries[c].account == t.transfers[i].to && t.entries[c].amount == t.transfers[i].amount
    && t.entries[d].transfer == Some(i) && t.entries[c].transfer == Some(i)
    && (forall e :: e in t.entries && t.entries[e].transfer == Some(i) ==> e == d || e == c)
  }

  ghost predicate DoubleEntry(t: Tables) {
    forall i :: i in t.transfers ==> exists d, c :: Legs(t, i, d, c)
  }

  /** The two legs cancel, except for the one amount whose negation does not fit 64 bits. */
  lemma LegsCancel(t: Tables, i: int, d: int, c: int)
    requires Legs(t, i, d, c)
    ensures t.entries[d].amount + t.entries[c].amount == 0 <==> t.transfers[i].amount != MIN_INT64
  {}

  /**
   * And that amount does go through: exactly between two accounts that are not in debt. Both entries then
   * carry the same negative amount, and both balances fall by it.
   */
  lemma SmallestAmountGoesThrough(t: Tables, from: int, to: int, at: int, ids: Ids)
    requires BalancesFit(t) && from in t.accounts && to in t.accounts
    requires ids.transfer !in t.transfers && ids.fromEntry !in t.entries && ids.toEntry !in t.entries
    requires ids.fromEntry != ids.toEntry
    ensures CanTransfer(t, from, to, MIN_INT64, ids) <==>
            from != to && t.accounts[from].balance >= 0 && t.accounts[to].balance >= 0
    ensures CanTransfer(t, from, to, MIN_INT64, ids) ==>
              var w := Transferred(t, from, to, MIN_INT64, at, ids);
              && w.entries[ids.fromEntry].amount + w.entries[ids.toEntry].amount == 2 * MIN_INT64
              && w.accounts[from].balance - t.accounts[from].balance == MIN_INT64
              && w.accounts[to].balance - t.accounts[to].balance == MIN_INT64
  {}

  /** Legs of earlier transfers survive inserts that do not link to them. */
  lemma LegsSurvive(t: Tables, w: Tables, i: int, d: int, c: int)
    requires Legs(t, i, d, c) && i in w.transfers && w.transfers[i] == t.transfers[i]
    requires forall e :: e in t.entries ==> e in w.entries && w.entries[e] == t.entries[e]
    requires forall e :: e in w.entries && w.entries[e].transfer == Some(i) ==> e in t.entries
    ensures Legs(w, i, d, c)
  {}

  /** No transfer was added, and no entry that links to one. */
  lemma LegsSurviveAll(t: Tables, w: Tables)
    requires DoubleEntry(t) && w.transfers == t.transfers
    requires forall e :: e in t.entries ==> e in w.entries && w.entries[e] == t.entries[e]
    requires forall e :: e in w.entries && w.entries[e].transfer.Some? ==> e in t.entries
    ensures DoubleEntry(w)
  {
    forall i | i in w.transfers
      ensures exists d, c :: Legs(w, i, d, c)
    {
      var d, c :| Legs(t, i, d, c);
      LegsSurvive(t, w, i, d, c);
    }
  }

  /** A transfer brings its own two legs and leaves those of the others alone. */
  lemma TransferKeepsDoubleEntry(t: Tables, from: int, to: int, amount: int, at: int, ids: Ids)
    requires InInt64(amount) && Referential(t) && DoubleEntry(t) && CanTransfer(t, from, to, amount, ids)
    ensures DoubleEntry(Transferred(t, from, to, amount, at, ids))
  {
    var w := Transferred(t, from, to, amount, at, ids);
    assert forall e :: e in w.entries ==> e in t.entries || e == ids.fromEntry || e == ids.toEntry;
    forall i | i in w.transfers
      ensures exists d, c :: Legs(w, i, d, c)
    {
      if i == ids.transfer {
        assert Legs(w, i, ids.fromEntry, ids.toEntry);
      } else {
        var d, c :| Legs(t, i, d, c);
        LegsSurvive(t, w, i, d, c);
      }
    }
  }

  lemma ServeKeepsDoubleEntry(t: Tables, req: Request, ids: Ids)
    requires Acceptable(req) && Referential(t) && DoubleEntry(t) && Serve(t, req, ids).Some?
    ensures DoubleEntry(Serve(t, req, ids).value)
  {
    var w := Serve(t, req, ids).value;
    match req
    case Move(from, to, amount, at, _) => TransferKeepsDoubleEntry(t, from, to, amount, at, ids);
    case Pay(_, _, from, to, amount, at, _) => TransferKeepsDoubleEntry(t, from, to, amount, at, ids);
    case _ => LegsSurviveAll(t, w);
  }

  // ---------- Balances against entries ----------

  function LinkedAmounts(t: Tables, a: int): map<int, int> {
    map e | e in t.entries && t.entries[e].account == a && t.entries[e].transfer.Some? :: t.entries[e].amount
  }

  /** What the transfer-linked entries of an account do not account for. */
  ghost function Drift(t: Tables, a: int): int
    requires a in t.accounts
  {
    t.accounts[a].balance - Sum(LinkedAmounts(t, a))
  }

  lemma LinkedAmountsWith(t: Tables, w: Tables, e: int, x: Entry, a: int)
    requires e !in t.entries && w.entries == t.entries[e := x]
    ensures Sum(LinkedAmounts(w, a)) ==
            Sum(LinkedAmounts(t, a)) + (if x.account == a && x.transfer.Some? then x.amount else 0)
  {
    var m := LinkedAmounts(t, a);
    if x.account == a && x.transfer.Some? {
      assert LinkedAmounts(w, a) == m[e := x.amount];
      SumWith(m, e, x.amount);
    } else {
      assert LinkedAmounts(w, a) == m;
    }
  }

  lemma TransferredLinks(t: Tables, from: int, to: int, amount: int, at: int, ids: Ids, a: int)
    requires InInt64(amount) && CanTransfer(t, from, to, amount, ids)
    ensures Sum(LinkedAmounts(Transferred(t, from, to, amount, at, ids), a)) ==
            Sum(LinkedAmounts(t, a)) + (if a == from then Negate(amount) else 0) + (if a == to then amount else 0)
  {
    var x := Entry(from, Negate(amount), Some(ids.transfer), at);
    var y := Entry(to, amount, Some(ids.transfer), at);
    var half := t.(entries := t.entries[ids.fromEntry := x]);
    LinkedAmountsWith(t, half, ids.fromEntry, x, a);
    LinkedAmountsWith(half, Transferred(t, from, to, amount, at, ids), ids.toEntry, y, a);
  }

  lemma TransferKeepsDrift(t: Tables, from: int, to: int, amount: int, at: int, ids: Ids, a: int)
    requires InInt64(amount) && BalancesFit(t) && CanTransfer(t, from, to, amount, ids) && a in t.accounts
    ensures Drift(Transferred(t, from, to, amount, at, ids), a) == Drift(t, a)
  {
    TransferredLinks(t, from, to, amount, at, ids, a);
    if from == to {
      OnlyMinimumLosesSelfTransfer(t.accounts[from].balance, amount);
    }
  }

  lemma NewAccountHasNoEntries(t: Tables, a: int)
    requires Referential(t) && a !in t.accounts
    ensures Sum(LinkedAmounts(t, a)) == 0
  {
    assert forall e :: e !in LinkedAmounts(t, a);
  }

  /**
   * Balance and linked entries move together: the difference is set when the account opens
   * and afterwards changes only when `UpdateAccount` overwrites the balance, by exactly new minus old.
   */
  lemma ServeMovesDrift(t: Tables, req: Request, ids: Ids, a: int)
    requires Acceptable(req) && Referential(t) && BalancesFit(t) && Serve(t, req, ids).Some?
    requires a in Serve(t, req, ids).value.accounts
    ensures a !in t.accounts ==>
              req.OpenAccount? && a == ids.account && Drift(Serve(t, req, ids).value, a) == req.balance
    ensures a in t.accounts ==>
              Drift(Serve(t, req, ids).value, a) ==
              Drift(t, a) + (if req.SetAccount? && req.account == a then req.balance - t.accounts[a].balance else 0)
  {
    var w := Serve(t, req, ids).value;
    match req
    case Move(from, to, amount, at, _) =>
      TransferKeepsDrift(t, from, to, amount, at, ids, a);
    case Pay(_, _, from, to, amount, at, _) =>
      TransferKeepsDrift(t, from, to, amount, at, ids, a);
    case RecordEntry(b, amount, at) =>
      LinkedAmountsWith(t, w, ids.fromEntry, Entry(b, amount, None, at), a);
    case OpenAccount(_, _, _) =>
      assert LinkedAmounts(w, a) == LinkedAmounts(t, a);
      if a !in t.accounts {
        NewAccountHasNoEntries(t, a);
      }
    case _ =>
      assert LinkedAmounts(w, a) == LinkedAmounts(t, a);
  }

  // ---------- Money per currency ----------

  function Holdings(t: Tables, currency: string): map<int, int> {
    map a | a in t.accounts && t.accounts[a].currency == currency :: t.accounts[a].balance
  }

  ghost function Total(t: Tables, currency: string): int {
    Sum(Holdings(t, currency))
  }

  lemma TotalWith(t: Tables, a: int, x: int, currency: string)
    requires a in t.accounts
    ensures Total(t.(accounts := t.accounts[a := Credited(t.accounts[a], x)]), currency) ==
            Total(t, currency) + (if t.accounts[a].currency == currency then x else 0)
  {
    var w := t.(accounts := t.accounts[a := Credited(t.accounts[a], x)]);
    if t.accounts[a].currency == currency {
      assert Holdings(w, currency) == Holdings(t, currency)[a := t.accounts[a].balance + x];
      SumWith(Holdings(t, currency), a, t.accounts[a].balance + x);
    } else {
      assert Holdings(w, currency) == Holdings(t, currency);
    }
  }

  /** A transfer moves money between the totals of its two currencies, and so conserves a shared one. */
  lemma TransferMovesTotals(t: Tables, from: int, to: int, amount: int, at: int, ids: Ids, currency: string)
    requires InInt64(amount) && BalancesFit(t) && CanTransfer(t, from, to, amount, ids)
    ensures Total(Transferred(t, from, to, amount, at, ids), currency) ==
            Total(t, currency)
            + (if t.accounts[from].currency == currency then Negate(amount) else 0)
            + (if t.accounts[to].currency == currency then amount else 0)
  {
    var w := Transferred(t, from, to, amount, at, ids);
    if from == to {
      OnlyMinimumLosesSelfTransfer(t.accounts[from].balance, amount);
      assert Holdings(w, currency) == Holdings(t, currency);
    } else {
      var half := t.(accounts := t.accounts[from := Credited(t.accounts[from], Negate(amount))]);
      TotalWith(t, from, Negate(amount), currency);
      TotalWith(half, to, amount, currency);
      assert Holdings(w, currency) ==
             Holdings(half.(accounts := half.accounts[to := Credited(half.accounts[to], amount)]), currency);
    }
  }

  /** What a request other than a payment brings into the total of a currency. */
  function Inflow(t: Tables, req: Request, currency: string): int
    requires Acceptable(req)
  {
    match req
    case Move(from, to, amount, _, _) =>
      (if from in t.accounts && t.accounts[from].currency == currency then Negate(amount) else 0)
      + (if to in t.accounts && t.accounts[to].currency == currency then amount else 0)
    case SetAccount(a, balance) =>
      if a in t.accounts && t.accounts[a].currency == currency then balance - t.accounts[a].balance else 0
    case DeleteAccount(a) =>
      if a in t.accounts && t.accounts[a].currency == currency then -t.accounts[a].balance else 0
    case OpenAccount(_, c, balance) =>
      if c == currency then balance else 0
    case _ => 0
  }

  lemma ServeMovesTotals(t: Tables, req: Request, ids: Ids, currency: string)
    requires Acceptable(req) && !req.Pay? && BalancesFit(t) && Serve(t, req, ids).Some?
    ensures Total(Serve(t, req, ids).value, currency) == Total(t, currency) + Inflow(t, req, currency)
  {
    var w, m := Serve(t, req, ids).value, Holdings(t, currency);
    match req
    case Move(from, to, amount, at, _) => TransferMovesTotals(t, from, to, amount, at, ids, currency);
    case RecordEntry(_, _, _) => assert Holdings(w, currency) == m;
    case SetAccount(a, balance) =>
      if t.accounts[a].currency == currency {
        assert Holdings(w, currency) == m[a := balance];
        SumWith(m, a, balance);
      } else {
        assert Holdings(w, currency) == m;
      }
    case DeleteAccount(a) =>
      if t.accounts[a].currency == currency {
        assert Holdings(w, currency) == m - {a};
        SumWithout(m, a);
      } else {
        assert Holdings(w, currency) == m;
      }
    case OpenAccount(_, c, balance) =>
      if c == currency {
        assert Holdings(w, currency) == m[ids.account := balance];
        SumWith(m, ids.account, balance);
      } else {
        assert Holdings(w, currency) == m;
      }
  }

  // ---------- All of it ----------

  ghost predicate Sound(t: Tables) {
    Referential(t) && UniqueKeys(t) && DoubleEntry(t) && BalancesFit(t)
  }

  lemma ServeKeepsSound(t: Tables, req: Request, ids: Ids)
    requires Acceptable(req) && Sound(t) && Serve(t, req, ids).Some?
    ensures Sound(Serve(t, req, ids).value)
  {
    ServeKeepsReferences(t, req, ids);
    ServeKeepsKeys(t, req, ids);
    ServeKeepsBalancesInRange(t, req, ids);
    ServeKeepsDoubleEntry(t, req, ids);
  }
}
