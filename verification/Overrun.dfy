/** Runs in which overlapping payments take an account below zero, and exactly when there are any. */
module Overrun {
  import opened Schema
  import opened Statements
  import opened Requests
  import opened Transfers
  import opened Ledger
  import opened Engine
  import opened Isolation
  import opened Commits
  import opened Serializability
  import opened Runs
  import opened SameTransfers
  import opened Overdraft
  import opened Overlap

  // ---------- New numbers ----------

  lemma {:induction false} AboveAll(numbers: set<int>) returns (n: nat)
    ensures forall x :: x in numbers ==> x < n
    decreases |numbers|
  {
    if x :| x in numbers {
      var m := AboveAll(numbers - {x});
      n := if x < m then m else x + 1;
      forall y | y in numbers ensures y < n {
        assert y == x || y in numbers - {x};
      }
    } else {
      n := 0;
    }
  }

  lemma IdsOfPrograms(req: Request, ids: Ids, r: RowId)
    requires Acceptable(req) && r in Creating(Program(req, ids))
    ensures r.n in {ids.transfer, ids.fromEntry, ids.toEntry, ids.account}
  {
    CreatedBy(Program(req, ids), r);
  }

  /** The sequences can always give out ids that nobody has had. */
  lemma NewIds(taken: set<RowId>) returns (ids: Ids)
    ensures ids.fromEntry != ids.toEntry
    ensures forall req :: Acceptable(req) ==> Creating(Program(req, ids)) !! taken
  {
    var numbers := set r | r in taken :: r.n;
    var n := AboveAll(numbers);
    ids := Ids(n, n, n + 1, n);
    forall req | Acceptable(req)
      ensures Creating(Program(req, ids)) !! taken
    {
      forall r | r in Creating(Program(req, ids))
        ensures r !in taken
      {
        IdsOfPrograms(req, ids, r);
        assert r in taken ==> r.n in numbers;
      }
    }
  }

  lemma NewTransaction(z: State, least: nat) returns (t: int)
    ensures t >= least && t !in z.active && t !in z.ended
  {
    var n := AboveAll(z.active.Keys + z.ended.Keys);
    t := if n < least then least else n;
  }

  // ---------- Runs of these payments ----------

  /** A run of these payments, made by handlers. */
  ghost predicate Fair(s: State, run: seq<Event>, pays: seq<Request>, a: int) {
    Legal(s, run) && OnlyThese(run, pays, a) && AllFromHandlers(run)
  }

  lemma FairSnoc(s: State, run: seq<Event>, pays: seq<Request>, a: int, e: Event)
    requires Fair(s, run, pays, a) && Enabled(Final(s, run), e)
    requires e.Arrive? ==> Permitted(e.t, e.req, pays, a) && FromHandler(e.req)
    ensures Fair(s, run + [e], pays, a) && Final(s, run + [e]) == After(Final(s, run), e)
  {
    LegalSnoc(s, run, e);
  }

  lemma FairGrows(s: State, run: seq<Event>, more: seq<Event>, pays: seq<Request>, a: int)
    requires Fair(s, run, pays, a) && Legal(s, run + more) && forall i :: 0 <= i < |more| ==> !more[i].Arrive?
    ensures Fair(s, run + more, pays, a)
  {}

  /** A payment arrives and passes its checks. */
  lemma Checks(s: State, run: seq<Event>, pays: seq<Request>, a: int, t: int) returns (whole: seq<Event>)
    requires Initial(s) && Fair(s, run, pays, a) && OutOf(pays, a)
    requires 0 <= t < |pays| && t !in Final(s, run).active && t !in Final(s, run).ended
    requires IsOutOf(pays[t], a) && PassesChecks(CommittedTables(Final(s, run)), pays[t])
    ensures Fair(s, whole, pays, a)
    ensures var z, w := Final(s, run), Final(s, whole);
            && t in w.active && Poised(w.active[t], pays[t])
            && w == z.(active := z.active[t := w.active[t]], taken := w.taken)
  {
    var z := Final(s, run);
    var ids := NewIds(z.taken);
    var e := Arrive(t, pays[t], ids);
    FairSnoc(s, run, pays, a, e);
    var y := Final(s, run + [e]);
    ArrivesFresh(z, t, pays[t], ids);
    LooksPass(s, run + [e], t);
    FairGrows(s, run + [e], [Look(t), Look(t)], pays, a);
    whole := (run + [e]) + [Look(t), Look(t)];
  }

  lemma ArrivesFresh(z: State, t: int, req: Request, ids: Ids)
    requires Acceptable(req) && t !in z.active
    ensures var y := Start(z, t, req, ids);
            && t in y.active && y == z.(active := z.active[t := y.active[t]], taken := y.taken)
            && y.active[t].req == req && y.active[t].ids == ids && y.active[t].held == {} && y.active[t].done == []
            && y.active[t].checks == (if req.Pay? then 2 else 0)
            && CommittedTables(y) == CommittedTables(z)
  {}

  /** `w` is `z` after a request of another account has committed, with no payment any further. */
  ghost predicate Aside(z: State, w: State, pays: seq<Request>, req: Request, ids: Ids)
    requires Acceptable(req) && Exec(Program(req, ids), CommittedTables(z)).Finished?
  {
    && w.active == z.active && w.base == z.base && w.taken == z.taken + Creating(Program(req, ids))
    && (forall t :: t in z.ended || 0 <= t < |pays| ==> Lookup(w.ended, t) == Lookup(z.ended, t))
    && CommittedTables(w) == Exec(Program(req, ids), CommittedTables(z)).tables
  }

  lemma AsideIsReady(z: State, u: int, req: Request, ids: Ids)
    requires Acceptable(req) && !req.Pay? && u !in z.active
    requires Exec(Program(req, ids), CommittedTables(z)).Finished?
    requires forall t :: t in z.active ==> z.active[t].held == {}
    ensures var y := Start(z, u, req, ids);
            && Ready(y, u) && y.active - {u} == z.active && y.ended == z.ended && y.base == z.base
            && y.active[u].req == req && y.active[u].ids == ids && CommittedTables(y) == CommittedTables(z)
  {
    ArrivesFresh(z, u, req, ids);
  }

  /** While the payments wait, a request of another account is made and commits. */
  lemma RunsAside(s: State, run: seq<Event>, pays: seq<Request>, a: int, req: Request, ids: Ids)
    returns (whole: seq<Event>)
    requires Initial(s) && Fair(s, run, pays, a)
    requires Acceptable(req) && !req.Pay? && FromHandler(req) && Elsewhere(req, a, a)
    requires Creating(Program(req, ids)) !! Final(s, run).taken
    requires Exec(Program(req, ids), CommittedTables(Final(s, run))).Finished?
    requires forall t :: t in Final(s, run).active ==> Final(s, run).active[t].held == {}
    ensures Fair(s, whole, pays, a) && Aside(Final(s, run), Final(s, whole), pays, req, ids)
  {
    var z := Final(s, run);
    var u := NewTransaction(z, |pays|);
    var e := Arrive(u, req, ids);
    FairSnoc(s, run, pays, a, e);
    AsideIsReady(z, u, req, ids);
    var more := RunsToCommit(s, run + [e], u);
    FairGrows(s, run + [e], more, pays, a);
    whole := (run + [e]) + more;
  }

  // ---------- Opening the accounts that are missing ----------

  /** A payment that may pass. */
  ghost predicate DueAt(s: State, pays: seq<Request>, t: int) {
    0 <= t < |pays| && pays[t].Pay? && MayPass(s, pays[t])
  }

  /** For every payee that is not there, a user of its own who has no account in the currency yet. */
  ghost predicate Housed(s: State, pays: seq<Request>, currency: string, owners: map<int, string>) {
    && (forall x :: x in owners ==> owners[x] in s.base.users && !KeyTaken(s.base, owners[x], currency))
    && (forall x, y :: x in owners && y in owners && x != y ==> owners[x] != owners[y])
    && (forall t :: IsHoused(s, pays, owners, t))
  }

  ghost predicate IsHoused(s: State, pays: seq<Request>, owners: map<int, string>, t: int) {
    DueAt(s, pays, t) ==> pays[t].to in s.base.accounts || pays[t].to in owners
  }

  /** The payees of the due payments among the first `k` are there; nothing else has happened. */
  ghost predicate Opened(s: State, z: State, pays: seq<Request>, currency: string, owners: map<int, string>, k: nat) {
    && z.base == s.base && z.active == map[]
    && (forall t :: 0 <= t < |pays| ==> t !in z.ended)
    && CommittedTables(z).users == s.base.users
    && (forall x :: Inhabited(s, z, currency, owners, x))
    && (forall t :: CanBePaid(s, CommittedTables(z), pays, k, t))
  }

  /** Accounts of the start are as they were; others belong to the users they were meant for; no number is wasted. */
  ghost predicate Inhabited(s: State, z: State, currency: string, owners: map<int, string>, x: int) {
    var c := CommittedTables(z).accounts;
    && (x in s.base.accounts ==> x in c && c[x] == s.base.accounts[x])
    && (x in c && x !in s.base.accounts ==> x in owners && c[x] == Account(owners[x], currency, 0))
    && (AccountId(x) in z.taken ==> AccountId(x) in s.taken || x in c)
  }

  ghost predicate CanBePaid(s: State, c: Tables, pays: seq<Request>, k: nat, t: int) {
    t < k && DueAt(s, pays, t) ==> PassesChecks(c, pays[t])
  }

  ghost predicate OpenedUpTo(
    s: State, run: seq<Event>, pays: seq<Request>, a: int, currency: string, owners: map<int, string>, k: nat)
  {
    && OutOf(pays, a) && a in s.base.accounts && s.base.accounts[a].currency == currency && k <= |pays|
    && Housed(s, pays, currency, owners)
    && Fair(s, run, pays, a) && Opened(s, Final(s, run), pays, currency, owners, k)
  }

  lemma NothingToOpenYet(s: State, pays: seq<Request>, a: int, currency: string, owners: map<int, string>)
    requires Initial(s) && OutOf(pays, a) && a in s.base.accounts && s.base.accounts[a].currency == currency
    requires Housed(s, pays, currency, owners)
    ensures OpenedUpTo(s, [], pays, a, currency, owners, 0)
  {
    assert CommittedTables(s) == s.base;
    forall x ensures Inhabited(s, s, currency, owners, x) {}
    forall t ensures CanBePaid(s, s.base, pays, 0, t) {}
  }

  /** The key of a missing account is free: the accounts opened so far belong to other users. */
  lemma KeyIsFree(s: State, z: State, pays: seq<Request>, currency: string, owners: map<int, string>, k: nat, x: int)
    requires Housed(s, pays, currency, owners) && Opened(s, z, pays, currency, owners, k)
    requires x in owners && x !in CommittedTables(z).accounts
    ensures !KeyTaken(CommittedTables(z), owners[x], currency)
  {
    var c := CommittedTables(z);
    forall y | y in c.accounts
      ensures !HasKey(c, y, owners[x], currency)
    {
      assert Inhabited(s, z, currency, owners, y);
      assert y in s.base.accounts ==> !HasKey(s.base, y, owners[x], currency);
    }
  }

  lemma Admitted(s: State, z: State, w: State, pays: seq<Request>, currency: string, owners: map<int, string>,
                 k: nat, x: int)
    requires Opened(s, z, pays, currency, owners, k) && x in owners && x !in s.base.accounts
    requires w.base == z.base && w.active == z.active && w.taken == z.taken + {AccountId(x)}
    requires forall t :: 0 <= t < |pays| ==> Lookup(w.ended, t) == Lookup(z.ended, t)
    requires x !in CommittedTables(z).accounts
    requires CommittedTables(w) == CommittedTables(z).(
               accounts := CommittedTables(z).accounts[x := Account(owners[x], currency, 0)])
    ensures Opened(s, w, pays, currency, owners, k)
  {
    forall t | 0 <= t < |pays| ensures t !in w.ended {
      assert Lookup(w.ended, t) == Lookup(z.ended, t);
    }
    forall y ensures Inhabited(s, w, currency, owners, y) {
      assert Inhabited(s, z, currency, owners, y);
    }
    forall t ensures CanBePaid(s, CommittedTables(w), pays, k, t) {
      assert CanBePaid(s, CommittedTables(z), pays, k, t);
    }
  }

  /** A missing account is opened, empty, under its own number. */
  lemma OpensOne(s: State, run: seq<Event>, pays: seq<Request>, a: int, currency: string, owners: map<int, string>,
                 k: nat, x: int)
    returns (whole: seq<Event>)
    requires Initial(s) && Sound(s.base) && OpenedUpTo(s, run, pays, a, currency, owners, k)
    requires x in owners && x !in s.base.accounts && AccountId(x) !in s.taken
    requires x !in CommittedTables(Final(s, run)).accounts
    ensures OpenedUpTo(s, whole, pays, a, currency, owners, k)
    ensures x in CommittedTables(Final(s, whole)).accounts
  {
    var z := Final(s, run);
    var req, ids := OpenAccount(owners[x], currency, 0), Ids(0, 0, 0, x);
    assert Inhabited(s, z, currency, owners, x);
    KeyIsFree(s, z, pays, currency, owners, k, x);
    CommittedIsSound(s, run);
    OpeningCreates(owners[x], currency, x);
    OpeningServes(CommittedTables(z), owners[x], currency, x);
    whole := RunsAside(s, run, pays, a, req, ids);
    Admitted(s, z, Final(s, whole), pays, currency, owners, k, x);
  }

  lemma OpeningCreates(owner: string, currency: string, x: int)
    ensures Creating(Program(OpenAccount(owner, currency, 0), Ids(0, 0, 0, x))) == {AccountId(x)}
  {
    var op := PutAccount(x, owner, currency, 0);
    CreatingSnoc([], op);
    assert [] + [op] == [op];
  }

  lemma OpeningServes(c: Tables, owner: string, currency: string, x: int)
    requires BalancesFit(c) && x !in c.accounts && owner in c.users && !KeyTaken(c, owner, currency)
    ensures var run := Exec(Program(OpenAccount(owner, currency, 0), Ids(0, 0, 0, x)), c);
            && run.Finished?
            && run.tables == c.(accounts := c.accounts[x := Account(owner, currency, 0)])
  {
    ProgramServes(c, OpenAccount(owner, currency, 0), Ids(0, 0, 0, x));
  }

  lemma OneMoreCanBePaid(s: State, run: seq<Event>, pays: seq<Request>, a: int, currency: string,
                         owners: map<int, string>, k: nat)
    requires Initial(s) && OpenedUpTo(s, run, pays, a, currency, owners, k) && k < |pays|
    requires DueAt(s, pays, k) ==> pays[k].to in CommittedTables(Final(s, run)).accounts
    ensures OpenedUpTo(s, run, pays, a, currency, owners, k + 1)
  {
    var z, next := Final(s, run), k + 1;
    assert IsOutOf(pays[k], a);
    assert Inhabited(s, z, currency, owners, a) && Inhabited(s, z, currency, owners, pays[k].to);
    forall t ensures CanBePaid(s, CommittedTables(z), pays, next, t) {
      assert CanBePaid(s, CommittedTables(z), pays, k, t);
    }
  }

  lemma NextOpens(s: State, run: seq<Event>, pays: seq<Request>, a: int, currency: string, owners: map<int, string>,
                  k: nat)
    returns (whole: seq<Event>)
    requires Initial(s) && Sound(s.base) && OpenedUpTo(s, run, pays, a, currency, owners, k) && k < |pays|
    ensures OpenedUpTo(s, whole, pays, a, currency, owners, k + 1)
  {
    whole := run;
    if DueAt(s, pays, k) && pays[k].to !in CommittedTables(Final(s, run)).accounts {
      assert IsHoused(s, pays, owners, k) && Inhabited(s, Final(s, run), currency, owners, pays[k].to);
      whole := OpensOne(s, run, pays, a, currency, owners, k, pays[k].to);
    }
    OneMoreCanBePaid(s, whole, pays, a, currency, owners, k);
  }

  lemma {:induction false} AllOpen(s: State, pays: seq<Request>, a: int, currency: string, owners: map<int, string>,
                                   k: nat)
    returns (run: seq<Event>)
    requires Initial(s) && Sound(s.base) && OutOf(pays, a) && a in s.base.accounts
    requires s.base.accounts[a].currency == currency && Housed(s, pays, currency, owners) && k <= |pays|
    ensures OpenedUpTo(s, run, pays, a, currency, owners, k)
    decreases k
  {
    if k == 0 {
      NothingToOpenYet(s, pays, a, currency, owners);
      run := [];
    } else {
      run := AllOpen(s, pays, a, currency, owners, k - 1);
      run := NextOpens(s, run, pays, a, currency, owners, k - 1);
    }
  }

  // ---------- All check at once ----------

  /** A payment that has passed its checks and not begun its transaction. */
  ghost predicate Poised(tx: Tx, pay: Request) {
    tx.req == pay && tx.checks == 0 && tx.held == {} && tx.ids.fromEntry != tx.ids.toEntry
  }

  /** The first `k` payments have checked, and no transaction has begun: nothing has left the account. */
  ghost predicate Checked(s: State, z: State, pays: seq<Request>, a: int, k: nat)
    requires a in s.base.accounts
  {
    && z.base == s.base
    && (forall t :: HasChecked(s, z, pays, k, t))
    && var c := CommittedTables(z);
       && a in c.accounts && c.accounts[a].balance == s.base.accounts[a].balance
       && forall t :: CanBePaid(s, c, pays, |pays|, t)
  }

  ghost predicate HasChecked(s: State, z: State, pays: seq<Request>, k: nat, t: int) {
    && (t in z.active <==> t < k && DueAt(s, pays, t))
    && (t in z.active ==> Poised(z.active[t], pays[t]))
    && (0 <= t < |pays| ==> t !in z.ended)
  }

  ghost predicate CheckedUpTo(s: State, run: seq<Event>, pays: seq<Request>, a: int, k: nat) {
    && OutOf(pays, a) && a in s.base.accounts && k <= |pays|
    && Fair(s, run, pays, a) && Checked(s, Final(s, run), pays, a, k)
  }

  lemma NobodyChecksYet(s: State, run: seq<Event>, pays: seq<Request>, a: int, currency: string,
                        owners: map<int, string>)
    requires Initial(s) && OpenedUpTo(s, run, pays, a, currency, owners, |pays|)
    ensures CheckedUpTo(s, run, pays, a, 0)
  {
    assert Inhabited(s, Final(s, run), currency, owners, a);
    forall t ensures HasChecked(s, Final(s, run), pays, 0, t) {}
  }

  /** Payment `k` is not due, or has joined those that are poised. */
  lemma OneMoreHasChecked(s: State, z: State, w: State, pays: seq<Request>, a: int, k: nat)
    requires a in s.base.accounts && Checked(s, z, pays, a, k) && k < |pays|
    requires if DueAt(s, pays, k)
             then k in w.active && Poised(w.active[k], pays[k])
                  && w == z.(active := z.active[k := w.active[k]], taken := w.taken)
             else w == z
    ensures Checked(s, w, pays, a, k + 1)
  {
    var next := k + 1;
    assert CommittedTables(w) == CommittedTables(z);
    forall t ensures HasChecked(s, w, pays, next, t) {
      assert HasChecked(s, z, pays, k, t);
    }
  }

  lemma NextChecks(s: State, run: seq<Event>, pays: seq<Request>, a: int, k: nat) returns (whole: seq<Event>)
    requires Initial(s) && CheckedUpTo(s, run, pays, a, k) && k < |pays|
    ensures CheckedUpTo(s, whole, pays, a, k + 1)
  {
    var z := Final(s, run);
    assert IsOutOf(pays[k], a);
    assert HasChecked(s, z, pays, k, k) && CanBePaid(s, CommittedTables(z), pays, |pays|, k);
    whole := run;
    if DueAt(s, pays, k) {
      whole := Checks(s, run, pays, a, k);
    }
    OneMoreHasChecked(s, z, Final(s, whole), pays, a, k);
  }

  lemma {:induction false} AllCheck(s: State, open: seq<Event>, pays: seq<Request>, a: int, k: nat)
    returns (run: seq<Event>)
    requires Initial(s) && CheckedUpTo(s, open, pays, a, 0) && k <= |pays|
    ensures CheckedUpTo(s, run, pays, a, k)
    decreases k
  {
    if k == 0 {
      run := open;
    } else {
      run := AllCheck(s, open, pays, a, k - 1);
      run := NextChecks(s, run, pays, a, k - 1);
    }
  }

  // ---------- Paying until the account is below zero ----------

  /** The payments from `k` on are poised, those before have committed, and their sum is gone from the account. */
  ghost predicate Line(s: State, z: State, pays: seq<Request>, a: int, k: nat)
    requires OutOf(pays, a) && a in s.base.accounts && k <= |pays|
  {
    && z.base == s.base
    && (forall t :: InLine(s, z, pays, k, t))
    && var c := CommittedTables(z);
       && a in c.accounts && c.accounts[a].balance == s.base.accounts[a].balance - Due(s, pays, k)
       && forall t :: PayeeIsThere(s, c, pays, t)
  }

  ghost predicate InLine(s: State, z: State, pays: seq<Request>, k: nat, t: int) {
    && (t in z.active <==> k <= t && DueAt(s, pays, t))
    && (t in z.active ==> Poised(z.active[t], pays[t]))
    && (0 <= t < k && DueAt(s, pays, t) ==> Lookup(z.ended, t) == Some(Committed))
  }

  ghost predicate PayeeIsThere(s: State, c: Tables, pays: seq<Request>, t: int) {
    DueAt(s, pays, t) ==> pays[t].to in c.accounts
  }

  lemma NobodyHasPaid(s: State, z: State, pays: seq<Request>, a: int)
    requires OutOf(pays, a) && a in s.base.accounts && Checked(s, z, pays, a, |pays|)
    ensures Line(s, z, pays, a, 0)
  {
    var c := CommittedTables(z);
    forall t ensures PayeeIsThere(s, c, pays, t) && InLine(s, z, pays, 0, t) {
      assert HasChecked(s, z, pays, |pays|, t) && CanBePaid(s, c, pays, |pays|, t);
    }
  }

  function Emptied(t: Tables, a: int): Tables
    requires a in t.accounts
  {
    t.(accounts := t.accounts[a := t.accounts[a].(balance := 0)])
  }

  lemma EmptyingServes(c: Tables, payee: int, ids: Ids)
    requires BalancesFit(c) && payee in c.accounts
    ensures Exec(Program(SetAccount(payee, 0), ids), c).Finished?
    ensures Exec(Program(SetAccount(payee, 0), ids), c).tables == Emptied(c, payee)
  {
    ProgramServes(c, SetAccount(payee, 0), ids);
  }

  /** While the payments wait, the owner of a payee sets its balance to zero: there is room for any payment. */
  lemma MakesRoom(s: State, run: seq<Event>, pays: seq<Request>, a: int, payee: int) returns (whole: seq<Event>)
    requires Initial(s) && Sound(s.base) && Fair(s, run, pays, a) && payee != a
    requires payee in CommittedTables(Final(s, run)).accounts
    requires forall t :: t in Final(s, run).active ==> Final(s, run).active[t].held == {}
    ensures Fair(s, whole, pays, a)
    ensures var z, w := Final(s, run), Final(s, whole);
            && w.active == z.active && w.base == z.base
            && (forall t :: t in z.ended ==> Lookup(w.ended, t) == Lookup(z.ended, t))
            && CommittedTables(w) == Emptied(CommittedTables(z), payee)
  {
    var ids := NewIds(Final(s, run).taken);
    CommittedIsSound(s, run);
    EmptyingServes(CommittedTables(Final(s, run)), payee, ids);
    whole := RunsAside(s, run, pays, a, SetAccount(payee, 0), ids);
  }

  lemma ReservedIsNew(s: State, run: seq<Event>, t: int)
    requires Initial(s) && Legal(s, run) && t in Final(s, run).active
    ensures var z := Final(s, run);
            && Acceptable(z.active[t].req)
            && Creating(Program(z.active[t].req, z.active[t].ids)) !! IdsIn(CommittedTables(z))
  {
    RunsKeep(s, run);
    assert Shaped(Final(s, run).active[t]);
  }

  /** The account is there with `amount` less, and no account has gone. */
  ghost predicate Paid(c: Tables, d: Tables, a: int, amount: int) {
    && a in c.accounts && a in d.accounts && d.accounts[a].balance == c.accounts[a].balance - amount
    && c.accounts.Keys <= d.accounts.Keys
  }

  /** With room at the payee a poised payment commits, even if it takes the account below zero. */
  lemma PaysWithRoom(s: State, run: seq<Event>, pays: seq<Request>, a: int, t: int) returns (whole: seq<Event>)
    requires Initial(s) && Sound(s.base) && Fair(s, run, pays, a) && 0 <= t < |pays| && IsOutOf(pays[t], a)
    requires forall u :: u in Final(s, run).active ==> Final(s, run).active[u].held == {}
    requires t in Final(s, run).active && Poised(Final(s, run).active[t], pays[t])
    requires var c := CommittedTables(Final(s, run));
             && a in c.accounts && c.accounts[a].balance >= 0
             && pays[t].to in c.accounts && c.accounts[pays[t].to].balance == 0
    ensures Fair(s, whole, pays, a)
    ensures var z, w := Final(s, run), Final(s, whole);
            && w.active == z.active - {t} && w.base == z.base && w.ended == z.ended[t := Committed]
            && Paid(CommittedTables(z), CommittedTables(w), a, pays[t].amount)
  {
    var y := Final(s, run);
    CommittedIsSound(s, run);
    ReservedIsNew(s, run, t);
    PassedPaymentFits(CommittedTables(y), pays[t], y.active[t].ids);
    assert Ready(y, t);
    var more := RunsToCommit(s, run, t);
    FairGrows(s, run, more, pays, a);
    whole := run + more;
  }

  /** A poised payment can be made to commit, as long as the account was not below zero before. */
  lemma PaysOne(s: State, run: seq<Event>, pays: seq<Request>, a: int, t: int) returns (whole: seq<Event>)
    requires Initial(s) && Sound(s.base) && Fair(s, run, pays, a) && 0 <= t < |pays| && IsOutOf(pays[t], a)
    requires forall u :: u in Final(s, run).active ==> Final(s, run).active[u].held == {}
    requires t in Final(s, run).active && Poised(Final(s, run).active[t], pays[t])
    requires var c := CommittedTables(Final(s, run));
             a in c.accounts && c.accounts[a].balance >= 0 && pays[t].to in c.accounts
    ensures Fair(s, whole, pays, a)
    ensures var z, w := Final(s, run), Final(s, whole);
            && w.active == z.active - {t} && w.base == z.base
            && Lookup(w.ended, t) == Some(Committed)
            && (forall u :: u in z.ended && u != t ==> Lookup(w.ended, u) == Lookup(z.ended, u))
            && Paid(CommittedTables(z), CommittedTables(w), a, pays[t].amount)
  {
    var mid := MakesRoom(s, run, pays, a, pays[t].to);
    whole := PaysWithRoom(s, mid, pays, a, t);
  }

  lemma LineMoves(s: State, z: State, w: State, pays: seq<Request>, a: int, k: nat)
    requires OutOf(pays, a) && a in s.base.accounts && k < |pays| && Line(s, z, pays, a, k)
    requires DueAt(s, pays, k) && w.active == z.active - {k} && w.base == z.base
    requires Lookup(w.ended, k) == Some(Committed)
    requires forall u :: u in z.ended && u != k ==> Lookup(w.ended, u) == Lookup(z.ended, u)
    requires Paid(CommittedTables(z), CommittedTables(w), a, pays[k].amount)
    ensures Line(s, w, pays, a, k + 1)
  {
    var next := k + 1;
    forall t ensures InLine(s, w, pays, next, t) {
      assert InLine(s, z, pays, k, t);
    }
    forall t ensures PayeeIsThere(s, CommittedTables(w), pays, t) {
      assert PayeeIsThere(s, CommittedTables(z), pays, t);
    }
  }

  lemma LineSkips(s: State, z: State, pays: seq<Request>, a: int, k: nat)
    requires OutOf(pays, a) && a in s.base.accounts && k < |pays| && Line(s, z, pays, a, k)
    requires !DueAt(s, pays, k)
    ensures Line(s, z, pays, a, k + 1)
  {
    assert IsOutOf(pays[k], a);
    var next := k + 1;
    forall t ensures InLine(s, z, pays, next, t) {
      assert InLine(s, z, pays, k, t);
    }
  }

  lemma NobodyHolds(s: State, z: State, pays: seq<Request>, a: int, k: nat)
    requires OutOf(pays, a) && a in s.base.accounts && k <= |pays| && Line(s, z, pays, a, k)
    ensures forall t :: t in z.active ==> z.active[t].held == {}
  {
    forall t | t in z.active ensures z.active[t].held == {} {
      assert InLine(s, z, pays, k, t);
    }
  }

  /** A run of the payments in which it is the turn of payment `k`. */
  ghost predicate Turn(s: State, run: seq<Event>, pays: seq<Request>, a: int, k: nat) {
    && OutOf(pays, a) && a in s.base.accounts && k <= |pays|
    && Fair(s, run, pays, a) && Line(s, Final(s, run), pays, a, k)
  }

  lemma NextPays(s: State, run: seq<Event>, pays: seq<Request>, a: int, k: nat) returns (whole: seq<Event>)
    requires Initial(s) && Sound(s.base) && Turn(s, run, pays, a, k)
    requires k < |pays| && Due(s, pays, k) <= s.base.accounts[a].balance
    ensures Turn(s, whole, pays, a, k + 1)
  {
    assert IsOutOf(pays[k], a);
    whole := run;
    if DueAt(s, pays, k) {
      assert InLine(s, Final(s, run), pays, k, k) && PayeeIsThere(s, CommittedTables(Final(s, run)), pays, k);
      NobodyHolds(s, Final(s, run), pays, a, k);
      whole := PaysOne(s, run, pays, a, k);
      LineMoves(s, Final(s, run), Final(s, whole), pays, a, k);
    } else {
      LineSkips(s, Final(s, run), pays, a, k);
    }
  }

  /** Those that have had their turn come to more than the account held. */
  predicate Exceeded(s: State, pays: seq<Request>, a: int, k: nat)
    requires OutOf(pays, a) && a in s.base.accounts && k <= |pays|
  {
    Due(s, pays, k) > s.base.accounts[a].balance
  }

  /** One payment after another commits, until the account is below zero. */
  lemma {:induction false} PaysUntilBelow(s: State, run: seq<Event>, pays: seq<Request>, a: int, k: nat)
    returns (whole: seq<Event>, m: nat)
    requires Initial(s) && Sound(s.base) && Turn(s, run, pays, a, k) && Exceeded(s, pays, a, |pays|)
    ensures Turn(s, whole, pays, a, m) && Exceeded(s, pays, a, m)
    decreases |pays| - k
  {
    if Exceeded(s, pays, a, k) {
      whole, m := run, k;
    } else {
      var next := NextPays(s, run, pays, a, k);
      whole, m := PaysUntilBelow(s, next, pays, a, k + 1);
    }
  }

  // ---------- Exactly when ----------

  /** In this run of the payments the account ends below zero. */
  ghost predicate Overdraws(s: State, run: seq<Event>, pays: seq<Request>, a: int) {
    && Legal(s, run) && OnlyThese(run, pays, a)
    && a in CommittedTables(Final(s, run)).accounts && CommittedTables(Final(s, run)).accounts[a].balance < 0
  }

  /**
   * Overdraft, exactly. Of any payments out of one account, with nothing else touching it, some run ends
   * with the account below zero if and only if those that may pass at the start, each by itself, come to more
   * than the balance. A payee may be missing at the start, if there is a user to open it.
   */
  lemma OverdraftIsExact(s: State, pays: seq<Request>, a: int, owners: map<int, string>)
    requires Initial(s) && Sound(s.base) && a in s.base.accounts && OutOf(pays, a)
    requires Housed(s, pays, s.base.accounts[a].currency, owners)
    ensures (exists run :: Overdraws(s, run, pays, a)) <==> Due(s, pays, |pays|) > s.base.accounts[a].balance
  {
    if Due(s, pays, |pays|) > s.base.accounts[a].balance {
      var run, m := OverdraftHappens(s, pays, a, owners);
      assert Overdraws(s, run, pays, a);
    } else {
      forall run ensures !Overdraws(s, run, pays, a) {
        if Overdraws(s, run, pays, a) {
          BalanceAfterThese(s, run, pays, a);
        }
      }
    }
  }

  lemma OverdraftHappens(s: State, pays: seq<Request>, a: int, owners: map<int, string>)
    returns (run: seq<Event>, m: nat)
    requires Initial(s) && Sound(s.base) && a in s.base.accounts && OutOf(pays, a)
    requires Housed(s, pays, s.base.accounts[a].currency, owners) && Exceeded(s, pays, a, |pays|)
    ensures Turn(s, run, pays, a, m) && Exceeded(s, pays, a, m)
  {
    var currency := s.base.accounts[a].currency;
    var open := AllOpen(s, pays, a, currency, owners, |pays|);
    NobodyChecksYet(s, open, pays, a, currency, owners);
    var checked := AllCheck(s, open, pays, a, |pays|);
    NobodyHasPaid(s, Final(s, checked), pays, a);
    run, m := PaysUntilBelow(s, checked, pays, a, 0);
  }

  /**
   * The smallest case: whenever an account covers a payment once but not twice, the same payment asked for twice
   * at once can commit both times and leave the account below zero.
   */
  lemma OverlappingPaymentsOverdraw(s: State, pay: Request) returns (run: seq<Event>)
    requires Initial(s) && Sound(s.base) && Acceptable(pay) && pay.Pay? && PassesChecks(s.base, pay)
    requires s.base.accounts[pay.from].balance < 2 * pay.amount
    ensures Legal(s, run) && AllFromHandlers(run)
    ensures var z := Final(s, run);
            && z.active == map[]
            && Lookup(z.ended, 0) == Some(Committed) && Lookup(z.ended, 1) == Some(Committed)
            && pay.from in z.tables.accounts
            && z.tables.accounts[pay.from].balance == s.base.accounts[pay.from].balance - 2 * pay.amount < 0
  {
    var pays := [pay, pay];
    assert Due(s, pays, 0) == 0 && Due(s, pays, 1) == pay.amount && Due(s, pays, 2) == 2 * pay.amount;
    var m;
    assert Housed(s, pays, s.base.accounts[pay.from].currency, map[]) by {
      forall t ensures IsHoused(s, pays, map[], t) {}
    }
    run, m := OverdraftHappens(s, pays, pay.from, map[]);
    assert m == 2;
    assert InLine(s, Final(s, run), pays, 2, 0) && InLine(s, Final(s, run), pays, 2, 1);
    var active: map<int, Tx>, none: map<int, Tx> := Final(s, run).active, map[];
    forall t ensures Lookup(active, t) == Lookup(none, t) {
      assert InLine(s, Final(s, run), pays, 2, t);
    }
    SameMap(active, none);
    RunsGiveGoodLogs(s, run);
    Serializable(s, run);
  }
}
