/** No cycle of waiting transactions, ever. */
module Deadlock {
  import opened Schema
  import opened Statements
  import opened Locks
  import opened Requests
  import opened Engine
  import opened Isolation
  import opened Commits

  /** The account whose balance a statement writes under a NO KEY UPDATE lock. */
  function Target(op: Op): Option<int> {
    match op
    case AddBalance(a, _) => Some(a)
    case SetBalance(a, _) => Some(a)
    case _ => None
  }

  predicate Exclusive(op: Op) {
    op.RemoveAccount? || op.PutAccount?
  }

  /**
   * The order in which a transaction takes its locks. Balance locks come last and in ascending order of id;
   * a statement that wants an exclusive lock stands alone.
   */
  ghost predicate Orderly(tx: Tx) {
    && (forall i, j :: 0 <= i < j < |tx.todo| && Target(tx.todo[i]).Some? ==>
          Target(tx.todo[j]).Some? && Target(tx.todo[i]).value <= Target(tx.todo[j]).value)
    && (forall a, i :: Lock(RowOf(a), NoKeyUpdate) in tx.held && 0 <= i < |tx.todo| ==>
          Target(tx.todo[i]).Some? && a <= Target(tx.todo[i]).value)
    && (forall i :: 0 <= i < |tx.todo| && Exclusive(tx.todo[i]) ==> |tx.todo| == 1 && tx.held == {})
    && (forall l :: l in tx.held && l.mode.Update? ==> tx.todo == [])
    && (forall l :: l in tx.held ==> !l.mode.Share?)
  }

  ghost predicate AllOrderly(s: State) {
    forall t :: t in s.active ==> Orderly(s.active[t])
  }

  /** Requests start out orderly: this is where the id order of `TransferTx` matters. */
  lemma FreshIsOrderly(req: Request, ids: Ids)
    requires Acceptable(req)
    ensures Orderly(Fresh(req, ids))
  {}

  lemma StepIsOrderly(tx: Tx, seen: Tables, after: Tables)
    requires Orderly(tx) && tx.todo != []
    ensures Orderly(Advanced(tx, seen, after))
  {
    var tx' := Advanced(tx, seen, after);
    assert forall i :: 0 <= i < |tx'.todo| ==> tx'.todo[i] == tx.todo[i + 1];
    if Exclusive(tx.todo[0]) {
      assert tx'.todo == [];
    }
  }

  lemma {:induction false} RunsStayOrderly(s: State, run: seq<Event>)
    requires Initial(s) && Legal(s, run)
    ensures AllOrderly(Final(s, run))
  {
    if run != [] {
      RunsStayOrderly(s, run[..|run| - 1]);
      EventStaysOrderly(Final(s, run[..|run| - 1]), run[|run| - 1]);
    }
  }

  lemma EventStaysOrderly(s: State, e: Event)
    requires AllOrderly(s) && Enabled(s, e)
    ensures AllOrderly(After(s, e))
  {
    if e.Arrive? {
      FreshIsOrderly(e.req, e.ids);
      JoiningIsOrderly(s, After(s, e), e.t, Fresh(e.req, e.ids));
    } else if e.Run? {
      RunIsOrderly(s, e.t);
    }
  }

  lemma JoiningIsOrderly(s: State, z: State, t: int, tx: Tx)
    requires AllOrderly(s) && Orderly(tx) && z.active == s.active[t := tx]
    ensures AllOrderly(z)
  {}

  lemma RunIsOrderly(s: State, t: int)
    requires AllOrderly(s) && t in s.active && s.active[t].todo != []
    ensures AllOrderly(Execute(s, t))
  {
    var op, seen := s.active[t].todo[0], Visible(s, t);
    if Apply(op, seen).Some? {
      StepIsOrderly(s.active[t], seen, Apply(op, seen).value);
    }
  }

  // ---------- Rank ----------

  datatype Rank = Rank(level: int, account: int)

  predicate Below(x: Rank, y: Rank) {
    x.level < y.level || (x.level == y.level && x.account < y.account)
  }

  /**
   * First those that want a row or key for themselves, then key-share, then balances by id,
   * then those done waiting.
   */
  function RankOf(tx: Tx): Rank {
    if tx.todo == [] then Rank(3, 0)
    else if Exclusive(tx.todo[0]) then Rank(0, 0)
    else match Target(tx.todo[0])
      case None => Rank(1, 0)
      case Some(a) => if Lock(RowOf(a), NoKeyUpdate) in tx.held then Rank(3, 0) else Rank(2, a)
  }

  /** Waiting goes uphill. */
  lemma WaitingClimbs(s: State, t: int, u: int)
    requires LocksSound(s) && AllOrderly(s) && WaitsFor(s, t, u)
    ensures Below(RankOf(s.active[t]), RankOf(s.active[u]))
  {
    var x, y := s.active[t], s.active[u];
    var l, m :| l in Wanted(x.todo[0], Visible(s, t)) && m in y.held && Clash(l, m);
    assert Orderly(x) && Orderly(y);
    if !Exclusive(x.todo[0]) && y.todo != [] {
      assert m.mode.NoKeyUpdate? && l.mode.NoKeyUpdate?;
      var a := Target(x.todo[0]).value;
      assert l == m == Lock(RowOf(a), NoKeyUpdate);
      assert l !in x.held;
      assert Target(y.todo[0]).Some? && a <= Target(y.todo[0]).value;
    }
  }

  /** A walk along waiting edges. */
  ghost predicate WaitChain(s: State, chain: seq<int>) {
    && |chain| >= 2
    && forall i :: 0 <= i < |chain| - 1 ==> WaitsFor(s, chain[i], chain[i + 1])
  }

  lemma {:induction false} ChainsClimb(s: State, chain: seq<int>)
    requires LocksSound(s) && AllOrderly(s) && WaitChain(s, chain)
    ensures chain[0] in s.active && chain[|chain| - 1] in s.active
    ensures Below(RankOf(s.active[chain[0]]), RankOf(s.active[chain[|chain| - 1]]))
  {
    var k := |chain| - 2;
    assert WaitsFor(s, chain[k], chain[k + 1]);
    WaitingClimbs(s, chain[k], chain[k + 1]);
    if k > 0 {
      ChainsClimb(s, chain[..|chain| - 1]);
    }
  }

  /**
   * Deadlock freedom. In every state that any requests can reach together, following waiting transactions
   * never leads back to where one started.
   */
  lemma NoDeadlock(s: State, run: seq<Event>, chain: seq<int>)
    requires Initial(s) && Legal(s, run) && WaitChain(Final(s, run), chain)
    ensures chain[0] != chain[|chain| - 1]
  {
    RunsKeep(s, run);
    RunsStayOrderly(s, run);
    ChainsClimb(Final(s, run), chain);
  }
}
