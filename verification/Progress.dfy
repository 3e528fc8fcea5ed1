/** Some transaction can always go on, and all of them come to an end. */
module Progress {
  import opened Schema
  import opened Engine
  import opened Isolation
  import opened Commits
  import opened History
  import opened Deadlock
  import opened Sums

  /** `e` moves a transaction forward of its own accord. */
  ghost predicate Forward(s: State, e: Event) {
    Enabled(s, e) && (e.Look? || e.Run? || e.Finish?)
  }

  ghost function Above(s: State, r: Rank): set<int> {
    set u | u in s.active && Below(r, RankOf(s.active[u]))
  }

  /** From any transaction, whoever blocks it, whoever blocks that one, and so on, ends at one that can run. */
  lemma {:induction false} SomeoneCanRun(s: State, t: int) returns (e: Event)
    requires LocksSound(s) && AllOrderly(s) && t in s.active
    requires forall u :: u in s.active ==> TxChecked(s.base, s.log, s.active[u])
    ensures Forward(s, e)
    decreases Above(s, RankOf(s.active[t]))
  {
    var tx := s.active[t];
    if tx.checks > 0 {
      e := Look(t);
    } else if tx.todo == [] {
      e := Finish(t);
    } else if !Blocked(s, t) {
      e := Run(t);
    } else {
      var u :| WaitsFor(s, t, u);
      WaitingClimbs(s, t, u);
      assert u in Above(s, RankOf(tx)) && u !in Above(s, RankOf(s.active[u]));
      forall w | w in Above(s, RankOf(s.active[u])) ensures w in Above(s, RankOf(tx)) {
        assert Below(RankOf(tx), RankOf(s.active[w]));
      }
      e := SomeoneCanRun(s, u);
    }
  }

  lemma NonEmptyHasKey<V>(m: map<int, V>)
    ensures m == map[] || exists k :: k in m
  {
    if forall k :: k !in m {
      SameMap(m, map[]);
    }
  }

  /** Progress. While any transaction is unfinished, some transaction can take its next step. */
  lemma AlwaysProgress(s: State, run: seq<Event>)
    requires Initial(s) && Legal(s, run) && Final(s, run).active != map[]
    ensures exists e :: Forward(Final(s, run), e)
  {
    var z := Final(s, run);
    RunsKeep(s, run);
    RunsStayOrderly(s, run);
    RunsChronicle(s, run);
    forall u | u in z.active ensures TxChecked(z.base, z.log, z.active[u]) {
      assert Pending(z.base, z.log, z.active[u]);
    }
    NonEmptyHasKey(z.active);
    var t :| t in z.active;
    var e := SomeoneCanRun(z, t);
  }

  // ---------- Termination ----------

  function Remaining(tx: Tx): int {
    tx.checks + |tx.todo| + 1
  }

  function RemainingOf(s: State): map<int, int> {
    map t | t in s.active :: Remaining(s.active[t])
  }

  /** Checks and statements still to come, and one ending for each transaction. */
  ghost function Measure(s: State): int {
    Sum(RemainingOf(s))
  }

  lemma {:induction false} SumOfPositives(m: map<int, int>)
    requires forall k :: k in m ==> m[k] > 0
    ensures Sum(m) >= 0
    decreases m.Keys
  {
    if exists k :: k in m {
      SumOfPositives(m - {Pick(m)});
    }
  }

  lemma MeasureWithout(s: State, z: State, t: int)
    requires t in s.active && z.active == s.active - {t}
    ensures Measure(z) < Measure(s)
  {
    assert RemainingOf(z) == RemainingOf(s) - {t};
    SumWithout(RemainingOf(s), t);
  }

  lemma MeasureWith(s: State, z: State, t: int, tx: Tx)
    requires t in s.active && z.active == s.active[t := tx] && Remaining(tx) < Remaining(s.active[t])
    ensures Measure(z) < Measure(s)
  {
    assert RemainingOf(z) == RemainingOf(s)[t := Remaining(tx)];
    SumWith(RemainingOf(s), t, Remaining(tx));
  }

  /** Every event but an arrival uses up some of what remains. */
  lemma EventsConsume(s: State, e: Event)
    requires Enabled(s, e) && !e.Arrive? && TxChecked(s.base, s.log, s.active[e.t])
    ensures Measure(After(s, e)) < Measure(s)
  {
    var z, t := After(s, e), e.t;
    if t in z.active {
      MeasureWith(s, z, t, z.active[t]);
    } else {
      MeasureWithout(s, z, t);
    }
  }

  /**
   * Termination. Once no new requests arrive, a schedule has at most as many steps as there were statements left.
   */
  lemma {:induction false} SchedulesEnd(s: State, run: seq<Event>, k: nat)
    requires Initial(s) && Legal(s, run) && k <= |run| && forall i :: k <= i < |run| ==> !run[i].Arrive?
    ensures Legal(s, run[..k])
    ensures 0 <= Measure(Final(s, run)) <= Measure(Final(s, run[..k])) - (|run| - k)
  {
    SumOfPositives(RemainingOf(Final(s, run)));
    if |run| == k {
      assert run[..k] == run;
    } else {
      var front := run[..|run| - 1];
      SchedulesEnd(s, front, k);
      assert front[..k] == run[..k];
      RunsChronicle(s, front);
      var e := run[|run| - 1];
      assert Pending(Final(s, front).base, Final(s, front).log, Final(s, front).active[e.t]);
      EventsConsume(Final(s, front), e);
    }
  }

  /** A request that has arrived is in progress or has ended. */
  ghost predicate Accounted(s: State, t: int) {
    t in s.active || t in s.ended
  }

  lemma {:induction false} NobodyIsLost(s: State, run: seq<Event>, i: nat)
    requires Initial(s) && Legal(s, run) && i < |run| && run[i].Arrive?
    ensures Accounted(Final(s, run), run[i].t)
  {
    var front := run[..|run| - 1];
    if i < |run| - 1 {
      NobodyIsLost(s, front, i);
      StaysAccounted(Final(s, front), run[|run| - 1], run[i].t);
    }
  }

  lemma StaysAccounted(s: State, e: Event, t: int)
    requires Enabled(s, e) && Accounted(s, t)
    ensures Accounted(After(s, e), t)
  {}

  /** When no transaction can go forward any more, each one that arrived has committed or been rolled back. */
  lemma MaximalSchedulesFinish(s: State, run: seq<Event>, i: nat)
    requires Initial(s) && Legal(s, run) && i < |run| && run[i].Arrive?
    requires forall e :: !Forward(Final(s, run), e)
    ensures Final(s, run).active == map[]
    ensures run[i].t in Final(s, run).ended
  {
    if Final(s, run).active != map[] {
      AlwaysProgress(s, run);
    }
    NobodyIsLost(s, run, i);
  }
}
