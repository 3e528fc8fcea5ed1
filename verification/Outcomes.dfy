/** What the commit log says about the events of a run: who committed, in which order, and with which request. */
module Outcomes {
  import opened Schema
  import opened Requests
  import opened Engine

  /** The transactions of the log, in order. */
  function Committers(log: seq<Record>): seq<int> {
    seq(|log|, i requires 0 <= i < |log| => log[i].tx)
  }

  /** The transactions whose COMMIT is among the events, in the order of these events. */
  function Finishes(run: seq<Event>): seq<int> {
    if run == [] then []
    else Finishes(run[..|run| - 1]) + (if run[|run| - 1].Finish? then [run[|run| - 1].t] else [])
  }

  ghost predicate Arrived(run: seq<Event>, t: int, req: Request, ids: Ids) {
    Arrive(t, req, ids) in run
  }

  /** The next statement of `t` is a DELETE that will match no row. */
  ghost predicate DeletesNothing(z: State, t: int) {
    && t in z.active && z.active[t].todo != []
    && z.active[t].todo[0].RemoveAccount? && z.active[t].todo[0].account !in Visible(z, t).accounts
  }

  /** At some point of the run `t` ended with such a DELETE. */
  ghost predicate DeletedNothing(s: State, run: seq<Event>, t: int)
    requires Legal(s, run)
  {
    run != [] &&
    (DeletedNothing(s, run[..|run| - 1], t)
     || (run[|run| - 1] == Run(t) && DeletesNothing(Final(s, run[..|run| - 1]), t)))
  }

  /** A transaction is in progress or has ended; each record belongs to one that committed, and to no other record. */
  ghost predicate Booked(z: State) {
    && (forall t :: t in z.active ==> t !in z.ended)
    && (forall i :: 0 <= i < |z.log| ==> Lookup(z.ended, z.log[i].tx) == Some(Committed))
    && (forall i, j :: 0 <= i < j < |z.log| ==> z.log[i].tx != z.log[j].tx)
  }

  ghost predicate AllArrived(run: seq<Event>, z: State) {
    && (forall t :: t in z.active ==> Arrived(run, t, z.active[t].req, z.active[t].ids))
    && (forall i :: 0 <= i < |z.log| ==> Arrived(run, z.log[i].tx, z.log[i].req, z.log[i].ids))
  }

  /** The log grows by the record of `t` when `e` is its COMMIT, and otherwise not at all. */
  lemma LogFollows(z: State, e: Event)
    requires Enabled(z, e)
    ensures After(z, e).log == z.log + (if e.Finish? then [CommitRecord(z, e.t)] else [])
  {}

  /** Outcomes are given once, and `Committed` only at a COMMIT or by a DELETE of nothing. */
  lemma OutcomeFollows(z: State, e: Event, t: int)
    requires Enabled(z, e) && Booked(z)
    ensures t in z.ended ==> Lookup(After(z, e).ended, t) == Lookup(z.ended, t)
    ensures t !in z.ended ==>
              (Lookup(After(z, e).ended, t) == Some(Committed) <==>
               e == Finish(t) || (e == Run(t) && DeletesNothing(z, t)))
    ensures t in After(z, e).active ==> t !in After(z, e).ended
  {}

  lemma EventIsBooked(z: State, e: Event)
    requires Enabled(z, e) && Booked(z)
    ensures Booked(After(z, e))
  {
    var w := After(z, e);
    LogFollows(z, e);
    forall t
      ensures t in w.active ==> t !in w.ended
      ensures Lookup(z.ended, t) == Some(Committed) || e == Finish(t) ==> Lookup(w.ended, t) == Some(Committed)
    {
      OutcomeFollows(z, e, t);
    }
  }

  lemma EventArrived(run: seq<Event>, z: State, e: Event)
    requires Enabled(z, e) && AllArrived(run, z)
    ensures AllArrived(run + [e], After(z, e))
  {
    var w := After(z, e);
    LogFollows(z, e);
    forall t | t in w.active
      ensures Arrived(run + [e], t, w.active[t].req, w.active[t].ids)
    {
      if e.Arrive? && e.t == t {
        assert (run + [e])[|run|] == e;
      } else {
        assert w.active[t].req == z.active[t].req && w.active[t].ids == z.active[t].ids;
      }
    }
  }

  /** In every run each record is that of a request that arrived, and no two are of one transaction. */
  lemma {:induction false} RunsAreBooked(s: State, run: seq<Event>)
    requires Initial(s) && Legal(s, run)
    ensures Booked(Final(s, run)) && AllArrived(run, Final(s, run))
  {
    if run != [] {
      var front, e := run[..|run| - 1], run[|run| - 1];
      RunsAreBooked(s, front);
      EventIsBooked(Final(s, front), e);
      EventArrived(front, Final(s, front), e);
      assert front + [e] == run;
    }
  }

  /** The log lists the transactions in the order of their COMMITs. */
  lemma {:induction false} LogIsInOrder(s: State, run: seq<Event>)
    requires Initial(s) && Legal(s, run)
    ensures Committers(Final(s, run).log) == Finishes(run)
  {
    if run != [] {
      LogIsInOrder(s, run[..|run| - 1]);
      LogFollows(Final(s, run[..|run| - 1]), run[|run| - 1]);
    }
  }

  /** A transaction has committed if and only if the log has its record or it deleted nothing, and never both. */
  lemma {:induction false} CommitsAreLogged(s: State, run: seq<Event>, t: int)
    requires Initial(s) && Legal(s, run)
    ensures Lookup(Final(s, run).ended, t) == Some(Committed) <==>
            t in Committers(Final(s, run).log) || DeletedNothing(s, run, t)
    ensures !(t in Committers(Final(s, run).log) && DeletedNothing(s, run, t))
  {
    if run != [] {
      var front, e := run[..|run| - 1], run[|run| - 1];
      var z := Final(s, front);
      CommitsAreLogged(s, front, t);
      RunsAreBooked(s, front);
      OutcomeFollows(z, e, t);
      LogFollows(z, e);
      CommittersSnoc(z, e, t);
    }
  }

  lemma CommittersSnoc(z: State, e: Event, t: int)
    requires Enabled(z, e)
    ensures t in Committers(After(z, e).log) <==> t in Committers(z.log) || e == Finish(t)
  {
    LogFollows(z, e);
    var xs, ys := Committers(z.log), Committers(After(z, e).log);
    assert ys == xs + (if e.Finish? then [e.t] else []);
  }

  /**
   * The log is that of the committed transactions: they are listed once each, in the order of their COMMITs,
   * with the requests that arrived; none is missing but those that deleted nothing, and none is there
   * that was refused, cancelled or rolled back, or is still in progress.
   */
  ghost predicate LogIsOfTheCommitted(s: State, run: seq<Event>)
    requires Legal(s, run)
  {
    var z := Final(s, run);
    && Committers(z.log) == Finishes(run)
    && (forall i, j :: 0 <= i < j < |z.log| ==> z.log[i].tx != z.log[j].tx)
    && (forall i :: 0 <= i < |z.log| ==> Arrived(run, z.log[i].tx, z.log[i].req, z.log[i].ids))
    && (forall t :: t in Committers(z.log) ==> t !in z.active && !DeletedNothing(s, run, t))
    && (forall t :: Lookup(z.ended, t) == Some(Committed) <==> t in Committers(z.log) || DeletedNothing(s, run, t))
  }

  lemma LogTellsWhatCommitted(s: State, run: seq<Event>)
    requires Initial(s) && Legal(s, run)
    ensures LogIsOfTheCommitted(s, run)
  {
    RunsAreBooked(s, run);
    LogIsInOrder(s, run);
    forall t
      ensures t in Committers(Final(s, run).log) ==> t !in Final(s, run).active && !DeletedNothing(s, run, t)
      ensures Lookup(Final(s, run).ended, t) == Some(Committed) <==>
              t in Committers(Final(s, run).log) || DeletedNothing(s, run, t)
    {
      CommitsAreLogged(s, run, t);
    }
  }
}
