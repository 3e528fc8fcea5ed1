/** What becomes of the tasks, over whole runs: who is attended to, who is left out, and how orphans end. */
module Queue {
  import opened Schema
  import opened Onboarding
  import opened OnboardingProofs

  ghost predicate HasTask(z: State, name: string) {
    exists k :: k in z.queue && z.queue[k].username == name
  }

  ghost predicate HasCode(z: State, name: string) {
    exists c :: c in z.codes && z.codes[c].username == name
  }

  /** A task is live, a code was issued, or a task was retried until it had failed more often than it may. */
  ghost predicate Attended(z: State, name: string) {
    HasTask(z, name) || HasCode(z, name) || Exhausted(name) in z.archived
  }

  // ---------- Enqueued before committed ----------

  /** Some registration with this name has put its task in the queue. */
  ghost predicate EnqueuedFor(s: State, run: seq<Event>, name: string)
    requires Legal(s, run)
  {
    run != [] &&
    (EnqueuedFor(s, run[..|run| - 1], name)
     || (run[|run| - 1].Enqueue? && Final(s, run[..|run| - 1]).registering[run[|run| - 1].t].username == name))
  }

  lemma {:induction false} EnqueuedIsRemembered(s: State, run: seq<Event>, name: string)
    requires Initial(s) && Legal(s, run)
    ensures name in Final(s, run).everEnqueued <==> EnqueuedFor(s, run, name)
  {
    if run != [] {
      var z, e := Final(s, run[..|run| - 1]), run[|run| - 1];
      EnqueuedIsRemembered(s, run[..|run| - 1], name);
      OnlyEnqueueEnqueues(z, e);
    }
  }

  lemma OnlyEnqueueEnqueues(z: State, e: Event)
    requires Enabled(z, e)
    ensures After(z, e).everEnqueued == z.everEnqueued + (if e.Enqueue? then {z.registering[e.t].username} else {})
  {}

  /** By the time a user is committed a task for that name has been enqueued; and every code names a committed user. */
  lemma RegisteredMeansEnqueued(s: State, run: seq<Event>)
    requires Initial(s) && Legal(s, run)
    ensures forall u :: u in Final(s, run).users ==> EnqueuedFor(s, run, u)
    ensures forall c :: c in Final(s, run).codes ==> Final(s, run).codes[c].username in Final(s, run).users
  {
    RunsKeep(s, run);
    forall u | u in Final(s, run).users
      ensures EnqueuedFor(s, run, u)
    {
      EnqueuedIsRemembered(s, run, u);
    }
  }

  // ---------- Nobody is forgotten, unless the worker looks too early ----------

  /** The worker looks for a user of this name who is not committed. */
  ghost predicate LooksEarly(z: State, e: Event, name: string) {
    e.Fetch? && e.task in z.queue && z.queue[e.task].username == name && name !in z.users
  }

  /** It has done so at some point of the run. */
  ghost predicate LookedEarly(s: State, run: seq<Event>, name: string)
    requires Legal(s, run)
  {
    run != [] &&
    (LookedEarly(s, run[..|run| - 1], name) || LooksEarly(Final(s, run[..|run| - 1]), run[|run| - 1], name))
  }

  /** Task `k` stays with its user, or has left a code or a mark behind. */
  lemma TaskLeavesSomething(z: State, e: Event, k: int)
    requires Enabled(z, e) && k in z.queue && !LooksEarly(z, e, z.queue[k].username)
    ensures Attended(After(z, e), z.queue[k].username)
  {
    var w, name := After(z, e), z.queue[k].username;
    TasksLeaveOnlyWhenDone(z, e, k);
    if k in w.queue {
      TasksKeepTheirUsers(z, e, k);
      assert HasTask(w, name);
    } else if e.IssueCode? {
      CodesGoToTheAddressRead(z, e);
      assert HasCode(w, name);
    }
  }

  lemma TasksKeepTheirUsers(z: State, e: Event, k: int)
    requires Enabled(z, e) && k in z.queue && k in After(z, e).queue
    ensures After(z, e).queue[k].username == z.queue[k].username
  {
    if !e.Fetch? && !e.IssueCode? && !e.FailTask? {
      OthersLeaveTasks(z, e, k);
    }
  }

  lemma ArchiveGrows(z: State, e: Event)
    requires Enabled(z, e)
    ensures z.archived <= After(z, e).archived
  {}

  lemma AttendedStays(z: State, e: Event, name: string)
    requires Enabled(z, e) && !LooksEarly(z, e, name) && Attended(z, name)
    ensures Attended(After(z, e), name)
  {
    if k :| k in z.queue && z.queue[k].username == name {
      TaskLeavesSomething(z, e, k);
    } else if c :| c in z.codes && z.codes[c].username == name {
      CodesKeepTheirUsers(z, e);
      assert HasCode(After(z, e), name);
    } else {
      ArchiveGrows(z, e);
    }
  }

  /** A committed user of this name, or a registration that has enqueued, is attended to. */
  ghost predicate NameAttended(z: State, name: string) {
    && (name in z.users ==> Attended(z, name))
    && (forall r :: r in z.registering && z.registering[r].enqueued && z.registering[r].username == name ==>
          Attended(z, name))
  }

  /** Where a new user or a registration that has enqueued comes from. */
  lemma Newcomers(z: State, e: Event)
    requires Enabled(z, e)
    requires forall t, n :: HoldsUser(z, t, n) ==> n in z.users
    ensures forall u :: u in After(z, e).users ==>
              u in z.users || (e.CommitUser? && z.registering[e.t].enqueued && z.registering[e.t].username == u)
    ensures forall r :: r in After(z, e).registering && After(z, e).registering[r].enqueued ==>
              && r in z.registering && After(z, e).registering[r].username == z.registering[r].username
              && (z.registering[r].enqueued || (e.Enqueue? && e.t == r))
  {
    if e.DropVerification? && z.verifying[e.t].stage >= 2 {
      assert HoldsUser(z, e.t, z.verifying[e.t].username);
    } else if e.Flag? && z.verifying[e.t].username !in z.users {
      assert z.verifying[e.t].stage == 1;
    }
  }

  lemma EventAttends(z: State, e: Event, name: string)
    requires Invariant(z) && Enabled(z, e) && !LooksEarly(z, e, name) && NameAttended(z, name)
    ensures NameAttended(After(z, e), name)
  {
    var w := After(z, e);
    Newcomers(z, e);
    if e.Enqueue? && z.registering[e.t].username == name {
      assert w.queue[e.task].username == name;
      assert HasTask(w, name);
    } else if Attended(z, name) {
      AttendedStays(z, e, name);
    }
  }

  /**
   * In every run each committed user has a live task, or a code, or a task that failed more often than it may,
   * unless at some point the worker looked for the user before the registration had committed.
   */
  lemma {:induction false} EveryUserIsAttended(s: State, run: seq<Event>, name: string)
    requires Initial(s) && Legal(s, run) && !LookedEarly(s, run, name)
    ensures NameAttended(Final(s, run), name)
  {
    if run != [] {
      var front := run[..|run| - 1];
      EveryUserIsAttended(s, front, name);
      RunsKeep(s, front);
      EventAttends(Final(s, front), run[|run| - 1], name);
    }
  }

  // ---------- Exactly who is attended to ----------

  /** Once a user is committed no new task is enqueued under the name, so who is left with nothing stays so. */
  lemma UnattendedStays(z: State, e: Event, name: string)
    requires Invariant(z) && Enabled(z, e) && name in z.users && !Attended(z, name)
    ensures !Attended(After(z, e), name)
  {
    var w := After(z, e);
    forall k | k in w.queue && w.queue[k].username == name ensures false {
      if k in z.queue {
        TasksKeepTheirUsers(z, e, k);
      } else {
        NewTasksAreEnqueued(z, e, k);
      }
    }
    forall c | c in w.codes && w.codes[c].username == name ensures false {
      CodeAddressesCome(z, e, c);
    }
    if Exhausted(name) in w.archived {
      ArchivedCome(z, e, name);
    }
  }

  lemma NewTasksAreEnqueued(z: State, e: Event, k: int)
    requires Enabled(z, e) && k in After(z, e).queue && k !in z.queue
    ensures e.Enqueue? && e.task == k && After(z, e).queue[k].username == z.registering[e.t].username
  {}

  lemma ArchivedCome(z: State, e: Event, name: string)
    requires Enabled(z, e) && Exhausted(name) in After(z, e).archived && Exhausted(name) !in z.archived
    ensures (e.FailTask? || e.IssueCode?) && e.task in z.queue && z.queue[e.task].username == name
    ensures z.queue[e.task].failures >= MAX_RETRY
  {}

  lemma {:induction false} LegalPrefix(s: State, run: seq<Event>, k: nat)
    requires Legal(s, run) && k <= |run|
    ensures Legal(s, run[..k])
  {
    if k == |run| {
      assert run[..k] == run;
    } else {
      LegalPrefix(s, run[..|run| - 1], k);
      assert run[..|run| - 1][..k] == run[..k];
    }
  }

  /** Whether a user is attended to is settled when the registration commits, for good, whatever happens in between. */
  lemma {:induction false} SettledAtCommit(s: State, run: seq<Event>, k: nat)
    requires Initial(s) && Legal(s, run) && k < |run| && run[k].CommitUser?
    ensures Legal(s, run[..k]) && run[k].t in Final(s, run[..k]).registering
    ensures var z := Final(s, run[..k]); var name := z.registering[run[k].t].username;
            && name in Final(s, run).users
            && (Attended(Final(s, run), name) <==> HasTask(z, name) || Exhausted(name) in z.archived)
  {
    var front, e := run[..|run| - 1], run[|run| - 1];
    RunsKeep(s, front);
    if k == |run| - 1 {
      CommitBringsNothing(Final(s, front), e.t);
    } else {
      SettledAtCommit(s, front, k);
      assert front[..k] == run[..k];
      var name := Final(s, run[..k]).registering[run[k].t].username;
      UsersStay(Final(s, front), e);
      AttendanceStays(Final(s, front), e, name);
    }
  }

  lemma CommitBringsNothing(z: State, t: int)
    requires Invariant(z) && Enabled(z, CommitUser(t))
    ensures var w, name := After(z, CommitUser(t)), z.registering[t].username;
            && name !in z.users && name in w.users
            && (Attended(w, name) <==> HasTask(z, name) || Exhausted(name) in z.archived)
  {
    var w, name := After(z, CommitUser(t)), z.registering[t].username;
    assert w.queue == z.queue && w.codes == z.codes && w.archived == z.archived;
    assert HasTask(w, name) <==> HasTask(z, name);
  }

  lemma AttendanceStays(z: State, e: Event, name: string)
    requires Invariant(z) && Enabled(z, e) && name in z.users
    ensures Attended(After(z, e), name) <==> Attended(z, name)
  {
    if Attended(z, name) {
      AttendedStays(z, e, name);
    } else {
      UnattendedStays(z, e, name);
    }
  }

  /** A task is enqueued under this name. */
  ghost predicate EnqueuesFor(z: State, e: Event, name: string) {
    e.Enqueue? && e.t in z.registering && z.registering[e.t].username == name
  }

  /** A task of this name fails once too often. */
  ghost predicate Exhausts(z: State, e: Event, name: string) {
    e.FailTask? && e.task in z.queue && z.queue[e.task].username == name && z.queue[e.task].failures >= MAX_RETRY
  }

  function One(b: bool): nat {
    if b then 1 else 0
  }

  /** How many tasks were enqueued under the name. */
  ghost function Enqueues(s: State, run: seq<Event>, name: string): nat
    requires Legal(s, run)
  {
    if run == [] then 0
    else
      Enqueues(s, run[..|run| - 1], name)
      + One(EnqueuesFor(Final(s, run[..|run| - 1]), run[|run| - 1], name))
  }

  /** How many of them the worker took before there was a user. */
  ghost function EarlyLooks(s: State, run: seq<Event>, name: string): nat
    requires Legal(s, run)
  {
    if run == [] then 0
    else
      EarlyLooks(s, run[..|run| - 1], name)
      + One(LooksEarly(Final(s, run[..|run| - 1]), run[|run| - 1], name))
  }

  ghost function Exhaustions(s: State, run: seq<Event>, name: string): nat
    requires Legal(s, run)
  {
    if run == [] then 0
    else
      Exhaustions(s, run[..|run| - 1], name)
      + One(Exhausts(Final(s, run[..|run| - 1]), run[|run| - 1], name))
  }

  function TasksOf(z: State, name: string): set<int> {
    set k | k in z.queue && z.queue[k].username == name
  }

  /** As long as there is no user, tasks come by enqueueing and go by early looks and exhaustion alone. */
  lemma TasksBalance(z: State, e: Event, name: string)
    requires CodesNameUsers(z) && Enabled(z, e) && name !in z.users
    ensures |TasksOf(After(z, e), name)| + One(LooksEarly(z, e, name)) + One(Exhausts(z, e, name))
            == |TasksOf(z, name)| + One(EnqueuesFor(z, e, name))
    ensures Exhausted(name) in After(z, e).archived <==> Exhausted(name) in z.archived || Exhausts(z, e, name)
  {
    if EnqueuesFor(z, e, name) {
      EnqueuedTaskComes(z, e, name);
    } else if LooksEarly(z, e, name) || Exhausts(z, e, name) {
      LostTaskGoes(z, e, name);
    } else {
      OtherTasksStay(z, e, name);
    }
  }

  lemma EnqueuedTaskComes(z: State, e: Event, name: string)
    requires Enabled(z, e) && EnqueuesFor(z, e, name)
    ensures e.task !in TasksOf(z, name) && TasksOf(After(z, e), name) == TasksOf(z, name) + {e.task}
    ensures After(z, e).archived == z.archived
  {}

  lemma LostTaskGoes(z: State, e: Event, name: string)
    requires Enabled(z, e) && (LooksEarly(z, e, name) || Exhausts(z, e, name))
    ensures e.task in TasksOf(z, name) && TasksOf(After(z, e), name) == TasksOf(z, name) - {e.task}
    ensures Exhausted(name) in After(z, e).archived <==> Exhausted(name) in z.archived || Exhausts(z, e, name)
  {}

  lemma OtherTasksStay(z: State, e: Event, name: string)
    requires CodesNameUsers(z) && Enabled(z, e) && name !in z.users
    requires !EnqueuesFor(z, e, name) && !LooksEarly(z, e, name) && !Exhausts(z, e, name)
    ensures TasksOf(After(z, e), name) == TasksOf(z, name)
    ensures Exhausted(name) in After(z, e).archived <==> Exhausted(name) in z.archived
  {
    var w := After(z, e);
    ArchiveGrows(z, e);
    if Exhausted(name) in w.archived && Exhausted(name) !in z.archived {
      ArchivedCome(z, e, name);
    }
    forall k ensures k in TasksOf(w, name) <==> k in TasksOf(z, name) {
      if k in z.queue {
        TasksLeaveOnlyWhenDone(z, e, k);
        if k in w.queue {
          TasksKeepTheirUsers(z, e, k);
        }
      } else if k in w.queue {
        NewTasksAreEnqueued(z, e, k);
      }
    }
  }

  /** Without a user the books balance; with one, somebody is attended to if some task was not taken too early. */
  ghost predicate Tallied(s: State, run: seq<Event>, name: string)
    requires Legal(s, run)
  {
    var z := Final(s, run);
    && (name !in z.users ==>
          && |TasksOf(z, name)| + EarlyLooks(s, run, name) + Exhaustions(s, run, name) == Enqueues(s, run, name)
          && (Exhausted(name) in z.archived <==> Exhaustions(s, run, name) > 0))
    && (name in z.users ==> (Attended(z, name) <==> EarlyLooks(s, run, name) < Enqueues(s, run, name)))
  }

  lemma TallyStays(s: State, run: seq<Event>, name: string)
    requires Initial(s) && Legal(s, run) && run != [] && Tallied(s, run[..|run| - 1], name)
    ensures Tallied(s, run, name)
  {
    var z, e := Final(s, run[..|run| - 1]), run[|run| - 1];
    var w := Final(s, run);
    RunsKeep(s, run[..|run| - 1]);
    UsersStay(z, e);
    if name in z.users {
      AttendanceStays(z, e, name);
    } else {
      TasksBalance(z, e, name);
      if name in w.users {
        Newcomers(z, e);
        CommitBringsNothing(z, e.t);
        TasksAreCounted(z, name);
      }
    }
  }

  lemma TasksAreCounted(z: State, name: string)
    ensures HasTask(z, name) <==> |TasksOf(z, name)| > 0
  {
    if k :| k in TasksOf(z, name) {
      assert k in z.queue && z.queue[k].username == name;
    } else {
      forall k ensures !(k in z.queue && z.queue[k].username == name) {
        assert k !in TasksOf(z, name);
      }
    }
  }

  lemma {:induction false} RunsAreTallied(s: State, run: seq<Event>, name: string)
    requires Initial(s) && Legal(s, run)
    ensures Tallied(s, run, name)
  {
    if run == [] {
      assert TasksOf(s, name) == {};
    } else {
      RunsAreTallied(s, run[..|run| - 1], name);
      TallyStays(s, run, name);
    }
  }

  /**
   * Exactly who is left with nothing: a committed user has neither a live task nor a code nor a task retried
   * to the end if and only if every task ever enqueued under the name was taken before the user was committed.
   */
  lemma AttendedExactly(s: State, run: seq<Event>, name: string)
    requires Initial(s) && Legal(s, run) && name in Final(s, run).users
    ensures !Attended(Final(s, run), name) <==> EarlyLooks(s, run, name) == Enqueues(s, run, name)
  {
    RunsAreTallied(s, run, name);
    NoMoreLooksThanTasks(s, run, name);
  }

  lemma {:induction false} NoMoreLooksThanTasks(s: State, run: seq<Event>, name: string)
    requires Initial(s) && Legal(s, run)
    ensures EarlyLooks(s, run, name) <= Enqueues(s, run, name)
  {
    if run != [] {
      NoMoreLooksThanTasks(s, run[..|run| - 1], name);
      RunsAreTallied(s, run, name);
    }
  }

  /**
   * The delay before the first attempt is not a guarantee: when the worker looks before the registration commits,
   * the task is gone. The user who then appears has no code, and a task only if another registration
   * with the same name had left one.
   */
  lemma EarlyFetchLosesTheTask(s: State, run: seq<Event>, t: int, task: int)
    requires Initial(s) && Legal(s, run)
    requires t in Final(s, run).registering && Enabled(Final(s, run), Fetch(task))
    requires Final(s, run).registering[t].enqueued
    requires Final(s, run).queue[task].username == Final(s, run).registering[t].username
    ensures Legal(s, run + [Fetch(task)]) && Legal(s, run + [Fetch(task), CommitUser(t)])
    ensures var z, w := Final(s, run), Final(s, run + [Fetch(task), CommitUser(t)]);
            var name := z.registering[t].username;
            && name in w.users && !HasCode(w, name) && w.codes == z.codes
            && w.queue == z.queue - {task} && w.archived == z.archived + {NotRetried(name)}
            && (HasTask(w, name) <==> exists k :: k in z.queue && k != task && z.queue[k].username == name)
  {
    var z := Final(s, run);
    RunsKeep(s, run);
    LegalSnoc(s, run, Fetch(task));
    LegalSnoc(s, run + [Fetch(task)], CommitUser(t));
    assert run + [Fetch(task), CommitUser(t)] == (run + [Fetch(task)]) + [CommitUser(t)];
    var w := Final(s, run + [Fetch(task), CommitUser(t)]);
    assert w.queue == z.queue - {task} && w.codes == z.codes;
    if k :| k in z.queue && k != task && z.queue[k].username == z.registering[t].username {
      assert k in w.queue;
    }
  }

  /**
   * Four events from the start leave a registered user without a live task and without a code.
   * All that is left is the task that was not retried, in the archive of the queue.
   */
  lemma UserLeftWithNothing(s: State, name: string, password: string, fullName: string, email: string)
    returns (run: seq<Event>)
    requires Initial(s)
    ensures Legal(s, run) && LookedEarly(s, run, name)
    ensures name in Final(s, run).users && !Attended(Final(s, run), name)
    ensures Final(s, run).queue == map[] && Final(s, run).codes == map[]
    ensures Final(s, run).archived == {NotRetried(name)}
  {
    var r1, r2 := [Insert(0, name, password, fullName, email)], [Enqueue(0, 0)];
    LegalSnoc(s, [], r1[0]);
    assert [] + r1 == r1;
    LegalSnoc(s, r1, r2[0]);
    var z := Final(s, r1 + r2);
    assert z.queue == map[0 := Task(name, 0, None)];
    EarlyFetchLosesTheTask(s, r1 + r2, 0, 0);
    run := r1 + r2 + [Fetch(0), CommitUser(0)];
    if !LookedEarly(s, run, name) {
      EveryUserIsAttended(s, run, name);
    }
  }

  // ---------- Orphans ----------

  /** How often the worker has tried `task` since the first `k` events. */
  function Attempts(run: seq<Event>, k: nat, task: int): nat
    requires k <= |run|
  {
    if |run| == k then 0
    else
      var e := run[|run| - 1];
      Attempts(run[..|run| - 1], k, task)
      + (if (e.Fetch? || e.IssueCode? || e.FailTask?) && e.task == task then 1 else 0)
  }

  /** An attempt at a task without a user issues no code; it ends the task or counts as one more failure. */
  lemma OrphanAttempt(z: State, e: Event, task: int)
    requires CodesNameUsers(z) && RetriesBounded(z) && Enabled(z, e) && task in z.queue
    requires z.queue[task].username !in z.users
    ensures (e.Fetch? || e.IssueCode? || e.FailTask?) && e.task == task ==>
              && !e.IssueCode? && After(z, e).codes == z.codes
              && (task in After(z, e).queue ==>
                    After(z, e).queue[task] == Task(z.queue[task].username, z.queue[task].failures + 1, None))
    ensures !((e.Fetch? || e.IssueCode? || e.FailTask?) && e.task == task) ==>
              task in After(z, e).queue && After(z, e).queue[task] == z.queue[task]
  {
    if !e.Fetch? && !e.IssueCode? && !e.FailTask? {
      OthersLeaveTasks(z, e, task);
    }
  }

  /**
   * A task whose user never gets committed ends without a code: the worker tries it at most eleven times,
   * and as long as it is there every try has been a failure. (Numbers of tasks are not used again.)
   */
  lemma {:induction false} OrphanTasksEnd(s: State, run: seq<Event>, k: nat, task: int)
    requires Initial(s) && Legal(s, run) && k <= |run| && Legal(s, run[..k]) && task in Final(s, run[..k]).queue
    requires Final(s, run[..k]).queue[task].username !in Final(s, run).users
    requires forall i :: k <= i < |run| && run[i].Enqueue? ==> run[i].task != task
    ensures var was, z := Final(s, run[..k]).queue[task], Final(s, run);
            var name, before := was.username, was.failures;
            && !HasCode(z, name)
            && before + Attempts(run, k, task) <= MAX_RETRY + 1
            && (task in z.queue ==>
                  && z.queue[task].username == name && z.queue[task].failures == before + Attempts(run, k, task)
                  && before + Attempts(run, k, task) <= MAX_RETRY)
  {
    RunsKeep(s, run);
    RetriesAreBounded(s, run);
    if |run| == k {
      assert run[..k] == run;
    } else {
      var front, e := run[..|run| - 1], run[|run| - 1];
      var y := Final(s, front);
      assert front[..k] == run[..k];
      RunsKeep(s, front);
      RetriesAreBounded(s, front);
      UsersStay(y, e);
      OrphanTasksEnd(s, front, k, task);
      if task in y.queue {
        OrphanAttempt(y, e, task);
      } else {
        GoneStaysGone(y, e, task);
      }
    }
  }

  lemma GoneStaysGone(z: State, e: Event, task: int)
    requires Enabled(z, e) && task !in z.queue && (e.Enqueue? ==> e.task != task)
    ensures task !in After(z, e).queue && !((e.Fetch? || e.IssueCode? || e.FailTask?) && e.task == task)
  {}

  // ---------- Addresses ----------

  /** At some point of the run this user was committed with this address. */
  ghost predicate HadAddress(s: State, run: seq<Event>, name: string, email: string)
    requires Legal(s, run)
  {
    || (name in Final(s, run).users && Final(s, run).users[name].email == email)
    || (run != [] && HadAddress(s, run[..|run| - 1], name, email))
  }

  ghost predicate AddressesHad(s: State, run: seq<Event>)
    requires Legal(s, run)
  {
    var z := Final(s, run);
    && (forall c :: c in z.codes ==> HadAddress(s, run, z.codes[c].username, z.codes[c].email))
    && (forall k :: k in z.queue && z.queue[k].read.Some? ==>
          HadAddress(s, run, z.queue[k].username, z.queue[k].read.value))
  }

  lemma OthersKeepCodes(z: State, e: Event, c: int)
    requires Enabled(z, e) && !e.IssueCode? && c in After(z, e).codes
    ensures c in z.codes
    ensures After(z, e).codes[c].username == z.codes[c].username && After(z, e).codes[c].email == z.codes[c].email
  {}

  /** Where the address of a code comes from. */
  lemma CodeAddressesCome(z: State, e: Event, c: int)
    requires Enabled(z, e) && c in After(z, e).codes
    ensures var x := After(z, e).codes[c];
            || (c in z.codes && x.username == z.codes[c].username && x.email == z.codes[c].email)
            || (e.IssueCode? && e.task in z.queue && z.queue[e.task].read.Some?
                && x.username == z.queue[e.task].username && x.email == z.queue[e.task].read.value)
  {
    if e.IssueCode? {
      CodesGoToTheAddressRead(z, e);
    } else {
      OthersKeepCodes(z, e, c);
    }
  }

  /** Where the address that a task has read comes from. */
  lemma ReadAddressesCome(z: State, e: Event, k: int)
    requires Enabled(z, e) && k in After(z, e).queue && After(z, e).queue[k].read.Some?
    ensures var x := After(z, e).queue[k];
            || (k in z.queue && x == z.queue[k])
            || (x.username in After(z, e).users && After(z, e).users[x.username].email == x.read.value)
  {
    if k !in z.queue {
      NewTasksAreEnqueued(z, e, k);
    } else if !e.Fetch? && !e.IssueCode? && !e.FailTask? {
      OthersLeaveTasks(z, e, k);
    }
  }

  /** Every code was sent to an address that its user had, though perhaps no longer has. */
  lemma {:induction false} CodesCarryAnAddressTheUserHad(s: State, run: seq<Event>)
    requires Initial(s) && Legal(s, run)
    ensures AddressesHad(s, run)
  {
    if run != [] {
      var z, e := Final(s, run[..|run| - 1]), run[|run| - 1];
      var w := After(z, e);
      CodesCarryAnAddressTheUserHad(s, run[..|run| - 1]);
      forall c | c in w.codes ensures HadAddress(s, run, w.codes[c].username, w.codes[c].email) {
        CodeAddressesCome(z, e, c);
      }
      forall k | k in w.queue && w.queue[k].read.Some?
        ensures HadAddress(s, run, w.queue[k].username, w.queue[k].read.value)
      {
        ReadAddressesCome(z, e, k);
      }
    }
  }
}
