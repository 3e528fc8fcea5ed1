/** Runs in which verifications, registrations and retries meet: not only what may not happen, but what does. */
module Races {
  import opened Schema
  import opened Onboarding
  import opened OnboardingProofs

  // ---------- Two verifications of one code ----------

  /** The code can be used at this time with this secret, and nobody is at work on it or on its user. */
  ghost predicate Free(z: State, code: int, secret: string, now: int) {
    && code in z.codes && z.codes[code].secret == secret && !z.codes[code].used && z.codes[code].expiresAt > now
    && z.codes[code].username in z.users && CodeFree(z, code) && UserFree(z, z.codes[code].username)
  }

  /** Two new verifications of one code. */
  ghost predicate Rivals(z: State, b: Event, c: Event) {
    && b.Begin? && c.Begin? && b.t != c.t && b.t !in z.verifying && c.t !in z.verifying && b.code == c.code
    && Free(z, b.code, b.secret, b.now)
  }

  ghost predicate HasBegun(y: State, b: Event)
    requires b.Begin?
  {
    && b.t in y.verifying && y.verifying[b.t].stage == 0 && y.verifying[b.t].code == b.code
    && y.verifying[b.t].secret == b.secret && y.verifying[b.t].now == b.now
  }

  /** `y` is `z` with both begun. */
  ghost predicate BothBegun(z: State, y: State, b: Event, c: Event)
    requires b.Begin? && c.Begin?
  {
    && y == z.(verifying := y.verifying) && y.verifying - {b.t, c.t} == z.verifying && HasBegun(y, b) && HasBegun(y, c)
    && Free(y, b.code, b.secret, b.now)
  }

  lemma BothBegin(z: State, b: Event, c: Event)
    requires Rivals(z, b, c)
    ensures Enabled(z, b) && Enabled(After(z, b), c) && BothBegun(z, After(After(z, b), c), b, c)
  {
    var y := After(After(z, b), c);
    assert y.verifying - {b.t, c.t} == z.verifying;
    assert forall v, x :: HoldsCode(y, v, x) <==> HoldsCode(z, v, x);
    assert forall v, n :: HoldsUser(y, v, n) <==> HoldsUser(z, v, n);
  }

  /** `m` is `y` with the code marked by the first. */
  ghost predicate FirstHasMarked(y: State, m: State, b: Event, c: Event)
    requires b.Begin? && c.Begin? && b.code in y.codes
  {
    && m == y.(codes := y.codes[b.code := y.codes[b.code].(used := true)], verifying := m.verifying)
    && b.t in m.verifying && m.verifying == y.verifying[b.t := m.verifying[b.t]]
    && m.verifying[b.t].stage == 1 && m.verifying[b.t].code == b.code
    && m.verifying[b.t].username == y.codes[b.code].username
    && UserFree(m, y.codes[b.code].username)
  }

  lemma FirstMarks(z: State, y: State, b: Event, c: Event)
    requires Rivals(z, b, c) && BothBegun(z, y, b, c)
    ensures Enabled(y, Mark(b.t)) && FirstHasMarked(y, After(y, Mark(b.t)), b, c)
    ensures !Enabled(After(y, Mark(b.t)), Mark(c.t))
  {
    var m := After(y, Mark(b.t));
    assert HoldsCode(m, b.t, b.code);
    assert forall v, n :: HoldsUser(m, v, n) <==> HoldsUser(y, v, n);
  }

  /** The winner flags the user; the other still waits. */
  lemma FirstFlags(y: State, m: State, b: Event, c: Event)
    requires b.Begin? && c.Begin? && b.t != c.t && b.code == c.code && b.code in y.codes
    requires y.codes[b.code].username in y.users && HasBegun(y, c) && FirstHasMarked(y, m, b, c)
    ensures Enabled(m, Flag(b.t))
    ensures var f, name := After(m, Flag(b.t)), y.codes[b.code].username;
            && f == m.(users := m.users[name := m.users[name].(verified := true)], verifying := f.verifying)
            && b.t in f.verifying && f.verifying == m.verifying[b.t := f.verifying[b.t]]
            && f.verifying[b.t].stage == 2 && f.verifying[b.t].code == b.code
            && !Enabled(f, Mark(c.t))
  {
    assert HoldsCode(After(m, Flag(b.t)), b.t, b.code);
  }

  /** A marked code is not usable by anyone. */
  lemma LoserIsRefused(w: State, c: Event)
    requires c.Begin? && HasBegun(w, c) && c.code in w.codes && w.codes[c.code].used && CodeFree(w, c.code)
    ensures Enabled(w, Mark(c.t)) && After(w, Mark(c.t)) == w.(verifying := w.verifying - {c.t})
  {}

  lemma FirstCommits(z: State, y: State, f: State, b: Event, c: Event)
    requires Rivals(z, b, c) && BothBegun(z, y, b, c)
    requires b.t in f.verifying && f.verifying == y.verifying[b.t := f.verifying[b.t]]
    requires f.verifying[b.t].stage == 2 && f.verifying[b.t].code == b.code
    requires b.code in f.codes && f.codes[b.code].used
    ensures Enabled(f, CommitVerification(b.t))
    ensures var w := After(f, CommitVerification(b.t));
            && w == f.(verifying := w.verifying, consumed := f.consumed + [b.code])
            && w.verifying - {c.t} == z.verifying && HasBegun(w, c) && CodeFree(w, b.code)
  {
    var w := After(f, CommitVerification(b.t));
    assert w.verifying - {c.t} == y.verifying - {b.t, c.t};
    forall v ensures !HoldsCode(w, v, b.code) {
      assert !HoldsCode(y, v, b.code);
    }
  }

  /**
   * Two verifications of one free code, while anything else goes on: once the first has marked the code the second
   * waits, until the first has committed. Then the second is refused, the user is verified, and the code has been
   * consumed once.
   */
  lemma OneRivalWins(z: State, b: Event, c: Event)
    requires Rivals(z, b, c)
    ensures Enabled(z, b) && Enabled(After(z, b), c)
    ensures var y := After(After(z, b), c);
            && Enabled(y, Mark(b.t))
            && var m := After(y, Mark(b.t));
               && Enabled(m, Flag(b.t)) && !Enabled(m, Mark(c.t))
               && var f := After(m, Flag(b.t));
                  && Enabled(f, CommitVerification(b.t)) && !Enabled(f, Mark(c.t))
                  && var w, name := After(f, CommitVerification(b.t)), z.codes[b.code].username;
                     && Enabled(w, Mark(c.t))
                     && After(w, Mark(c.t)) == z.(
                          users := z.users[name := z.users[name].(verified := true)],
                          codes := z.codes[b.code := z.codes[b.code].(used := true)],
                          consumed := z.consumed + [b.code])
  {
    BothBegin(z, b, c);
    var y := After(After(z, b), c);
    FirstMarks(z, y, b, c);
    var m := After(y, Mark(b.t));
    FirstFlags(y, m, b, c);
    var f := After(m, Flag(b.t));
    FirstCommits(z, y, f, b, c);
    LoserIsRefused(After(f, CommitVerification(b.t)), c);
  }

  lemma FirstDrops(z: State, y: State, m: State, b: Event, c: Event)
    requires Rivals(z, b, c) && y == After(After(z, b), c) && FirstHasMarked(y, m, b, c)
    ensures Enabled(m, DropVerification(b.t)) && After(m, DropVerification(b.t)) == After(z, c)
  {
    var d := After(m, DropVerification(b.t));
    assert m.codes[b.code := m.codes[b.code].(used := false)] == z.codes;
    assert d.verifying == After(z, c).verifying;
  }

  lemma CodeIsFree(z: State, c: Event)
    requires c.Begin? && c.t !in z.verifying && CodeFree(z, c.code)
    ensures Enabled(After(z, c), Mark(c.t))
  {
    forall v ensures !HoldsCode(After(z, c), v, c.code) {
      assert !HoldsCode(z, v, c.code);
    }
  }

  /** If the first gives up instead, the code is free for the second as if the first had never been. */
  lemma RivalTakesOver(z: State, b: Event, c: Event)
    requires Rivals(z, b, c)
    ensures Enabled(z, b) && Enabled(After(z, b), c) && Enabled(z, c)
    ensures var y := After(After(z, b), c);
            && Enabled(y, Mark(b.t))
            && var m := After(y, Mark(b.t));
               && Enabled(m, DropVerification(b.t))
               && After(m, DropVerification(b.t)) == After(z, c)
               && Enabled(After(z, c), Mark(c.t))
  {
    BothBegin(z, b, c);
    var y := After(After(z, b), c);
    FirstMarks(z, y, b, c);
    FirstDrops(z, y, After(y, Mark(b.t)), b, c);
    CodeIsFree(z, c);
  }

  // ---------- Two registrations ----------

  /** Two registrations of different names and addresses, each free. */
  ghost predicate Apart(z: State, i: Event, j: Event) {
    && i.Insert? && j.Insert? && i.t != j.t && i.t !in z.registering && j.t !in z.registering
    && i.username != j.username && i.email != j.email
    && NameFree(z, i.username, i.email) && NameFree(z, j.username, j.email)
  }

  function Inserted(i: Event): User
    requires i.Insert?
  {
    User(i.password, 0, i.fullName, i.email, false)
  }

  lemma BothInsert(z: State, i: Event, j: Event)
    requires Apart(z, i, j)
    ensures Enabled(z, i) && Enabled(After(z, i), j)
    ensures After(After(z, i), j) == z.(
              registering := z.registering[i.t := Registration(i.username, Inserted(i), false)]
                                          [j.t := Registration(j.username, Inserted(j), false)])
  {}

  lemma EnqueuesAndCommits(y: State, t: int, task: int)
    requires t in y.registering && !y.registering[t].enqueued && task !in y.queue
    ensures Enabled(y, Enqueue(t, task)) && Enabled(After(y, Enqueue(t, task)), CommitUser(t))
    ensures After(After(y, Enqueue(t, task)), CommitUser(t))
            == y.(users := y.users[y.registering[t].username := y.registering[t].user],
                  registering := y.registering - {t},
                  queue := y.queue[task := Task(y.registering[t].username, 0, None)],
                  everEnqueued := y.everEnqueued + {y.registering[t].username})
  {
    assert After(y, Enqueue(t, task)).registering - {t} == y.registering - {t};
  }

  /** Both may be open at once and commit in either order; each leaves its user and its task. */
  lemma RegistrationsOverlap(z: State, i: Event, j: Event, k: int, l: int)
    requires Apart(z, i, j) && k != l && k !in z.queue && l !in z.queue
    ensures Enabled(z, i) && Enabled(After(z, i), j)
    ensures var y := After(After(z, i), j);
            && Enabled(y, Enqueue(j.t, l)) && Enabled(After(y, Enqueue(j.t, l)), CommitUser(j.t))
            && var w := After(After(y, Enqueue(j.t, l)), CommitUser(j.t));
               && Enabled(w, Enqueue(i.t, k)) && Enabled(After(w, Enqueue(i.t, k)), CommitUser(i.t))
               && After(After(w, Enqueue(i.t, k)), CommitUser(i.t)) == z.(
                    users := z.users[j.username := Inserted(j)][i.username := Inserted(i)],
                    queue := z.queue[l := Task(j.username, 0, None)][k := Task(i.username, 0, None)],
                    everEnqueued := z.everEnqueued + {j.username} + {i.username})
  {
    BothInsert(z, i, j);
    var y := After(After(z, i), j);
    EnqueuesAndCommits(y, j.t, l);
    var w := After(After(y, Enqueue(j.t, l)), CommitUser(j.t));
    EnqueuesAndCommits(w, i.t, k);
    assert w.registering - {i.t} == z.registering;
  }

  /** While one is in flight a second with its name or its address waits; it may go on exactly if the first gives up. */
  lemma SecondRegistrationWaits(z: State, i: Event, j: Event)
    requires i.Insert? && j.Insert? && i.t != j.t && i.t !in z.registering && j.t !in z.registering
    requires NameFree(z, i.username, i.email) && NameFree(z, j.username, j.email)
    requires i.username == j.username || i.email == j.email
    ensures Enabled(z, i) && !Enabled(After(z, i), j)
    ensures Enabled(After(z, i), DropUser(i.t)) && After(After(z, i), DropUser(i.t)) == z && Enabled(z, j)
    ensures forall task :: task !in z.queue ==>
              && Enabled(After(z, i), Enqueue(i.t, task))
              && Enabled(After(After(z, i), Enqueue(i.t, task)), CommitUser(i.t))
              && !Enabled(After(After(After(z, i), Enqueue(i.t, task)), CommitUser(i.t)), j)
  {
    var y := After(z, i);
    assert y.registering - {i.t} == z.registering;
    assert y.registering[i.t].username == i.username && y.registering[i.t].user.email == i.email;
    forall task | task !in z.queue
      ensures Enabled(y, Enqueue(i.t, task)) && Enabled(After(y, Enqueue(i.t, task)), CommitUser(i.t))
      ensures !Enabled(After(After(y, Enqueue(i.t, task)), CommitUser(i.t)), j)
    {
      EnqueuesAndCommits(y, i.t, task);
      var w := After(After(y, Enqueue(i.t, task)), CommitUser(i.t));
      assert i.username in w.users && w.users[i.username].email == i.email;
    }
  }

  /**
   * A commit may fail after the task has been enqueued: nothing is left of the registration but the task, and a
   * worker that takes it finds no user and gives it up. The name and the address are free again.
   */
  lemma TaskOutlivesItsRegistration(z: State, i: Event, task: int)
    requires i.Insert? && Enabled(z, i) && task !in z.queue
    ensures var y := After(z, i);
            && Enabled(y, Enqueue(i.t, task))
            && var q := After(y, Enqueue(i.t, task));
               && Enabled(q, DropUser(i.t))
               && var d := After(q, DropUser(i.t));
                  && d == z.(queue := z.queue[task := Task(i.username, 0, None)],
                             everEnqueued := z.everEnqueued + {i.username})
                  && Enabled(d, i) && Enabled(d, Fetch(task))
                  && After(d, Fetch(task)) == z.(archived := z.archived + {NotRetried(i.username)},
                                                 everEnqueued := z.everEnqueued + {i.username})
  {
    var d := After(After(After(z, i), Enqueue(i.t, task)), DropUser(i.t));
    assert d.registering == z.registering;
    assert d.queue - {task} == z.queue;
  }

  // ---------- Retries ----------

  /** Where `n` failures of one task in a row lead, if they are possible. */
  ghost function Fail(z: State, task: int, n: nat): Option<State> {
    if n == 0 then Some(z)
    else
      match Fail(z, task, n - 1)
      case None => None
      case Some(y) => if Enabled(y, FailTask(task)) then Some(After(y, FailTask(task))) else None
  }

  /** `z` with its task failed `n` times: the eleventh failure is the last. */
  function HavingFailed(z: State, task: int, n: nat): State
    requires task in z.queue
  {
    var name := z.queue[task].username;
    if n == 0 then z
    else if n <= 10 then z.(queue := z.queue[task := Task(name, n, None)])
    else z.(queue := z.queue - {task}, archived := z.archived + {Exhausted(name)})
  }

  lemma FailsAgain(z: State, task: int, n: nat)
    requires task in z.queue && z.queue[task].failures == 0 && n <= 10
    ensures Enabled(HavingFailed(z, task, n), FailTask(task))
    ensures After(HavingFailed(z, task, n), FailTask(task)) == HavingFailed(z, task, n + 1)
  {
    assert HavingFailed(z, task, n).queue - {task} == z.queue - {task};
  }

  /** A new task may fail ten times and is tried again; with the eleventh failure in a row it goes to the archive. */
  lemma {:induction false} ElevenFailures(z: State, task: int, n: nat)
    requires task in z.queue && z.queue[task].failures == 0
    ensures Fail(z, task, n) == if n <= 11 then Some(HavingFailed(z, task, n)) else None
  {
    if n > 0 {
      ElevenFailures(z, task, n - 1);
      if n <= 11 {
        FailsAgain(z, task, n - 1);
      }
    }
  }

  // ---------- From nothing to a verified user ----------

  lemma TwoMore(s: State, run: seq<Event>, e: Event, f: Event)
    requires Legal(s, run) && Enabled(Final(s, run), e) && Enabled(After(Final(s, run), e), f)
    ensures Legal(s, run + [e, f]) && Final(s, run + [e, f]) == After(After(Final(s, run), e), f)
  {
    LegalSnoc(s, run, e);
    LegalSnoc(s, run + [e], f);
    assert run + [e, f] == (run + [e]) + [f];
  }

  lemma Registers(s: State, name: string, password: string, fullName: string, email: string) returns (run: seq<Event>)
    requires Initial(s)
    ensures Legal(s, run)
    ensures Final(s, run) == s.(users := map[name := User(password, 0, fullName, email, false)],
                                queue := map[0 := Task(name, 0, None)], everEnqueued := {name})
  {
    var i := Insert(0, name, password, fullName, email);
    LegalSnoc(s, [], i);
    assert [] + [i] == [i];
    EnqueuesAndCommits(Final(s, [i]), 0, 0);
    TwoMore(s, [i], Enqueue(0, 0), CommitUser(0));
    run := [i] + [Enqueue(0, 0), CommitUser(0)];
  }

  function WithCode(z: State, name: string, email: string, secret: string, now: int): State {
    z.(queue := map[], codes := map[0 := Code(name, email, secret, false, now + 15 * 60)])
  }

  lemma TaskIsDone(z: State, name: string, secret: string, now: int)
    requires z.queue == map[0 := Task(name, 0, None)] && name in z.users && z.codes == map[]
    ensures Enabled(z, Fetch(0)) && Enabled(After(z, Fetch(0)), IssueCode(0, 0, secret, now, true))
    ensures After(After(z, Fetch(0)), IssueCode(0, 0, secret, now, true))
            == WithCode(z, name, z.users[name].email, secret, now)
  {
    assert After(z, Fetch(0)).queue - {0} == map[];
  }

  lemma GetsCode(s: State, run: seq<Event>, name: string, secret: string, now: int)
    requires Legal(s, run) && Final(s, run).queue == map[0 := Task(name, 0, None)] && name in Final(s, run).users
    requires Final(s, run).codes == map[]
    ensures Legal(s, run + [Fetch(0), IssueCode(0, 0, secret, now, true)])
    ensures Final(s, run + [Fetch(0), IssueCode(0, 0, secret, now, true)])
            == WithCode(Final(s, run), name, Final(s, run).users[name].email, secret, now)
  {
    TaskIsDone(Final(s, run), name, secret, now);
    TwoMore(s, run, Fetch(0), IssueCode(0, 0, secret, now, true));
  }

  lemma Verifies(s: State, run: seq<Event>, name: string, secret: string, now: int) returns (more: seq<Event>)
    requires Legal(s, run) && Final(s, run).verifying == map[] && name in Final(s, run).users
    requires 0 in Final(s, run).codes && Final(s, run).codes[0].username == name
    requires Final(s, run).codes[0].secret == secret && !Final(s, run).codes[0].used
    requires now < Final(s, run).codes[0].expiresAt
    ensures Legal(s, run + more)
    ensures var z := Final(s, run);
            Final(s, run + more) == z.(users := z.users[name := z.users[name].(verified := true)],
                                       codes := z.codes[0 := z.codes[0].(used := true)],
                                       consumed := z.consumed + [0])
  {
    var z, b := Final(s, run), Begin(0, 0, secret, now);
    OnlyOneVerifies(z, name, secret, now);
    var m := After(After(z, b), Mark(0));
    TwoMore(s, run, b, Mark(0));
    TwoMore(s, run + [b, Mark(0)], Flag(0), CommitVerification(0));
    more := [b, Mark(0)] + [Flag(0), CommitVerification(0)];
    assert run + more == (run + [b, Mark(0)]) + [Flag(0), CommitVerification(0)];
  }

  lemma OnlyOneVerifies(z: State, name: string, secret: string, now: int)
    requires z.verifying == map[] && name in z.users && 0 in z.codes && z.codes[0].username == name
    requires z.codes[0].secret == secret && !z.codes[0].used && now < z.codes[0].expiresAt
    ensures var b := Begin(0, 0, secret, now);
            && Enabled(z, b) && Enabled(After(z, b), Mark(0))
            && var m := After(After(z, b), Mark(0));
               && Enabled(m, Flag(0)) && Enabled(After(m, Flag(0)), CommitVerification(0))
               && After(After(m, Flag(0)), CommitVerification(0))
                  == z.(users := z.users[name := z.users[name].(verified := true)],
                        codes := z.codes[0 := z.codes[0].(used := true)], consumed := z.consumed + [0])
  {
    var m := After(After(z, Begin(0, 0, secret, now)), Mark(0));
    assert UserFree(m, name);
    assert After(m, Flag(0)).verifying - {0} == z.verifying;
  }

  lemma RegistersAndGetsCode(s: State, name: string, password: string, fullName: string, email: string,
                             secret: string, issued: int)
    returns (run: seq<Event>)
    requires Initial(s)
    ensures Legal(s, run)
    ensures Final(s, run) == State(
              map[name := User(password, 0, fullName, email, false)],
              map[0 := Code(name, email, secret, false, issued + 15 * 60)],
              map[], map[], map[], {}, {name}, [])
  {
    var r := Registers(s, name, password, fullName, email);
    GetsCode(s, r, name, secret, issued);
    run := r + [Fetch(0), IssueCode(0, 0, secret, issued, true)];
  }

  lemma FlagsAreSet(z: State, name: string, password: string, fullName: string, email: string,
                    secret: string, issued: int)
    requires z == State(
               map[name := User(password, 0, fullName, email, false)],
               map[0 := Code(name, email, secret, false, issued + 15 * 60)],
               map[], map[], map[], {}, {name}, [])
    ensures z.(users := z.users[name := z.users[name].(verified := true)],
               codes := z.codes[0 := z.codes[0].(used := true)],
               consumed := z.consumed + [0])
            == State(
                 map[name := User(password, 0, fullName, email, true)],
                 map[0 := Code(name, email, secret, true, issued + 15 * 60)],
                 map[], map[], map[], {}, {name}, [0])
  {}

  lemma QuietRowsCount(z: State, name: string, code: int)
    requires z.verifying == map[] && name in z.users && z.users[name].verified && code in z.codes && z.codes[code].used
    ensures VerifiedCommitted(z, name) && UsedCommitted(z, code)
  {}

  /**
   * From an empty database somebody registers, gets a code and is verified with it within the fifteen minutes:
   * nothing in the machine stands in the way of what it is for.
   */
  lemma SomebodyGetsVerified(s: State, name: string, password: string, fullName: string, email: string,
                             secret: string, issued: int, now: int)
    returns (run: seq<Event>)
    requires Initial(s) && now < issued + 15 * 60
    ensures Legal(s, run)
    ensures Final(s, run) == State(
              map[name := User(password, 0, fullName, email, true)],
              map[0 := Code(name, email, secret, true, issued + 15 * 60)],
              map[], map[], map[], {}, {name}, [0])
    ensures VerifiedCommitted(Final(s, run), name) && UsedCommitted(Final(s, run), 0)
  {
    var g := RegistersAndGetsCode(s, name, password, fullName, email, secret, issued);
    var more := Verifies(s, g, name, secret, now);
    run := g + more;
    FlagsAreSet(Final(s, g), name, password, fullName, email, secret, issued);
    QuietRowsCount(Final(s, run), name, 0);
  }
}
