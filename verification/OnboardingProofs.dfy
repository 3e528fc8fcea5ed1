/** Every event keeps the invariant of registration and verification. */
module OnboardingProofs {
  import opened Schema
  import opened Onboarding

  /** Nothing that concerns codes or verifications changed. */
  ghost predicate SameCodes(s: State, z: State) {
    z.codes == s.codes && z.verifying == s.verifying && z.consumed == s.consumed
  }

  lemma SameCodesSameViews(s: State, z: State)
    requires SameCodes(s, z)
    ensures forall t, c :: HoldsCode(z, t, c) <==> HoldsCode(s, t, c)
    ensures forall t, n :: HoldsUser(z, t, n) <==> HoldsUser(s, t, n)
    ensures forall c :: UsedCommitted(z, c) <==> UsedCommitted(s, c)
    ensures forall n :: HasUsedCode(z, n) <==> HasUsedCode(s, n)
    ensures forall n :: UserFree(z, n) <==> UserFree(s, n)
  {
    assert forall t, c :: HoldsCode(z, t, c) <==> HoldsCode(s, t, c);
    assert forall t, n :: HoldsUser(z, t, n) <==> HoldsUser(s, t, n);
    forall c ensures UsedCommitted(z, c) <==> UsedCommitted(s, c) {
      assert CodeFree(z, c) <==> CodeFree(s, c);
    }
  }

  /** The parts of the invariant about codes and verifications see only users, codes and verifications. */
  lemma SameViewsKeep(s: State, z: State)
    requires LocksExclusive(s) && MarkedSound(s) && FlagsSound(s) && ConsumedSound(s)
    requires SameCodes(s, z) && z.users == s.users
    ensures LocksExclusive(z) && MarkedSound(z) && FlagsSound(z) && ConsumedSound(z)
  {
    SameCodesSameViews(s, z);
  }

  lemma RegisterKeeps(s: State, e: Event)
    requires Invariant(s) && Enabled(s, e) && (e.Insert? || e.Enqueue? || e.DropUser?)
    ensures Invariant(After(s, e))
  {
    SameViewsKeep(s, After(s, e));
    RegisterKeepsNames(s, e);
  }

  lemma RegisterKeepsNames(s: State, e: Event)
    requires NamesApart(s) && TasksRemembered(s) && CodesNameUsers(s)
    requires Enabled(s, e) && (e.Insert? || e.Enqueue? || e.DropUser?)
    ensures var z := After(s, e); NamesApart(z) && TasksRemembered(z) && CodesNameUsers(z)
  {}

  lemma WorkKeeps(s: State, e: Event)
    requires Invariant(s) && Enabled(s, e) && (e.Fetch? || e.FailTask?)
    ensures Invariant(After(s, e))
  {
    SameViewsKeep(s, After(s, e));
    WorkKeepsNames(s, e);
  }

  lemma WorkKeepsNames(s: State, e: Event)
    requires NamesApart(s) && TasksRemembered(s) && CodesNameUsers(s)
    requires Enabled(s, e) && (e.Fetch? || e.FailTask? || e.IssueCode?)
    ensures var z := After(s, e); NamesApart(z) && TasksRemembered(z) && CodesNameUsers(z)
  {
    var z := After(s, e);
    assert z.users == s.users && z.registering == s.registering && z.everEnqueued == s.everEnqueued;
    TasksKeepNamingUsers(s, e);
  }

  lemma TasksKeepNamingUsers(s: State, e: Event)
    requires CodesNameUsers(s) && Enabled(s, e) && (e.Fetch? || e.FailTask? || e.IssueCode?)
    ensures CodesNameUsers(After(s, e))
  {}

  lemma CommitUserKeeps(s: State, t: int)
    requires Invariant(s) && Enabled(s, CommitUser(t))
    ensures Invariant(After(s, CommitUser(t)))
  {
    var z, r := After(s, CommitUser(t)), s.registering[t];
    SameCodesSameViews(s, z);
    assert !HasUsedCode(s, r.username);
    assert forall u :: !HoldsUser(s, u, r.username);
  }

  lemma ProfileKeeps(s: State, e: Event)
    requires Invariant(s) && Enabled(s, e) && e.UpdateProfile?
    ensures Invariant(After(s, e))
  {
    SameCodesSameViews(s, After(s, e));
  }

  /** A new code is unused, so it changes no view. */
  lemma NewCodeKeepsViews(s: State, z: State, code: int, row: Code)
    requires LocksExclusive(s) && MarkedSound(s) && FlagsSound(s) && ConsumedSound(s)
    requires code !in s.codes && !row.used && z.codes == s.codes[code := row]
    requires z.verifying == s.verifying && z.consumed == s.consumed && z.users == s.users
    ensures LocksExclusive(z) && MarkedSound(z) && FlagsSound(z) && ConsumedSound(z)
  {
    assert forall t, c :: HoldsCode(z, t, c) <==> HoldsCode(s, t, c);
    assert forall t, n :: HoldsUser(z, t, n) <==> HoldsUser(s, t, n);
    forall c ensures UsedCommitted(z, c) <==> UsedCommitted(s, c) {
      assert CodeFree(z, c) <==> CodeFree(s, c);
    }
    forall n ensures HasUsedCode(z, n) <==> HasUsedCode(s, n) {
      if c :| UsedCommitted(s, c) && s.codes[c].username == n {
        assert UsedCommitted(z, c) && z.codes[c].username == n;
      }
    }
    assert forall n :: UserFree(z, n) <==> UserFree(s, n);
  }

  lemma IssueKeeps(s: State, e: Event)
    requires Invariant(s) && Enabled(s, e) && e.IssueCode?
    ensures Invariant(After(s, e))
  {
    WorkKeepsNames(s, e);
    var row := Code(s.queue[e.task].username, s.queue[e.task].read.value, e.secret, false, e.now + CODE_LIFETIME);
    NewCodeKeepsViews(s, After(s, e), e.code, row);
  }

  lemma BeginKeeps(s: State, e: Event)
    requires Invariant(s) && Enabled(s, e) && e.Begin?
    ensures Invariant(After(s, e))
  {
    var z := After(s, e);
    assert forall t, c :: HoldsCode(z, t, c) <==> HoldsCode(s, t, c);
    assert forall t, n :: HoldsUser(z, t, n) <==> HoldsUser(s, t, n);
    forall c ensures UsedCommitted(z, c) <==> UsedCommitted(s, c) {
      assert CodeFree(z, c) <==> CodeFree(s, c);
    }
    assert forall n :: HasUsedCode(z, n) <==> HasUsedCode(s, n);
    assert forall n :: UserFree(z, n) <==> UserFree(s, n);
  }

  /** Marking a code holds it, so it does not count as used yet. */
  lemma MarkKeepsUsed(s: State, t: int)
    requires Enabled(s, Mark(t))
    ensures var z := After(s, Mark(t));
            && (forall u, n :: HoldsUser(z, u, n) <==> HoldsUser(s, u, n))
            && (forall u, c :: HoldsCode(z, u, c) <==>
                  HoldsCode(s, u, c) || (u == t && c == s.verifying[t].code && Usable(s, s.verifying[t])))
            && (forall c :: UsedCommitted(z, c) <==> UsedCommitted(s, c))
  {
    var z, v := After(s, Mark(t)), s.verifying[t];
    forall u, c ensures HoldsCode(z, u, c) <==> HoldsCode(s, u, c) || (u == t && c == v.code && Usable(s, v)) {}
    forall c ensures UsedCommitted(z, c) <==> UsedCommitted(s, c) {
      if c == v.code && Usable(s, v) {
        assert HoldsCode(z, t, c);
      } else {
        assert CodeFree(z, c) <==> CodeFree(s, c);
      }
    }
  }

  lemma MarkKeepsHasUsed(s: State, t: int)
    requires Enabled(s, Mark(t))
    ensures forall n :: HasUsedCode(After(s, Mark(t)), n) <==> HasUsedCode(s, n)
  {
    var z := After(s, Mark(t));
    MarkKeepsUsed(s, t);
    forall n ensures HasUsedCode(z, n) <==> HasUsedCode(s, n) {
      if c :| UsedCommitted(s, c) && s.codes[c].username == n {
        assert UsedCommitted(z, c) && z.codes[c].username == n;
      }
    }
  }

  lemma SameFlags(s: State, z: State)
    requires FlagsSound(s) && z.users == s.users
    requires forall u, n :: HoldsUser(z, u, n) <==> HoldsUser(s, u, n)
    requires forall u, n :: HoldsUser(s, u, n) ==> u in z.verifying && z.verifying[u].was == s.verifying[u].was
    requires forall n :: HasUsedCode(z, n) <==> HasUsedCode(s, n)
    ensures FlagsSound(z)
  {
    assert forall n :: UserFree(z, n) <==> UserFree(s, n);
  }

  lemma MarkKeepsLocks(s: State, t: int)
    requires LocksExclusive(s) && Enabled(s, Mark(t))
    ensures LocksExclusive(After(s, Mark(t)))
  {
    MarkKeepsUsed(s, t);
  }

  lemma MarkKeepsFlags(s: State, t: int)
    requires FlagsSound(s) && ConsumedSound(s) && Enabled(s, Mark(t))
    ensures FlagsSound(After(s, Mark(t))) && ConsumedSound(After(s, Mark(t)))
  {
    MarkKeepsUsed(s, t);
    MarkKeepsHasUsed(s, t);
    SameFlags(s, After(s, Mark(t)));
  }

  lemma MarkKeeps(s: State, t: int)
    requires Invariant(s) && Enabled(s, Mark(t))
    ensures Invariant(After(s, Mark(t)))
  {
    MarkKeepsLocks(s, t);
    MarkKeepsFlags(s, t);
    MarkKeepsNames(s, t);
  }

  lemma MarkKeepsNames(s: State, t: int)
    requires MarkedSound(s) && NamesApart(s) && TasksRemembered(s) && CodesNameUsers(s) && Enabled(s, Mark(t))
    ensures var z := After(s, Mark(t)); MarkedSound(z) && NamesApart(z) && TasksRemembered(z) && CodesNameUsers(z)
  {}

  /** Names and tasks see only who is registered, whom the codes name, and the queue. */
  lemma SameNamesKeep(s: State, z: State)
    requires NamesApart(s) && TasksRemembered(s) && CodesNameUsers(s)
    requires z.users.Keys == s.users.Keys && z.registering == s.registering
    requires z.queue == s.queue && z.everEnqueued == s.everEnqueued
    requires forall c :: c in z.codes ==> c in s.codes && z.codes[c].username == s.codes[c].username
    ensures NamesApart(z) && TasksRemembered(z) && CodesNameUsers(z)
  {}

  lemma FlagTakesUser(s: State, t: int)
    requires Enabled(s, Flag(t)) && s.verifying[t].username in s.users
    ensures var z, v := After(s, Flag(t)), s.verifying[t];
            && (forall u, c :: HoldsCode(z, u, c) <==> HoldsCode(s, u, c))
            && (forall u, n :: HoldsUser(z, u, n) <==> HoldsUser(s, u, n) || (u == t && n == v.username))
            && (forall c :: UsedCommitted(z, c) <==> UsedCommitted(s, c))
            && (forall n :: HasUsedCode(z, n) <==> HasUsedCode(s, n))
            && (forall n :: n != v.username ==> (UserFree(z, n) <==> UserFree(s, n)))
            && !UserFree(z, v.username)
  {
    var z, v := After(s, Flag(t)), s.verifying[t];
    forall u, c ensures HoldsCode(z, u, c) <==> HoldsCode(s, u, c) {}
    forall u, n ensures HoldsUser(z, u, n) <==> HoldsUser(s, u, n) || (u == t && n == v.username) {}
    forall c ensures UsedCommitted(z, c) <==> UsedCommitted(s, c) {
      assert CodeFree(z, c) <==> CodeFree(s, c);
    }
    assert forall n :: HasUsedCode(z, n) <==> HasUsedCode(s, n);
    forall n | n != v.username ensures UserFree(z, n) <==> UserFree(s, n) {}
    assert HoldsUser(z, t, v.username);
  }

  lemma FlagKeepsLocks(s: State, t: int)
    requires LocksExclusive(s) && MarkedSound(s) && ConsumedSound(s)
    requires Enabled(s, Flag(t)) && s.verifying[t].username in s.users
    ensures var z := After(s, Flag(t)); LocksExclusive(z) && MarkedSound(z) && ConsumedSound(z)
  {
    FlagTakesUser(s, t);
  }

  lemma FlagKeepsFlags(s: State, t: int)
    requires FlagsSound(s) && Enabled(s, Flag(t)) && s.verifying[t].username in s.users
    ensures FlagsSound(After(s, Flag(t)))
  {
    FlagTakesUser(s, t);
    assert UserFree(s, s.verifying[t].username);
  }

  lemma FlagKeeps(s: State, t: int)
    requires Invariant(s) && Enabled(s, Flag(t))
    ensures Invariant(After(s, Flag(t)))
  {
    assert s.verifying[t].username in s.users;
    FlagKeepsLocks(s, t);
    FlagKeepsFlags(s, t);
    SameNamesKeep(s, After(s, Flag(t)));
  }

  /** Leaving gives back the locks of `t` and nobody else's. */
  lemma LeavingFreesLocks(s: State, z: State, t: int)
    requires z.verifying == s.verifying - {t}
    ensures forall u, c :: HoldsCode(z, u, c) <==> u != t && HoldsCode(s, u, c)
    ensures forall u, n :: HoldsUser(z, u, n) <==> u != t && HoldsUser(s, u, n)
  {}

  /** A commit turns a marked code into a used one. */
  lemma CommitUsesCode(s: State, t: int)
    requires LocksExclusive(s) && MarkedSound(s) && Enabled(s, CommitVerification(t))
    ensures var z, v := After(s, CommitVerification(t)), s.verifying[t];
            && !UsedCommitted(s, v.code)
            && (forall c :: UsedCommitted(z, c) <==> UsedCommitted(s, c) || c == v.code)
            && (forall n :: HasUsedCode(z, n) <==> HasUsedCode(s, n) || n == v.username)
  {
    var z, v := After(s, CommitVerification(t)), s.verifying[t];
    LeavingFreesLocks(s, z, t);
    assert HoldsCode(s, t, v.code);
    forall c ensures UsedCommitted(z, c) <==> UsedCommitted(s, c) || c == v.code {
      if c == v.code {
        assert CodeFree(z, c);
      } else {
        assert CodeFree(z, c) <==> CodeFree(s, c);
      }
    }
    forall n ensures HasUsedCode(z, n) <==> HasUsedCode(s, n) || n == v.username {
      if c :| UsedCommitted(s, c) && s.codes[c].username == n {
        assert UsedCommitted(z, c) && z.codes[c].username == n;
      }
      assert UsedCommitted(z, v.code) && z.codes[v.code].username == v.username;
    }
  }

  /** The user of a committed code is flagged already. */
  lemma CommitKeepsFlags(s: State, t: int)
    requires LocksExclusive(s) && MarkedSound(s) && FlagsSound(s) && Enabled(s, CommitVerification(t))
    ensures FlagsSound(After(s, CommitVerification(t)))
  {
    var z, v := After(s, CommitVerification(t)), s.verifying[t];
    CommitUsesCode(s, t);
    LeavingFreesLocks(s, z, t);
    assert HoldsUser(s, t, v.username);
    forall n | n != v.username ensures UserFree(z, n) <==> UserFree(s, n) {}
  }

  lemma CommitKeepsCodes(s: State, t: int)
    requires LocksExclusive(s) && MarkedSound(s) && ConsumedSound(s) && Enabled(s, CommitVerification(t))
    ensures var z := After(s, CommitVerification(t)); LocksExclusive(z) && MarkedSound(z) && ConsumedSound(z)
  {
    CommitUsesCode(s, t);
    LeavingFreesLocks(s, After(s, CommitVerification(t)), t);
  }

  lemma CommitVerificationKeeps(s: State, t: int)
    requires Invariant(s) && Enabled(s, CommitVerification(t))
    ensures Invariant(After(s, CommitVerification(t)))
  {
    CommitKeepsCodes(s, t);
    CommitKeepsFlags(s, t);
    SameNamesKeep(s, After(s, CommitVerification(t)));
  }

  /** Rolling a verification back changes no committed view of any code. */
  lemma UndoKeepsUsed(s: State, t: int)
    requires LocksExclusive(s) && MarkedSound(s) && t in s.verifying
    ensures var z := Undone(s, t);
            && (forall c :: UsedCommitted(z, c) <==> UsedCommitted(s, c))
            && (forall n :: HasUsedCode(z, n) <==> HasUsedCode(s, n))
            && MarkedSound(z) && LocksExclusive(z)
  {
    var z, v := Undone(s, t), s.verifying[t];
    LeavingFreesLocks(s, z, t);
    if v.stage >= 1 {
      assert HoldsCode(s, t, v.code);
      forall u | u != t && u in s.verifying && s.verifying[u].stage >= 1
        ensures s.verifying[u].code != v.code
      {
        assert HoldsCode(s, u, s.verifying[u].code);
      }
    }
    forall c ensures UsedCommitted(z, c) <==> UsedCommitted(s, c) {
      if v.stage == 0 || c != v.code {
        assert CodeFree(z, c) <==> CodeFree(s, c);
      }
    }
    forall n ensures HasUsedCode(z, n) <==> HasUsedCode(s, n) {
      if c :| UsedCommitted(s, c) && s.codes[c].username == n {
        assert UsedCommitted(z, c) && z.codes[c].username == n;
      }
    }
  }

  lemma UndoKeepsFlags(s: State, t: int)
    requires LocksExclusive(s) && MarkedSound(s) && FlagsSound(s) && ConsumedSound(s) && t in s.verifying
    ensures FlagsSound(Undone(s, t)) && ConsumedSound(Undone(s, t))
    ensures Undone(s, t).users.Keys == s.users.Keys
  {
    var z, v := Undone(s, t), s.verifying[t];
    UndoKeepsUsed(s, t);
    LeavingFreesLocks(s, z, t);
    if v.stage >= 2 {
      assert HoldsUser(s, t, v.username);
    }
    forall n | v.stage < 2 || n != v.username ensures UserFree(z, n) <==> UserFree(s, n) {}
  }

  lemma UndoKeeps(s: State, t: int)
    requires Invariant(s) && t in s.verifying
    ensures Invariant(Undone(s, t))
  {
    UndoKeepsUsed(s, t);
    UndoKeepsFlags(s, t);
    SameNamesKeep(s, Undone(s, t));
  }

  /** Unique addresses: inserts and changes look at every row and every insert in flight first. */
  lemma EmailsStayApart(s: State, e: Event)
    requires EmailsApart(s) && FlagsSound(s) && Enabled(s, e)
    ensures EmailsApart(After(s, e))
  {
    if e.DropVerification? {
      UndoKeepsEmails(s, e.t);
    } else if e.Flag? {
      FlagKeepsEmails(s, e.t);
    } else if e.UpdateProfile? {
      ProfileKeepsEmails(s, e);
    } else if e.Insert? || e.Enqueue? || e.CommitUser? || e.DropUser? {
      RegisterKeepsEmails(s, e);
    } else {
      OthersKeepUsers(s, e);
    }
  }

  lemma OthersKeepUsers(s: State, e: Event)
    requires Enabled(s, e) && !e.DropVerification? && !e.Flag? && !e.UpdateProfile?
    requires !e.Insert? && !e.Enqueue? && !e.CommitUser? && !e.DropUser?
    ensures After(s, e).users == s.users && After(s, e).registering == s.registering
  {}

  lemma RegisterKeepsEmails(s: State, e: Event)
    requires EmailsApart(s) && Enabled(s, e) && (e.Insert? || e.Enqueue? || e.CommitUser? || e.DropUser?)
    ensures EmailsApart(After(s, e))
  {}

  lemma UndoKeepsEmails(s: State, t: int)
    requires EmailsApart(s) && FlagsSound(s) && t in s.verifying
    ensures EmailsApart(Undone(s, t))
  {
    var v := s.verifying[t];
    if v.stage >= 2 {
      assert HoldsUser(s, t, v.username);
    }
  }

  lemma FlagKeepsEmails(s: State, t: int)
    requires EmailsApart(s) && FlagsSound(s) && Enabled(s, Flag(t))
    ensures EmailsApart(After(s, Flag(t)))
  {
    if s.verifying[t].username !in s.users {
      UndoKeepsEmails(s, t);
    }
  }

  lemma ProfileKeepsEmails(s: State, e: Event)
    requires EmailsApart(s) && Enabled(s, e) && e.UpdateProfile?
    ensures EmailsApart(After(s, e))
  {}

  lemma EventKeeps(s: State, e: Event)
    requires Invariant(s) && Enabled(s, e)
    ensures Invariant(After(s, e))
  {
    match e
    case CommitUser(t) => CommitUserKeeps(s, t);
    case IssueCode(_, _, _, _, _) => IssueKeeps(s, e);
    case UpdateProfile(_, _, _, _, _) => ProfileKeeps(s, e);
    case Begin(_, _, _, _) => BeginKeeps(s, e);
    case Mark(t) => MarkKeeps(s, t);
    case Flag(t) => FlagKeeps(s, t);
    case CommitVerification(t) => CommitVerificationKeeps(s, t);
    case DropVerification(t) => UndoKeeps(s, t);
    case Fetch(_) => WorkKeeps(s, e);
    case FailTask(_) => WorkKeeps(s, e);
    case _ => RegisterKeeps(s, e);
  }

  lemma {:induction false} RunsKeep(s: State, run: seq<Event>)
    requires Initial(s) && Legal(s, run)
    ensures Invariant(Final(s, run))
  {
    if run != [] {
      RunsKeep(s, run[..|run| - 1]);
      EventKeeps(Final(s, run[..|run| - 1]), run[|run| - 1]);
    }
  }

  lemma {:induction false} EmailsAlwaysApart(s: State, run: seq<Event>)
    requires Initial(s) && Legal(s, run)
    ensures EmailsApart(Final(s, run))
  {
    if run != [] {
      EmailsAlwaysApart(s, run[..|run| - 1]);
      RunsKeep(s, run[..|run| - 1]);
      EmailsStayApart(Final(s, run[..|run| - 1]), run[|run| - 1]);
    }
  }

  // ---------- What it means ----------

  /** A user is verified exactly when one of the user's codes is used. */
  lemma VerifiedExactlyWhenUsed(s: State, run: seq<Event>, username: string)
    requires Initial(s) && Legal(s, run) && username in Final(s, run).users
    ensures VerifiedCommitted(Final(s, run), username) <==> HasUsedCode(Final(s, run), username)
  {
    var z := Final(s, run);
    RunsKeep(s, run);
    if t :| HoldsUser(z, t, username) {
      assert forall u :: HoldsUser(z, u, username) ==> u == t;
    } else {
      assert UserFree(z, username);
    }
  }

  /** A code is used exactly when one successful `VerifyEmailTx` consumed it, and no second one ever does. */
  lemma EachCodeIsConsumedOnce(s: State, run: seq<Event>, code: int)
    requires Initial(s) && Legal(s, run)
    ensures UsedCommitted(Final(s, run), code) <==> code in Final(s, run).consumed
    ensures multiset(Final(s, run).consumed)[code] <= 1
  {
    RunsKeep(s, run);
    OncePerElement(Final(s, run).consumed, code);
  }

  lemma {:induction false} OncePerElement(xs: seq<int>, x: int)
    requires forall i, j :: 0 <= i < j < |xs| ==> xs[i] != xs[j]
    ensures multiset(xs)[x] <= 1
  {
    if xs != [] {
      var front := xs[..|xs| - 1];
      assert xs == front + [xs[|xs| - 1]];
      OncePerElement(front, x);
      if x == xs[|xs| - 1] {
        assert x !in front;
      }
    }
  }

  /** Both flags only ever go up. */
  lemma FlagsOnlyRise(s: State, run: seq<Event>, e: Event)
    requires Initial(s) && Legal(s, run) && Enabled(Final(s, run), e)
    ensures forall c :: UsedCommitted(Final(s, run), c) ==> UsedCommitted(After(Final(s, run), e), c)
    ensures forall n :: VerifiedCommitted(Final(s, run), n) ==> VerifiedCommitted(After(Final(s, run), e), n)
  {
    var z := Final(s, run);
    var w := After(z, e);
    RunsKeep(s, run);
    EventKeeps(z, e);
    UsedStaysUsed(z, e);
    forall n | VerifiedCommitted(z, n)
      ensures VerifiedCommitted(w, n)
    {
      VerifiedIsUsed(z, n);
      var c :| UsedCommitted(z, c) && z.codes[c].username == n;
      assert UsedCommitted(w, c) && w.codes[c].username == n;
      VerifiedIsUsed(w, n);
    }
  }

  lemma VerifiedIsUsed(s: State, n: string)
    requires Invariant(s) && n in s.users
    ensures VerifiedCommitted(s, n) <==> HasUsedCode(s, n)
  {
    if t :| HoldsUser(s, t, n) {
      assert forall u :: HoldsUser(s, u, n) ==> u == t;
    } else {
      assert UserFree(s, n);
    }
  }

  lemma HistoryGrows(s: State, e: Event)
    requires Enabled(s, e)
    ensures s.consumed <= After(s, e).consumed
  {}

  lemma CodesKeepTheirUsers(s: State, e: Event)
    requires Enabled(s, e)
    ensures forall c :: c in s.codes ==> c in After(s, e).codes && After(s, e).codes[c].username == s.codes[c].username
  {}

  lemma UsersStay(s: State, e: Event)
    requires Enabled(s, e)
    ensures forall n :: n in s.users ==> n in After(s, e).users
  {}

  lemma UsedStaysUsed(s: State, e: Event)
    requires ConsumedSound(s) && Enabled(s, e) && ConsumedSound(After(s, e))
    ensures forall c :: UsedCommitted(s, c) ==>
              UsedCommitted(After(s, e), c) && After(s, e).codes[c].username == s.codes[c].username
    ensures forall n :: n in s.users ==> n in After(s, e).users
  {
    var z := After(s, e);
    HistoryGrows(s, e);
    CodesKeepTheirUsers(s, e);
    UsersStay(s, e);
    forall c | UsedCommitted(s, c)
      ensures UsedCommitted(z, c) && z.codes[c].username == s.codes[c].username
    {
      var i :| 0 <= i < |s.consumed| && s.consumed[i] == c;
      assert z.consumed[i] == c;
    }
  }

  /** Usernames and addresses are unique among committed users. */
  lemma AddressesAreUnique(s: State, run: seq<Event>, u: string, v: string)
    requires Initial(s) && Legal(s, run) && u in Final(s, run).users && v in Final(s, run).users
    ensures Final(s, run).users[u].email == Final(s, run).users[v].email ==> u == v
  {
    EmailsAlwaysApart(s, run);
  }

  lemma LegalSnoc(s: State, run: seq<Event>, e: Event)
    requires Legal(s, run) && Enabled(Final(s, run), e)
    ensures Legal(s, run + [e]) && Final(s, run + [e]) == After(Final(s, run), e)
  {
    assert (run + [e])[..|run + [e]| - 1] == run;
  }

  /** A profile update never touches the verified flag; a verification touches nothing else. */
  lemma MergesTouchTheirFields(u: User, name: Option<string>, email: Option<string>, password: Option<string>, now: int)
    ensures Merge(u, ProfileChange(name, email, password, now)).verified == u.verified
    ensures Merge(u, ProfileChange(name, email, password, now)).passwordChangedAt
            == if password.Some? then now else u.passwordChangedAt
    ensures Merge(u, MARK_VERIFIED) == u.(verified := true)
  {}

  ghost predicate RetriesBounded(s: State) {
    forall k :: k in s.queue ==> s.queue[k].failures <= MAX_RETRY
  }

  lemma EventBoundsRetries(s: State, e: Event)
    requires RetriesBounded(s) && Enabled(s, e)
    ensures RetriesBounded(After(s, e))
  {}

  /** A task is attempted at most `MAX_RETRY + 1` times: its failures are counted and never exceed the limit. */
  lemma {:induction false} RetriesAreBounded(s: State, run: seq<Event>)
    requires Initial(s) && Legal(s, run)
    ensures RetriesBounded(Final(s, run))
  {
    if run != [] {
      RetriesAreBounded(s, run[..|run| - 1]);
      EventBoundsRetries(Final(s, run[..|run| - 1]), run[|run| - 1]);
    }
  }

  /** Only the worker takes tasks out of the queue or changes them. */
  lemma OthersLeaveTasks(s: State, e: Event, task: int)
    requires Enabled(s, e) && !e.Fetch? && !e.IssueCode? && !e.FailTask? && task in s.queue
    ensures task in After(s, e).queue && After(s, e).queue[task] == s.queue[task]
  {}

  /**
   * A task leaves the queue only when its mail has gone out with a fresh code, when its user is missing,
   * or on one failure too many; after any other failure it is there again, to be read anew.
   */
  lemma TasksLeaveOnlyWhenDone(s: State, e: Event, task: int)
    requires Enabled(s, e) && task in s.queue
    ensures task !in After(s, e).queue <==>
            || (e.IssueCode? && e.task == task && (e.mailed || s.queue[task].failures >= MAX_RETRY))
            || (e.Fetch? && e.task == task && s.queue[task].username !in s.users)
            || (e.FailTask? && e.task == task && s.queue[task].failures >= MAX_RETRY)
    ensures task in After(s, e).queue && After(s, e).queue[task].failures != s.queue[task].failures ==>
              After(s, e).queue[task] == Task(s.queue[task].username, s.queue[task].failures + 1, None)
  {
    if !e.Fetch? && !e.IssueCode? && !e.FailTask? {
      OthersLeaveTasks(s, e, task);
    }
  }

  /** A code goes to the user of the task, unused, at the address just read. */
  lemma CodesGoToTheAddressRead(s: State, e: Event)
    requires Enabled(s, e) && e.IssueCode?
    ensures e.code !in s.codes && e.code in After(s, e).codes
    ensures After(s, e).codes[e.code]
            == Code(s.queue[e.task].username, s.queue[e.task].read.value, e.secret, false, e.now + CODE_LIFETIME)
  {}

  // ---------- Verifications do not deadlock ----------

  /** `t` waits for the code or the user that `u` holds. */
  ghost predicate WaitsFor(s: State, t: int, u: int) {
    && t in s.verifying && u in s.verifying && t != u
    && ((s.verifying[t].stage == 0 && HoldsCode(s, u, s.verifying[t].code))
        || (s.verifying[t].stage == 1 && HoldsUser(s, u, s.verifying[t].username)))
  }

  /** A walk along waiting edges. */
  ghost predicate WaitChain(s: State, chain: seq<int>) {
    |chain| >= 2 && forall i :: 0 <= i < |chain| - 1 ==> WaitsFor(s, chain[i], chain[i + 1])
  }

  /** Each waits for one that is further on. */
  lemma {:induction false} ChainsClimb(s: State, chain: seq<int>)
    requires WaitChain(s, chain)
    ensures chain[0] in s.verifying && chain[|chain| - 1] in s.verifying
    ensures s.verifying[chain[0]].stage < s.verifying[chain[|chain| - 1]].stage
  {
    var k := |chain| - 2;
    assert WaitsFor(s, chain[k], chain[k + 1]);
    if k > 0 {
      ChainsClimb(s, chain[..|chain| - 1]);
    }
  }

  /** Verifications never wait for each other in a circle. */
  lemma VerificationsNeverDeadlock(s: State, run: seq<Event>, chain: seq<int>)
    requires Initial(s) && Legal(s, run) && WaitChain(Final(s, run), chain)
    ensures chain[0] != chain[|chain| - 1]
  {
    ChainsClimb(Final(s, run), chain);
  }

  /** While any verification is in progress, one of them can take its next step. */
  lemma VerificationsGoOn(s: State, run: seq<Event>, t: int) returns (e: Event)
    requires Initial(s) && Legal(s, run) && t in Final(s, run).verifying
    ensures Enabled(Final(s, run), e) && (e.Mark? || e.Flag? || e.CommitVerification?)
  {
    var z := Final(s, run);
    StagesInRange(s, run);
    var u := t;
    if z.verifying[u].stage == 0 && !CodeFree(z, z.verifying[u].code) {
      u :| HoldsCode(z, u, z.verifying[t].code);
    }
    if z.verifying[u].stage == 1 && !UserFree(z, z.verifying[u].username) {
      var name := z.verifying[u].username;
      u :| HoldsUser(z, u, name);
    }
    e := if z.verifying[u].stage == 0 then Mark(u)
         else if z.verifying[u].stage == 1 then Flag(u)
         else CommitVerification(u);
  }

  lemma StagesInRange(s: State, run: seq<Event>)
    requires Initial(s) && Legal(s, run)
    ensures forall t :: t in Final(s, run).verifying ==> Final(s, run).verifying[t].stage <= 2
  {
    RunsKeep(s, run);
  }
}
