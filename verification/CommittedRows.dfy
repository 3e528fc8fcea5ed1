/** The committed rows of users and codes: what each event may do to them, and that a rollback does nothing. */
module CommittedRows {
  import opened Schema
  import opened Onboarding
  import opened OnboardingProofs

  /** The row of a user as everyone but the transaction in progress sees it. */
  ghost function CommittedUser(s: State, name: string): Option<User> {
    if exists t :: HoldsUser(s, t, name)
    then var t :| HoldsUser(s, t, name); Some(s.verifying[t].was)
    else Lookup(s.users, name)
  }

  ghost predicate CodeHeld(s: State, code: int) {
    exists t :: HoldsCode(s, t, code)
  }

  /** The row of a code as everyone but the transaction in progress sees it. */
  ghost function CommittedCode(s: State, code: int): Option<Code> {
    if code !in s.codes then None
    else if CodeHeld(s, code) then Some(s.codes[code].(used := false))
    else Some(s.codes[code])
  }

  function Given<T>(x: Option<T>, y: T): T {
    match x
    case Some(v) => v
    case None => y
  }

  /** What an event makes of a user's committed row: three kinds of event change one, each in its own way. */
  ghost function UserAfter(z: State, e: Event, name: string): Option<User>
    requires Enabled(z, e)
  {
    var before := CommittedUser(z, name);
    match e
    case CommitUser(t) =>
      if z.registering[t].username == name then Some(z.registering[t].user) else before
    case UpdateProfile(username, fullName, email, password, now) =>
      if username != name || before.None? then before
      else
        var u := before.value;
        Some(User(Given(password, u.password), if password.Some? then now else u.passwordChangedAt,
                  Given(fullName, u.fullName), Given(email, u.email), u.verified))
    case CommitVerification(t) =>
      if z.verifying[t].username != name || before.None? then before
      else Some(before.value.(verified := true))
    case _ => before
  }

  ghost function CodeAfter(z: State, e: Event, code: int): Option<Code>
    requires Enabled(z, e)
  {
    var before := CommittedCode(z, code);
    match e
    case IssueCode(task, c, secret, now, _) =>
      if c != code then before
      else Some(Code(z.queue[task].username, z.queue[task].read.value, secret, false, now + 15 * 60))
    case CommitVerification(t) =>
      if z.verifying[t].code != code || before.None? then before
      else Some(before.value.(used := true))
    case _ => before
  }

  lemma UserHeldBy(s: State, t: int, name: string)
    requires LocksExclusive(s) && HoldsUser(s, t, name)
    ensures CommittedUser(s, name) == Some(s.verifying[t].was)
  {}

  lemma UserNotHeld(s: State, name: string)
    requires forall t :: !HoldsUser(s, t, name)
    ensures CommittedUser(s, name) == Lookup(s.users, name)
  {}

  /** Nobody's hold on the user has changed, nor the row. */
  lemma UserStays(z: State, w: State, name: string)
    requires LocksExclusive(z) && LocksExclusive(w)
    requires forall t :: HoldsUser(w, t, name) <==> HoldsUser(z, t, name)
    requires forall t :: HoldsUser(z, t, name) ==> w.verifying[t].was == z.verifying[t].was
    requires Lookup(w.users, name) == Lookup(z.users, name)
    ensures CommittedUser(w, name) == CommittedUser(z, name)
  {
    if t :| HoldsUser(z, t, name) {
      UserHeldBy(z, t, name);
      UserHeldBy(w, t, name);
    }
  }

  lemma CodeStays(z: State, w: State, code: int)
    requires CodeHeld(w, code) <==> CodeHeld(z, code)
    requires Lookup(w.codes, code) == Lookup(z.codes, code)
    ensures CommittedCode(w, code) == CommittedCode(z, code)
  {
    assert code in w.codes <==> code in z.codes by { assert Lookup(w.codes, code) == Lookup(z.codes, code); }
  }

  // ---------- Flagging, leaving and committing ----------

  /** A flag in progress hides the row it changes behind the image it keeps. */
  lemma FlagHidesUser(z: State, t: int, name: string)
    requires Invariant(z) && Enabled(z, Flag(t))
    ensures CommittedUser(After(z, Flag(t)), name) == CommittedUser(z, name)
  {
    var w := After(z, Flag(t));
    assert z.verifying[t].username in z.users;
    FlagTakesUser(z, t);
    FlagKeepsLocks(z, t);
    if name == z.verifying[t].username {
      assert forall u :: !HoldsUser(z, u, name) by { assert UserFree(z, name); }
      assert HoldsUser(w, t, name);
      UserHeldBy(w, t, name);
    } else {
      UserStays(z, w, name);
    }
  }

  lemma LeavingUser(z: State, w: State, t: int, name: string)
    requires Invariant(z) && LocksExclusive(w) && t in z.verifying && w.verifying == z.verifying - {t}
    requires if HoldsUser(z, t, name) then name in w.users else Lookup(w.users, name) == Lookup(z.users, name)
    ensures CommittedUser(w, name) ==
            if HoldsUser(z, t, name) then Some(w.users[name]) else CommittedUser(z, name)
  {
    LeavingFreesLocks(z, w, t);
    if HoldsUser(z, t, name) {
      assert forall u :: HoldsUser(z, u, name) ==> u == t;
      assert forall u :: !HoldsUser(w, u, name);
    } else {
      UserStays(z, w, name);
    }
  }

  lemma UndoRestoresUser(z: State, t: int, name: string)
    requires Invariant(z) && t in z.verifying
    ensures CommittedUser(Undone(z, t), name) == CommittedUser(z, name)
  {
    UndoKeeps(z, t);
    if HoldsUser(z, t, name) {
      UserHeldBy(z, t, name);
    }
    LeavingUser(z, Undone(z, t), t, name);
  }

  lemma CommitShowsUser(z: State, t: int, name: string)
    requires Invariant(z) && Enabled(z, CommitVerification(t))
    ensures CommittedUser(After(z, CommitVerification(t)), name) == UserAfter(z, CommitVerification(t), name)
  {
    EventKeeps(z, CommitVerification(t));
    assert HoldsUser(z, t, name) <==> z.verifying[t].username == name;
    if HoldsUser(z, t, name) {
      UserHeldBy(z, t, name);
      assert z.users[name] == z.verifying[t].was.(verified := true);
    }
    LeavingUser(z, After(z, CommitVerification(t)), t, name);
  }

  lemma MarkHidesCode(z: State, t: int, code: int)
    requires Invariant(z) && Enabled(z, Mark(t))
    ensures CommittedCode(After(z, Mark(t)), code) == CommittedCode(z, code)
  {
    var w, v := After(z, Mark(t)), z.verifying[t];
    MarkKeepsUsed(z, t);
    if code == v.code && Usable(z, v) {
      assert HoldsCode(w, t, code);
      assert forall u :: !HoldsCode(z, u, code) by { assert CodeFree(z, code); }
      assert CodeHeld(w, code) && !CodeHeld(z, code);
    } else {
      assert forall u :: HoldsCode(w, u, code) <==> HoldsCode(z, u, code);
      CodeStays(z, w, code);
    }
  }

  lemma LeavingCode(z: State, w: State, t: int, code: int)
    requires Invariant(z) && t in z.verifying && w.verifying == z.verifying - {t}
    requires if HoldsCode(z, t, code) then code in w.codes else Lookup(w.codes, code) == Lookup(z.codes, code)
    ensures CommittedCode(w, code) ==
            if HoldsCode(z, t, code) then Some(w.codes[code]) else CommittedCode(z, code)
  {
    LeavingFreesLocks(z, w, t);
    if HoldsCode(z, t, code) {
      assert forall u :: HoldsCode(z, u, code) ==> u == t;
      assert !CodeHeld(w, code);
    } else {
      assert forall u :: HoldsCode(w, u, code) <==> HoldsCode(z, u, code);
      CodeStays(z, w, code);
    }
  }

  lemma UndoRestoresCode(z: State, t: int, code: int)
    requires Invariant(z) && t in z.verifying
    ensures CommittedCode(Undone(z, t), code) == CommittedCode(z, code)
  {
    if HoldsCode(z, t, code) {
      assert code in z.codes && CodeHeld(z, code);
    }
    LeavingCode(z, Undone(z, t), t, code);
  }

  lemma CommitShowsCode(z: State, t: int, code: int)
    requires Invariant(z) && Enabled(z, CommitVerification(t))
    ensures CommittedCode(After(z, CommitVerification(t)), code) == CodeAfter(z, CommitVerification(t), code)
  {
    assert HoldsCode(z, t, code) <==> z.verifying[t].code == code;
    if HoldsCode(z, t, code) {
      assert code in z.codes && z.codes[code].used && CodeHeld(z, code);
    }
    LeavingCode(z, After(z, CommitVerification(t)), t, code);
  }

  // ---------- All events ----------

  lemma OthersKeepHolds(z: State, e: Event)
    requires Enabled(z, e) && !e.Mark? && !e.Flag? && !e.CommitVerification? && !e.DropVerification?
    ensures forall t, n :: HoldsUser(After(z, e), t, n) <==> HoldsUser(z, t, n)
    ensures forall t, n :: HoldsUser(z, t, n) ==> After(z, e).verifying[t].was == z.verifying[t].was
    ensures forall t, c :: HoldsCode(After(z, e), t, c) <==> HoldsCode(z, t, c)
  {}

  lemma ProfileShowsUser(z: State, e: Event, name: string)
    requires Invariant(z) && Enabled(z, e) && e.UpdateProfile?
    ensures CommittedUser(After(z, e), name) == UserAfter(z, e, name)
  {
    OthersKeepHolds(z, e);
    EventKeeps(z, e);
    if e.username == name {
      assert forall t :: !HoldsUser(z, t, name) by { assert UserFree(z, name); }
      UserNotHeld(z, name);
      UserNotHeld(After(z, e), name);
    } else {
      UserStays(z, After(z, e), name);
    }
  }

  lemma RegistrationShowsUser(z: State, t: int, name: string)
    requires Invariant(z) && Enabled(z, CommitUser(t))
    ensures CommittedUser(After(z, CommitUser(t)), name) == UserAfter(z, CommitUser(t), name)
  {
    OthersKeepHolds(z, CommitUser(t));
    EventKeeps(z, CommitUser(t));
    if z.registering[t].username == name {
      assert forall u :: !HoldsUser(z, u, name);
      UserNotHeld(After(z, CommitUser(t)), name);
    } else {
      UserStays(z, After(z, CommitUser(t)), name);
    }
  }

  lemma MarkLeavesUser(z: State, t: int, name: string)
    requires Invariant(z) && Enabled(z, Mark(t))
    ensures CommittedUser(After(z, Mark(t)), name) == CommittedUser(z, name)
  {
    MarkKeepsUsed(z, t);
    MarkKeepsLocks(z, t);
    UserStays(z, After(z, Mark(t)), name);
  }

  /** The events of the worker and of registrations in flight. */
  predicate Elsewhere(e: Event) {
    e.Insert? || e.Enqueue? || e.DropUser? || e.Fetch? || e.IssueCode? || e.FailTask? || e.Begin?
  }

  lemma ElsewhereKeepsUsers(z: State, e: Event)
    requires Enabled(z, e) && Elsewhere(e)
    ensures After(z, e).users == z.users
  {}

  lemma OthersLeaveUser(z: State, e: Event, name: string)
    requires Invariant(z) && Enabled(z, e) && Elsewhere(e)
    ensures CommittedUser(After(z, e), name) == CommittedUser(z, name)
  {
    OthersKeepHolds(z, e);
    ElsewhereKeepsUsers(z, e);
    UserStays(z, After(z, e), name);
  }

  lemma EventShowsUser(z: State, e: Event, name: string)
    requires Invariant(z) && Enabled(z, e)
    ensures CommittedUser(After(z, e), name) == UserAfter(z, e, name)
  {
    match e
    case Flag(t) => FlagHidesUser(z, t, name);
    case DropVerification(t) => UndoRestoresUser(z, t, name);
    case CommitVerification(t) => CommitShowsUser(z, t, name);
    case UpdateProfile(_, _, _, _, _) => ProfileShowsUser(z, e, name);
    case CommitUser(t) => RegistrationShowsUser(z, t, name);
    case Mark(t) => MarkLeavesUser(z, t, name);
    case _ => OthersLeaveUser(z, e, name);
  }

  lemma IssueShowsCode(z: State, e: Event, code: int)
    requires Invariant(z) && Enabled(z, e) && e.IssueCode?
    ensures CommittedCode(After(z, e), code) == CodeAfter(z, e, code)
  {
    OthersKeepHolds(z, e);
    CodesGoToTheAddressRead(z, e);
    assert CodeHeld(After(z, e), code) <==> CodeHeld(z, code);
    if e.code == code {
      assert forall t :: !HoldsCode(z, t, code);
    } else {
      CodeStays(z, After(z, e), code);
    }
  }

  lemma FlagLeavesCode(z: State, t: int, code: int)
    requires Invariant(z) && Enabled(z, Flag(t))
    ensures CommittedCode(After(z, Flag(t)), code) == CommittedCode(z, code)
  {
    assert z.verifying[t].username in z.users;
    FlagTakesUser(z, t);
    CodeStays(z, After(z, Flag(t)), code);
  }

  lemma OthersKeepCodes(z: State, e: Event)
    requires Enabled(z, e) && !e.Mark? && !e.Flag? && !e.CommitVerification? && !e.DropVerification?
    requires !e.IssueCode?
    ensures After(z, e).codes == z.codes
  {}

  lemma OthersLeaveCode(z: State, e: Event, code: int)
    requires Enabled(z, e) && !e.Mark? && !e.Flag? && !e.CommitVerification? && !e.DropVerification?
    requires !e.IssueCode?
    ensures CommittedCode(After(z, e), code) == CommittedCode(z, code)
  {
    OthersKeepHolds(z, e);
    OthersKeepCodes(z, e);
    CodeStays(z, After(z, e), code);
  }

  lemma EventShowsCode(z: State, e: Event, code: int)
    requires Invariant(z) && Enabled(z, e)
    ensures CommittedCode(After(z, e), code) == CodeAfter(z, e, code)
  {
    match e
    case Mark(t) => MarkHidesCode(z, t, code);
    case Flag(t) => FlagLeavesCode(z, t, code);
    case DropVerification(t) => UndoRestoresCode(z, t, code);
    case CommitVerification(t) => CommitShowsCode(z, t, code);
    case IssueCode(_, _, _, _, _) => IssueShowsCode(z, e, code);
    case _ => OthersLeaveCode(z, e, code);
  }

  /**
   * In every run the committed row of a user changes at three events only: the commit of the registration makes it,
   * a profile update sets the fields given, the commit of a verification sets the flag; and the committed row of a
   * code at two: it is issued, and a commit marks it used. Marking, flagging and rolling back change neither.
   */
  lemma CommittedRowsFollow(s: State, run: seq<Event>, e: Event)
    requires Initial(s) && Legal(s, run) && Enabled(Final(s, run), e)
    ensures forall n :: CommittedUser(After(Final(s, run), e), n) == UserAfter(Final(s, run), e, n)
    ensures forall c :: CommittedCode(After(Final(s, run), e), c) == CodeAfter(Final(s, run), e, c)
  {
    var z := Final(s, run);
    RunsKeep(s, run);
    forall n ensures CommittedUser(After(z, e), n) == UserAfter(z, e, n) {
      EventShowsUser(z, e, n);
    }
    forall c ensures CommittedCode(After(z, e), c) == CodeAfter(z, e, c) {
      EventShowsCode(z, e, c);
    }
  }

  /** With no verification in progress the rows are the committed ones. */
  lemma QuietRowsAreCommitted(z: State)
    requires z.verifying == map[]
    ensures forall n :: CommittedUser(z, n) == Lookup(z.users, n)
    ensures forall c :: CommittedCode(z, c) == Lookup(z.codes, c)
  {
    assert forall t, n :: !HoldsUser(z, t, n);
    assert forall t, c :: !HoldsCode(z, t, c);
  }

  /** An insert of these values under transaction `t`, with the defaults of the other columns, is among the events. */
  ghost predicate InsertedBy(run: seq<Event>, t: int, r: Registration) {
    exists i :: 0 <= i < |run| && run[i].Insert? && run[i].t == t && run[i].username == r.username
                && r.user == User(run[i].password, 0, run[i].fullName, run[i].email, false)
  }

  lemma InsertedBefore(run: seq<Event>, e: Event, t: int, r: Registration, q: Registration)
    requires InsertedBy(run, t, r) && q.username == r.username && q.user == r.user
    ensures InsertedBy(run + [e], t, q)
  {
    var i :| 0 <= i < |run| && run[i].Insert? && run[i].t == t && run[i].username == r.username
             && r.user == User(run[i].password, 0, run[i].fullName, run[i].email, false);
    assert (run + [e])[i] == run[i];
  }

  lemma RegistrationsKeepRows(z: State, e: Event, t: int)
    requires Enabled(z, e) && t in After(z, e).registering
    ensures var r := After(z, e).registering[t];
            || (e.Insert? && e.t == t && e.username == r.username
                && r.user == User(e.password, 0, e.fullName, e.email, false))
            || (t in z.registering && r.username == z.registering[t].username && r.user == z.registering[t].user)
  {}

  /** What a registration is about to commit is what was asked for, through anything that happens in between. */
  lemma {:induction false} RegistrationsAreAsAsked(s: State, run: seq<Event>, t: int)
    requires Initial(s) && Legal(s, run) && t in Final(s, run).registering
    ensures InsertedBy(run, t, Final(s, run).registering[t])
  {
    var front, e := run[..|run| - 1], run[|run| - 1];
    var z, r := Final(s, front), Final(s, run).registering[t];
    assert run == front + [e];
    RegistrationsKeepRows(z, e, t);
    if t in z.registering && r.username == z.registering[t].username && r.user == z.registering[t].user {
      RegistrationsAreAsAsked(s, front, t);
      InsertedBefore(front, e, t, z.registering[t], r);
    } else {
      assert run[|run| - 1] == e;
    }
  }
}
