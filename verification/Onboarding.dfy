/**
 * Registration, the task queue, verification codes and profile updates, all running at once.
 * Rows are changed in place; `VerifyEmailTx` and `CreateUserTx` are transactions of several steps,
 * everything else is one statement with its own commit.
 */
module Onboarding {
  import opened Schema

  datatype User = User(password: string, passwordChangedAt: int, fullName: string, email: string, verified: bool)

  datatype Code = Code(username: string, email: string, secret: string, used: bool, expiresAt: int)

  const MAX_RETRY: nat := 10
  const CODE_LIFETIME: int := 900

  /** The optional fields of `UpdateUserParams`. */
  datatype Change = Change(
    password: Option<string>, passwordChangedAt: Option<int>, fullName: Option<string>,
    email: Option<string>, verified: Option<bool>)

  function Coalesce<T>(x: Option<T>, y: T): T {
    if x.Some? then x.value else y
  }

  /** UPDATE users SET ... = COALESCE($n, ...): a NULL argument keeps the column. */
  function Merge(u: User, c: Change): User {
    User(Coalesce(c.password, u.password), Coalesce(c.passwordChangedAt, u.passwordChangedAt),
         Coalesce(c.fullName, u.fullName), Coalesce(c.email, u.email), Coalesce(c.verified, u.verified))
  }

  /** The arguments that the `UpdateUser` handler passes: the time is stamped only with a new password. */
  function ProfileChange(fullName: Option<string>, email: Option<string>, password: Option<string>, now: int): Change {
    Change(password, if password.Some? then Some(now) else None, fullName, email, None)
  }

  const MARK_VERIFIED := Change(None, None, None, None, Some(true))

  /** A verification in progress: 0 statements run, the code marked, or the user flagged too. */
  datatype Verification = Verification(code: int, secret: string, now: int, stage: nat, username: string, was: User)

  /** A registration in progress: its row is inserted but invisible; its task may be enqueued. */
  datatype Registration = Registration(username: string, user: User, enqueued: bool)

  /** A task in the queue, with the email address that the current attempt has read. */
  datatype Task = Task(username: string, failures: nat, read: Option<string>)

  /** The queue's archive of tasks that are not tried again: retried too often, or told to skip by the worker. */
  datatype Archived = Exhausted(username: string) | NotRetried(username: string)

  datatype State = State(
    users: map<string, User>,
    codes: map<int, Code>,
    verifying: map<int, Verification>,
    registering: map<int, Registration>,
    queue: map<int, Task>,
    archived: set<Archived>,
    /** What has happened: usernames enqueued, codes consumed. */
    everEnqueued: set<string>,
    consumed: seq<int>)

  // ---------- Locks ----------

  ghost predicate HoldsCode(s: State, t: int, code: int) {
    t in s.verifying && s.verifying[t].stage >= 1 && s.verifying[t].code == code
  }

  ghost predicate HoldsUser(s: State, t: int, username: string) {
    t in s.verifying && s.verifying[t].stage >= 2 && s.verifying[t].username == username
  }

  ghost predicate CodeFree(s: State, code: int) {
    forall t :: !HoldsCode(s, t, code)
  }

  ghost predicate UserFree(s: State, username: string) {
    forall t :: !HoldsUser(s, t, username)
  }

  /** No user but perhaps `username` has this address. */
  predicate AddressFree(users: map<string, User>, username: string, email: string) {
    forall u :: u in users && u != username ==> users[u].email != email
  }

  /** No committed user and no registration in flight has this name or address. */
  predicate NameFree(s: State, username: string, email: string) {
    && username !in s.users
    && AddressFree(s.users, username, email)
    && (forall r :: r in s.registering ==>
          s.registering[r].username != username && s.registering[r].user.email != email)
  }

  predicate EmailFree(s: State, username: string, email: string) {
    && AddressFree(s.users, username, email)
    && (forall r :: r in s.registering ==> s.registering[r].user.email != email)
  }

  // ---------- Steps ----------

  datatype Event =
    /** `CreateUserTx`: insert, enqueue inside the transaction, commit; or give up anywhere. */
    | Insert(t: int, username: string, password: string, fullName: string, email: string)
    | Enqueue(t: int, task: int)
    | CommitUser(t: int)
    | DropUser(t: int)
    /** The worker: fetch the user, insert a code, send mail; each may fail. */
    | Fetch(task: int)
    | IssueCode(task: int, code: int, secret: string, now: int, mailed: bool)
    | FailTask(task: int)
    /** The `UpdateUser` handler. */
    | UpdateProfile(
        username: string, newName: Option<string>, newEmail: Option<string>, newPassword: Option<string>, now: int)
    /** `VerifyEmailTx`: mark the code, flag the user, commit; or give up anywhere. */
    | Begin(t: int, code: int, secret: string, now: int)
    | Mark(t: int)
    | Flag(t: int)
    | CommitVerification(t: int)
    | DropVerification(t: int)

  ghost predicate Enabled(s: State, e: Event) {
    match e
    case Insert(t, username, _, _, email) => t !in s.registering && NameFree(s, username, email)
    case Enqueue(t, task) => t in s.registering && !s.registering[t].enqueued && task !in s.queue
    case CommitUser(t) => t in s.registering && s.registering[t].enqueued
    case DropUser(t) => t in s.registering
    case Fetch(task) => task in s.queue && s.queue[task].read.None?
    case IssueCode(task, code, _, _, _) => task in s.queue && s.queue[task].read.Some? && code !in s.codes
    case FailTask(task) => task in s.queue
    case UpdateProfile(username, _, email, _, _) =>
      && username in s.users && UserFree(s, username)
      && (email.Some? ==> EmailFree(s, username, email.value))
    case Begin(t, _, _, _) => t !in s.verifying
    case Mark(t) => t in s.verifying && s.verifying[t].stage == 0 && CodeFree(s, s.verifying[t].code)
    case Flag(t) => t in s.verifying && s.verifying[t].stage == 1 && UserFree(s, s.verifying[t].username)
    case CommitVerification(t) => t in s.verifying && s.verifying[t].stage == 2
    case DropVerification(t) => t in s.verifying
  }

  /** A failed attempt is retried, up to the limit. */
  function Failed(s: State, task: int): State
    requires task in s.queue
  {
    var x := s.queue[task];
    if x.failures >= MAX_RETRY then s.(queue := s.queue - {task}, archived := s.archived + {Exhausted(x.username)})
    else s.(queue := s.queue[task := Task(x.username, x.failures + 1, None)])
  }

  /** The guard of `UpdateVerifyEmail`, re-evaluated on the row version that the lock gives access to. */
  predicate Usable(s: State, v: Verification) {
    && v.code in s.codes && s.codes[v.code].secret == v.secret
    && !s.codes[v.code].used && s.codes[v.code].expiresAt > v.now
  }

  /** Restores the rows a verification has changed. */
  function Undone(s: State, t: int): State
    requires t in s.verifying
  {
    var v := s.verifying[t];
    var users := if v.stage >= 2 then s.users[v.username := v.was] else s.users;
    var codes :=
      if v.stage >= 1 && v.code in s.codes then s.codes[v.code := s.codes[v.code].(used := false)] else s.codes;
    s.(users := users, codes := codes, verifying := s.verifying - {t})
  }

  function After(s: State, e: Event): State
    requires Enabled(s, e)
  {
    match e
    case Insert(t, username, password, fullName, email) =>
      s.(registering := s.registering[t := Registration(username, User(password, 0, fullName, email, false), false)])
    case Enqueue(t, task) =>
      var r := s.registering[t];
      s.(registering := s.registering[t := r.(enqueued := true)],
         queue := s.queue[task := Task(r.username, 0, None)],
         everEnqueued := s.everEnqueued + {r.username})
    case CommitUser(t) =>
      var r := s.registering[t];
      s.(users := s.users[r.username := r.user], registering := s.registering - {t})
    case DropUser(t) => s.(registering := s.registering - {t})
    case Fetch(task) =>
      var x := s.queue[task];
      if x.username !in s.users then s.(queue := s.queue - {task}, archived := s.archived + {NotRetried(x.username)})
      else s.(queue := s.queue[task := x.(read := Some(s.users[x.username].email))])
    case IssueCode(task, code, secret, now, mailed) =>
      var x := s.queue[task];
      var issued := s.(codes := s.codes[code := Code(x.username, x.read.value, secret, false, now + CODE_LIFETIME)]);
      if mailed then issued.(queue := s.queue - {task}) else Failed(issued, task)
    case FailTask(task) => Failed(s, task)
    case UpdateProfile(username, fullName, email, password, now) =>
      s.(users := s.users[username := Merge(s.users[username], ProfileChange(fullName, email, password, now))])
    case Begin(t, code, secret, now) =>
      s.(verifying := s.verifying[t := Verification(code, secret, now, 0, "", User("", 0, "", "", false))])
    case Mark(t) =>
      var v := s.verifying[t];
      if !Usable(s, v) then s.(verifying := s.verifying - {t})
      else
        s.(codes := s.codes[v.code := s.codes[v.code].(used := true)],
           verifying := s.verifying[t := v.(stage := 1, username := s.codes[v.code].username)])
    case Flag(t) =>
      var v := s.verifying[t];
      if v.username !in s.users then Undone(s, t)
      else
        s.(users := s.users[v.username := Merge(s.users[v.username], MARK_VERIFIED)],
           verifying := s.verifying[t := v.(stage := 2, was := s.users[v.username])])
    case CommitVerification(t) =>
      s.(verifying := s.verifying - {t}, consumed := s.consumed + [s.verifying[t].code])
    case DropVerification(t) => Undone(s, t)
  }

  // ---------- The committed state ----------

  /** What everyone but the transaction in progress sees of a code and of a user. */
  ghost predicate UsedCommitted(s: State, code: int) {
    code in s.codes && s.codes[code].used && CodeFree(s, code)
  }

  ghost predicate VerifiedCommitted(s: State, username: string) {
    && username in s.users && s.users[username].verified
    && forall t :: HoldsUser(s, t, username) ==> s.verifying[t].was.verified
  }

  ghost predicate HasUsedCode(s: State, username: string) {
    exists c :: UsedCommitted(s, c) && s.codes[c].username == username
  }

  // ---------- Invariant ----------

  ghost predicate LocksExclusive(s: State) {
    && (forall t, u, c :: HoldsCode(s, t, c) && HoldsCode(s, u, c) ==> t == u)
    && (forall t, u, n :: HoldsUser(s, t, n) && HoldsUser(s, u, n) ==> t == u)
  }

  ghost predicate MarkedSound(s: State) {
    forall t :: t in s.verifying && s.verifying[t].stage >= 1 ==>
      var v := s.verifying[t];
      && v.stage <= 2
      && v.code in s.codes && s.codes[v.code].used && s.codes[v.code].username == v.username
  }

  ghost predicate FlagsSound(s: State) {
    && (forall n :: n in s.users && UserFree(s, n) ==> (s.users[n].verified <==> HasUsedCode(s, n)))
    && (forall t, n :: HoldsUser(s, t, n) ==>
          && n in s.users && s.users[n] == s.verifying[t].was.(verified := true)
          && (s.verifying[t].was.verified <==> HasUsedCode(s, n)))
  }

  ghost predicate CodesNameUsers(s: State) {
    && (forall c :: c in s.codes ==> s.codes[c].username in s.users)
    && (forall k :: k in s.queue && s.queue[k].read.Some? ==> s.queue[k].username in s.users)
  }

  ghost predicate NamesApart(s: State) {
    && (forall r :: r in s.registering ==> s.registering[r].username !in s.users && !s.registering[r].user.verified)
    && (forall r, q :: r in s.registering && q in s.registering && r != q ==>
          s.registering[r].username != s.registering[q].username)
  }

  ghost predicate EmailsApart(s: State) {
    && (forall u, v :: u in s.users && v in s.users && u != v ==> s.users[u].email != s.users[v].email)
    && (forall u, r :: u in s.users && r in s.registering ==> s.users[u].email != s.registering[r].user.email)
    && (forall r, q :: r in s.registering && q in s.registering && r != q ==>
          s.registering[r].user.email != s.registering[q].user.email)
  }

  ghost predicate TasksRemembered(s: State) {
    && (forall r :: r in s.registering && s.registering[r].enqueued ==> s.registering[r].username in s.everEnqueued)
    && (forall u :: u in s.users ==> u in s.everEnqueued)
  }

  ghost predicate ConsumedSound(s: State) {
    && (forall i :: 0 <= i < |s.consumed| ==> UsedCommitted(s, s.consumed[i]))
    && (forall i, j :: 0 <= i < j < |s.consumed| ==> s.consumed[i] != s.consumed[j])
    && (forall c :: UsedCommitted(s, c) ==> c in s.consumed)
  }

  ghost predicate Invariant(s: State) {
    && LocksExclusive(s) && MarkedSound(s) && FlagsSound(s) && CodesNameUsers(s)
    && NamesApart(s) && TasksRemembered(s) && ConsumedSound(s)
  }

  ghost predicate Initial(s: State) {
    s == State(map[], map[], map[], map[], map[], {}, {}, [])
  }

  ghost predicate Legal(s: State, run: seq<Event>)
    decreases |run|, 0
  {
    run == [] || (Legal(s, run[..|run| - 1]) && Enabled(Final(s, run[..|run| - 1]), run[|run| - 1]))
  }

  ghost function Final(s: State, run: seq<Event>): State
    requires Legal(s, run)
    decreases |run|, 1
  {
    if run == [] then s else After(Final(s, run[..|run| - 1]), run[|run| - 1])
  }
}
