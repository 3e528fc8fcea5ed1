/** Users and verification codes as one session drives them, and how that fits the concurrent machine. */
module UserStore {
  import opened Errors
  import opened Schema
  import opened Onboarding

  datatype Rows = Rows(users: map<string, User>, codes: map<int, Code>)

  /** The row that an insert creates; the other columns have defaults. */
  function NewUser(password: string, fullName: string, email: string): User {
    User(password, 0, fullName, email, false)
  }

  predicate CanRegister(rows: Rows, username: string, email: string) {
    username !in rows.users && AddressFree(rows.users, username, email)
  }

  predicate CanChange(rows: Rows, username: string, change: Change) {
    username in rows.users && (change.email.Some? ==> AddressFree(rows.users, username, change.email.value))
  }

  /** The code is on record, the secret is right, and it is neither used nor expired. */
  predicate Accepts(rows: Rows, id: int, secret: string, now: int) {
    id in rows.codes && rows.codes[id].secret == secret && !rows.codes[id].used && rows.codes[id].expiresAt > now
  }

  /** The foreign key of the codes. */
  predicate Linked(rows: Rows) {
    forall c :: c in rows.codes ==> rows.codes[c].username in rows.users
  }

  /** One code used up and its user flagged. */
  function Verified(rows: Rows, id: int): Rows
    requires id in rows.codes && rows.codes[id].username in rows.users
  {
    var username := rows.codes[id].username;
    Rows(rows.users[username := rows.users[username].(verified := true)],
         rows.codes[id := rows.codes[id].(used := true)])
  }

  /** How an attempt at a task ends: done, given up for good, or to be tried again. */
  datatype Attempt = Processed | Skipped | ToRetry

  class UserStore {
    var rows: Rows
    /** The rows at BEGIN, while a transaction is open. */
    var begun: Option<Rows>
    var nextCode: int
    /** The task queue is not part of the database: no rollback reaches it. */
    var queue: seq<string>

    ghost predicate Valid()
      reads this
    {
      && (forall c :: c in rows.codes ==> c < nextCode)
      && (forall u :: u in rows.users ==> AddressFree(rows.users, u, rows.users[u].email))
    }

    constructor ()
      ensures Valid() && begun.None? && rows == Rows(map[], map[]) && queue == []
    {
      rows, begun, nextCode, queue := Rows(map[], map[]), None, 1, [];
    }

    // ---------- Queries ----------

    method CreateUser(username: string, password: string, fullName: string, email: string) returns (r: Result<User>)
      requires Valid()
      modifies this`rows
      ensures Valid()
      ensures r.Ok? <==> CanRegister(old(rows), username, email)
      ensures r.Ok? ==>
                && r.value == NewUser(password, fullName, email)
                && rows == old(rows).(users := old(rows).users[username := r.value])
      ensures r.Err? ==> rows == old(rows) && r.error == UniqueViolation
    {
      if username in rows.users || !AddressFree(rows.users, username, email) {
        return Err(UniqueViolation);
      }
      rows := rows.(users := rows.users[username := NewUser(password, fullName, email)]);
      r := Ok(rows.users[username]);
    }

    method GetUser(username: string) returns (r: Result<User>)
      ensures r == if username in rows.users then Ok(rows.users[username]) else Err(NoRows)
    {
      if username !in rows.users {
        return Err(NoRows);
      }
      r := Ok(rows.users[username]);
    }

    method UpdateUser(username: string, change: Change) returns (r: Result<User>)
      requires Valid()
      modifies this`rows
      ensures Valid()
      ensures r.Ok? <==> CanChange(old(rows), username, change)
      ensures r.Ok? ==>
                && username in old(rows).users
                && r.value == Merge(old(rows).users[username], change)
                && rows == old(rows).(users := old(rows).users[username := r.value])
      ensures r.Err? ==> rows == old(rows) && r.error == if username in old(rows).users then UniqueViolation else NoRows
    {
      if username !in rows.users {
        return Err(NoRows);
      }
      if change.email.Some? && !AddressFree(rows.users, username, change.email.value) {
        return Err(UniqueViolation);
      }
      rows := rows.(users := rows.users[username := Merge(rows.users[username], change)]);
      r := Ok(rows.users[username]);
    }

    /** A new code lives for fifteen minutes. */
    method CreateVerifyEmail(username: string, email: string, secret: string, now: int)
      returns (id: int, r: Result<Code>)
      requires Valid()
      modifies this`rows, this`nextCode
      ensures Valid() && id == old(nextCode) && nextCode == id + 1
      ensures r.Ok? <==> username in old(rows).users
      ensures r.Ok? ==>
                && r.value == Code(username, email, secret, false, now + 15 * 60)
                && id !in old(rows).codes && rows == old(rows).(codes := old(rows).codes[id := r.value])
      ensures r.Err? ==> rows == old(rows) && r.error == ForeignKeyViolation
    {
      id := nextCode;
      nextCode := nextCode + 1;
      if username !in rows.users {
        return id, Err(ForeignKeyViolation);
      }
      rows := rows.(codes := rows.codes[id := Code(username, email, secret, false, now + CODE_LIFETIME)]);
      r := Ok(rows.codes[id]);
    }

    method UpdateVerifyEmail(id: int, secret: string, now: int) returns (r: Result<Code>)
      requires Valid()
      modifies this`rows
      ensures Valid()
      ensures r.Ok? <==> Accepts(old(rows), id, secret, now)
      ensures r.Ok? ==>
                && id in old(rows).codes && r.value == old(rows).codes[id].(used := true)
                && rows == old(rows).(codes := old(rows).codes[id := r.value])
      ensures r.Err? ==> rows == old(rows) && r.error == NoRows
    {
      if id !in rows.codes {
        return Err(NoRows);
      }
      var row := rows.codes[id];
      if row.secret != secret || row.used || row.expiresAt <= now {
        return Err(NoRows);
      }
      rows := rows.(codes := rows.codes[id := row.(used := true)]);
      r := Ok(rows.codes[id]);
    }

    // ---------- Transactions ----------

    method Begin()
      requires begun.None?
      modifies this`begun
      ensures begun == Some(rows)
    {
      begun := Some(rows);
    }

    method Rollback()
      requires begun.Some?
      modifies this`rows, this`begun
      ensures begun.None? && rows == old(begun).value
    {
      rows := begun.value;
      begun := None;
    }

    method Commit()
      requires begun.Some?
      modifies this`begun
      ensures begun.None?
    {
      begun := None;
    }

    /** Uses the code and flags its user, both or neither; a second call with the same code is refused. */
    method VerifyEmailTx(id: int, secret: string, now: int) returns (user: Option<User>, r: Result<Code>)
      requires Valid() && begun.None?
      modifies this`rows, this`begun
      ensures Valid() && begun.None?
      ensures r.Ok? <==> Accepts(old(rows), id, secret, now) && old(rows).codes[id].username in old(rows).users
      ensures r.Ok? ==>
                && rows == Verified(old(rows), id)
                && r.value == rows.codes[id] && user == Some(rows.users[r.value.username])
                && (forall s, later :: !Accepts(rows, id, s, later))
      ensures r.Err? ==> rows == old(rows) && user.None? && r.error == NoRows
      ensures Linked(old(rows)) ==> Linked(rows) && (r.Ok? <==> Accepts(old(rows), id, secret, now))
    {
      user := None;
      Begin();
      r := UpdateVerifyEmail(id, secret, now);
      if r.Err? {
        Rollback();
        return;
      }
      var updated := UpdateUser(r.value.username, MARK_VERIFIED);
      if updated.Err? {
        Rollback();
        return None, Err(updated.error);
      }
      user := Some(updated.value);
      Commit();
    }

    /** Puts the task in the queue, unless the queue cannot be reached. */
    method Distribute(username: string, reachable: bool) returns (r: Result<()>)
      modifies this`queue
      ensures r == if reachable then Ok(()) else Err(EnqueueFailed)
      ensures queue == if reachable then old(queue) + [username] else old(queue)
    {
      if !reachable {
        return Err(EnqueueFailed);
      }
      queue := queue + [username];
      r := Ok(());
    }

    /**
     * A user who is registered has a task in the queue, enqueued before the commit.
     * The converse fails only when the commit itself does: the row is gone and the task stays.
     */
    method CreateUserTx(username: string, password: string, fullName: string, email: string,
                        reachable: bool, commits: bool) returns (r: Result<User>)
      requires Valid() && begun.None?
      modifies this`rows, this`begun, this`queue
      ensures Valid() && begun.None?
      ensures r.Ok? <==> CanRegister(old(rows), username, email) && reachable && commits
      ensures r.Ok? ==>
                && r.value == NewUser(password, fullName, email)
                && rows == old(rows).(users := old(rows).users[username := r.value])
      ensures r.Err? ==> rows == old(rows)
      ensures r == Err(UniqueViolation) <==> !CanRegister(old(rows), username, email)
      ensures r == Err(EnqueueFailed) <==> CanRegister(old(rows), username, email) && !reachable
      ensures r == Err(CommitFailed) <==> CanRegister(old(rows), username, email) && reachable && !commits
      ensures queue == if CanRegister(old(rows), username, email) && reachable then old(queue) + [username]
                       else old(queue)
    {
      Begin();
      r := CreateUser(username, password, fullName, email);
      if r.Err? {
        Rollback();
        return;
      }
      var sent := Distribute(username, reachable);
      if sent.Err? {
        Rollback();
        return Err(sent.error);
      }
      if !commits {
        Rollback();
        return Err(CommitFailed);
      }
      Commit();
    }

    // ---------- The worker and the profile handler ----------

    /** A task for a missing user is given up; otherwise one fresh, unused code is issued for the current address. */
    method ProcessTask(username: string, secret: string, now: int, mailed: bool) returns (attempt: Attempt)
      requires Valid()
      modifies this`rows, this`nextCode
      ensures Valid()
      ensures attempt == if username !in old(rows).users then Skipped else if mailed then Processed else ToRetry
      ensures attempt == Skipped ==> rows == old(rows)
      ensures Linked(old(rows)) ==> Linked(rows)
      ensures attempt != Skipped ==>
                && old(nextCode) !in old(rows).codes
                && rows == old(rows).(codes := old(rows).codes[old(nextCode) :=
                     Code(username, old(rows).users[username].email, secret, false, now + CODE_LIFETIME)])
    {
      var user := GetUser(username);
      if user.Err? {
        return Skipped;
      }
      var _, r := CreateVerifyEmail(username, user.value.email, secret, now);
      if r.Err? {
        return ToRetry;
      }
      return if mailed then Processed else ToRetry;
    }

    /** A profile update is the user's own, changes at least one field, and never the verified flag or anyone else. */
    method UpdateUserFor(caller: string, username: string, fullName: Option<string>, email: Option<string>,
                         password: Option<string>, now: int) returns (status: Status)
      requires Valid()
      modifies this`rows
      ensures Valid() && rows.codes == old(rows).codes
      ensures status == OK <==>
              && (fullName.Some? || email.Some? || password.Some?) && caller == username
              && CanChange(old(rows), username, ProfileChange(fullName, email, password, now))
      ensures status == InvalidArgument <==> fullName.None? && email.None? && password.None?
      ensures status == PermissionDenied <==> status != InvalidArgument && caller != username
      ensures status == NotFound <==>
              status != InvalidArgument && caller == username && username !in old(rows).users
      ensures status == AlreadyExists <==>
              && status != InvalidArgument && caller == username && username in old(rows).users
              && email.Some? && !AddressFree(old(rows).users, username, email.value)
      ensures status != OK ==> rows == old(rows)
      ensures rows.users.Keys == old(rows).users.Keys
      ensures forall u :: u in rows.users ==>
                && rows.users[u].verified == old(rows).users[u].verified
                && (u != username ==> rows.users[u] == old(rows).users[u])
      ensures status == OK ==>
                var before, after := old(rows).users[username], rows.users[username];
                && after.fullName == Coalesce(fullName, before.fullName) && after.email == Coalesce(email, before.email)
                && after.password == Coalesce(password, before.password)
                && after.passwordChangedAt == if password.Some? then now else before.passwordChangedAt
    {
      if fullName.None? && email.None? && password.None? {
        return InvalidArgument;
      }
      if caller != username {
        return PermissionDenied;
      }
      var change := Change(None, None, None, None, None);
      if fullName.Some? {
        change := change.(fullName := fullName);
      }
      if email.Some? {
        change := change.(email := email);
      }
      if password.Some? {
        change := change.(password := password, passwordChangedAt := Some(now));
      }
      var r := UpdateUser(username, change);
      match r {
        case Ok(_) => status := OK;
        case Err(e) =>
          status := if e == NoRows then NotFound else if e == UniqueViolation then AlreadyExists else Internal;
      }
    }
  }

  // ---------- Against the concurrent machine ----------

  function RowsOf(s: State): Rows {
    Rows(s.users, s.codes)
  }

  /** A code that is not accepted ends the verification where it began. */
  lemma RefusalAlone(s: State, t: int, id: int, secret: string, now: int)
    requires s.verifying == map[] && !Accepts(RowsOf(s), id, secret, now)
    ensures Enabled(s, Event.Begin(t, id, secret, now))
    ensures Enabled(After(s, Event.Begin(t, id, secret, now)), Mark(t))
    ensures After(After(s, Event.Begin(t, id, secret, now)), Mark(t)) == s
  {
    assert After(s, Event.Begin(t, id, secret, now)).verifying - {t} == s.verifying;
  }

  /** An accepted code is marked while nobody else is at work. */
  lemma MarkAlone(s: State, t: int, id: int, secret: string, now: int)
    requires s.verifying == map[] && Accepts(RowsOf(s), id, secret, now)
    ensures Enabled(s, Event.Begin(t, id, secret, now))
    ensures Enabled(After(s, Event.Begin(t, id, secret, now)), Mark(t))
    ensures var m := After(After(s, Event.Begin(t, id, secret, now)), Mark(t));
            && m == s.(codes := s.codes[id := s.codes[id].(used := true)], verifying := m.verifying)
            && m.verifying.Keys == {t} && m.verifying[t].stage == 1 && m.verifying[t].code == id
            && m.verifying[t].username == s.codes[id].username
  {}

  /** With no other verification in progress the steps of the machine do what `VerifyEmailTx` does by itself. */
  lemma VerificationAlone(s: State, t: int, id: int, secret: string, now: int)
    requires s.verifying == map[] && CodesNameUsers(s) && Accepts(RowsOf(s), id, secret, now)
    ensures Enabled(s, Event.Begin(t, id, secret, now))
    ensures Enabled(After(s, Event.Begin(t, id, secret, now)), Mark(t))
    ensures var m := After(After(s, Event.Begin(t, id, secret, now)), Mark(t));
            && Enabled(m, Flag(t)) && Enabled(After(m, Flag(t)), CommitVerification(t))
            && After(After(m, Flag(t)), CommitVerification(t))
               == s.(users := Verified(RowsOf(s), id).users, codes := Verified(RowsOf(s), id).codes,
                     consumed := s.consumed + [id])
  {
    MarkAlone(s, t, id, secret, now);
    var m := After(After(s, Event.Begin(t, id, secret, now)), Mark(t));
    assert UserFree(m, s.codes[id].username);
    FinishAlone(s, m, t, id);
  }

  lemma FinishAlone(s: State, m: State, t: int, id: int)
    requires id in s.codes && s.codes[id].username in s.users && s.verifying == map[]
    requires m == s.(codes := s.codes[id := s.codes[id].(used := true)], verifying := m.verifying)
    requires m.verifying.Keys == {t} && m.verifying[t].stage == 1 && m.verifying[t].code == id
    requires m.verifying[t].username == s.codes[id].username && UserFree(m, s.codes[id].username)
    ensures Enabled(m, Flag(t)) && Enabled(After(m, Flag(t)), CommitVerification(t))
    ensures After(After(m, Flag(t)), CommitVerification(t))
            == s.(users := Verified(RowsOf(s), id).users, codes := Verified(RowsOf(s), id).codes,
                  consumed := s.consumed + [id])
  {
    assert After(m, Flag(t)).verifying - {t} == s.verifying;
  }

  /** A verification that is dropped, before or after either of its statements, ends where it began. */
  lemma DropAlone(s: State, t: int, id: int, secret: string, now: int)
    requires s.verifying == map[] && CodesNameUsers(s) && Accepts(RowsOf(s), id, secret, now)
    ensures Enabled(s, Event.Begin(t, id, secret, now))
    ensures var b := After(s, Event.Begin(t, id, secret, now));
            && Enabled(b, DropVerification(t)) && After(b, DropVerification(t)) == s
            && Enabled(b, Mark(t))
            && var m := After(b, Mark(t));
               && Enabled(m, DropVerification(t)) && After(m, DropVerification(t)) == s
               && Enabled(m, Flag(t))
               && var f := After(m, Flag(t));
                  Enabled(f, DropVerification(t)) && After(f, DropVerification(t)) == s
  {
    var b := After(s, Event.Begin(t, id, secret, now));
    assert b.verifying - {t} == s.verifying;
    MarkAlone(s, t, id, secret, now);
    var m := After(b, Mark(t));
    assert m.verifying - {t} == s.verifying && m.codes[id := m.codes[id].(used := false)] == s.codes;
    var name := s.codes[id].username;
    assert UserFree(m, name);
    var f := After(m, Flag(t));
    assert f.verifying - {t} == s.verifying && f.users[name := s.users[name]] == s.users;
  }

  /** The worker at a task that nobody has read yet, for a user who is there: what `ProcessTask` does by itself. */
  lemma TaskAlone(s: State, task: int, code: int, secret: string, now: int, mailed: bool)
    requires task in s.queue && s.queue[task].read.None? && s.queue[task].username in s.users && code !in s.codes
    ensures Enabled(s, Fetch(task))
    ensures var f := After(s, Fetch(task));
            && Enabled(f, IssueCode(task, code, secret, now, mailed))
            && var w, name, n := After(f, IssueCode(task, code, secret, now, mailed)),
                                 s.queue[task].username, s.queue[task].failures;
               && w.codes == s.codes[code := Code(name, s.users[name].email, secret, false, now + 15 * 60)]
               && (mailed ==> w.queue == s.queue - {task} && w.archived == s.archived)
               && (!mailed && n < 10 ==>
                     w.queue == s.queue[task := Task(name, n + 1, None)] && w.archived == s.archived)
               && (!mailed && n >= 10 ==>
                     w.queue == s.queue - {task} && w.archived == s.archived + {Exhausted(name)})
               && w == s.(codes := w.codes, queue := w.queue, archived := w.archived)
  {
    var f := After(s, Fetch(task));
    assert f.queue - {task} == s.queue - {task};
    var retry := Task(s.queue[task].username, s.queue[task].failures + 1, None);
    assert f.queue[task := retry] == s.queue[task := retry];
  }

  /** And for a user who is not: the task is not tried again. */
  lemma SkippedAlone(s: State, task: int)
    requires task in s.queue && s.queue[task].read.None? && s.queue[task].username !in s.users
    ensures Enabled(s, Fetch(task))
    ensures After(s, Fetch(task))
            == s.(queue := s.queue - {task}, archived := s.archived + {NotRetried(s.queue[task].username)})
  {}

  /**
   * Whatever else is in progress, if it concerns neither this user nor the address asked for, a profile update
   * goes through exactly when `UpdateUser` would, with its effect.
   */
  lemma ProfileAlone(s: State, username: string, fullName: Option<string>, email: Option<string>,
                     password: Option<string>, now: int)
    requires UserFree(s, username)
    requires forall r :: r in s.registering && email.Some? ==> s.registering[r].user.email != email.value
    ensures var e, change := UpdateProfile(username, fullName, email, password, now),
                             ProfileChange(fullName, email, password, now);
            && (Enabled(s, e) <==> CanChange(RowsOf(s), username, change))
            && (Enabled(s, e) ==>
                  After(s, e) == s.(users := s.users[username := Merge(s.users[username], change)]))
  {}

  /** With no other registration in progress the steps of the machine do what `CreateUserTx` does by itself. */
  lemma RegistrationAlone(
    s: State, t: int, task: int, username: string, password: string, fullName: string, email: string)
    requires s.registering == map[] && task !in s.queue
    ensures Enabled(s, Insert(t, username, password, fullName, email)) <==> CanRegister(RowsOf(s), username, email)
    ensures CanRegister(RowsOf(s), username, email) ==>
              var i := After(s, Insert(t, username, password, fullName, email));
              && Enabled(i, Enqueue(t, task))
              && Enabled(After(i, Enqueue(t, task)), CommitUser(t))
              && After(After(i, Enqueue(t, task)), CommitUser(t))
                 == s.(users := s.users[username := NewUser(password, fullName, email)],
                       queue := s.queue[task := Task(username, 0, None)],
                       everEnqueued := s.everEnqueued + {username})
  {
    if CanRegister(RowsOf(s), username, email) {
      var i := After(s, Insert(t, username, password, fullName, email));
      var e := After(i, Enqueue(t, task));
      assert e.registering - {t} == s.registering;
    }
  }
}
