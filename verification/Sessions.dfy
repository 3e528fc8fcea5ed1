/** Login sessions and renewed access tokens over time. */
module Sessions {

  /** A token is an opaque, unforgeable encoding of its payload, so it is modelled by the payload. */
  datatype Payload = Payload(id: int, username: string, issuedAt: int, expiredAt: int)

  function NewPayload(id: int, username: string, now: int, duration: int): Payload {
    Payload(id, username, now, now + duration)
  }

  predicate Valid(p: Payload, now: int) {
    now <= p.expiredAt
  }

  datatype Session = Session(username: string, refreshToken: Payload, blocked: bool, expiresAt: int)

  datatype Config = Config(accessDuration: int, refreshDuration: int)

  datatype Refusal =
    | InvalidToken | SessionNotFound | SessionBlocked | InvalidSessionUser | MismatchedToken | SessionExpired

  datatype Reply = Refused(reason: Refusal) | Granted(access: Payload)

  /** What `LoginUser` handed out. */
  datatype Login = Login(username: string, access: Payload, refresh: Payload)

  datatype State = State(
    config: Config,
    sessions: map<int, Session>,
    /** Every access and refresh token given to a client. */
    access: set<Payload>,
    refresh: set<Payload>,
    logins: set<Login>,
    drawn: set<int>)

  /** `RenewAccessToken`, one check after the other; a single clock reading serves the whole call. */
  function Renew(sessions: map<int, Session>, accessDuration: int, token: Payload, now: int, id: int): Reply {
    if !Valid(token, now) then Refused(InvalidToken)
    else if token.id !in sessions then Refused(SessionNotFound)
    else
      var session := sessions[token.id];
      if session.blocked then Refused(SessionBlocked)
      else if session.username != token.username then Refused(InvalidSessionUser)
      else if session.refreshToken != token then Refused(MismatchedToken)
      else if now > session.expiresAt then Refused(SessionExpired)
      else Granted(NewPayload(id, token.username, now, accessDuration))
  }

  function Renewed(s: State, token: Payload, now: int, id: int): Reply {
    Renew(s.sessions, s.config.accessDuration, token, now, id)
  }

  datatype Event =
    /** Password accepted; the session row is stored, or the login fails after minting both tokens. */
    | LogIn(username: string, now: int, accessId: int, refreshId: int, stored: bool)
    /** The tokens verify: any payload that was minted with the server's key. */
    | RenewToken(token: Payload, now: int, id: int)
    /** No query of the store sets `is_blocked`; an operator may. */
    | Block(session: int)

  /** Every token a client can present was handed out. */
  predicate Known(s: State, token: Payload) {
    token in s.access || token in s.refresh
  }

  predicate Enabled(s: State, e: Event) {
    match e
    case LogIn(_, _, accessId, refreshId, _) => accessId !in s.drawn && refreshId !in s.drawn && accessId != refreshId
    case RenewToken(token, _, id) => Known(s, token) && id !in s.drawn
    case Block(session) => session in s.sessions
  }

  function After(s: State, e: Event): State
    requires Enabled(s, e)
  {
    match e
    case LogIn(username, now, accessId, refreshId, stored) =>
      var a := NewPayload(accessId, username, now, s.config.accessDuration);
      var r := NewPayload(refreshId, username, now, s.config.refreshDuration);
      var minted := s.(drawn := s.drawn + {accessId, refreshId});
      if !stored then minted
      else minted.(
          sessions := s.sessions[refreshId := Session(username, r, false, r.expiredAt)],
          access := s.access + {a}, refresh := s.refresh + {r},
          logins := s.logins + {Login(username, a, r)})
    case RenewToken(token, now, id) =>
      var reply := Renewed(s, token, now, id);
      if reply.Granted? then s.(access := s.access + {reply.access}, drawn := s.drawn + {id}) else s
    case Block(session) =>
      s.(sessions := s.sessions[session := s.sessions[session].(blocked := true)])
  }

  ghost predicate Initial(s: State) {
    s.sessions == map[] && s.access == {} && s.refresh == {} && s.logins == {} && s.drawn == {}
  }

  ghost predicate Legal(s: State, run: seq<Event>)
    decreases |run|, 0
  {
    run == [] || (Legal(s, run[..|run| - 1]) && Enabled(Final(s, run[..|run| - 1]), run[|run| - 1]))
  }

  ghost function Final(s: State, run: seq<Event>): State
    requires Legal(s, run)
    decreases |run|, 1
  {
    if run == [] then s else After(Final(s, run[..|run| - 1]), run[|run| - 1])
  }

  /** The session behind an access token: opened by a login of the same user, and still on record. */
  ghost predicate TracesTo(s: State, a: Payload, l: Login) {
    && l in s.logins && l.username == a.username
    && l.refresh.id in s.sessions && s.sessions[l.refresh.id].username == a.username
    && (a == l.access || a.expiredAt <= s.sessions[l.refresh.id].expiresAt + s.config.accessDuration)
    && a.expiredAt == a.issuedAt + s.config.accessDuration
  }

  ghost predicate SessionsSound(s: State) {
    forall k :: k in s.sessions ==>
      && s.sessions[k].refreshToken in s.refresh && s.sessions[k].refreshToken.id == k
      && s.sessions[k].expiresAt == s.sessions[k].refreshToken.expiredAt
      && s.sessions[k].username == s.sessions[k].refreshToken.username
  }

  ghost predicate LoginsSound(s: State) {
    forall l :: l in s.logins ==>
      && l.refresh.id in s.sessions && s.sessions[l.refresh.id].refreshToken == l.refresh
      && l.refresh.username == l.username && l.refresh.expiredAt == l.refresh.issuedAt + s.config.refreshDuration
      && l.access.issuedAt == l.refresh.issuedAt && l.access.expiredAt == l.access.issuedAt + s.config.accessDuration
  }

  ghost predicate RefreshTraced(s: State) {
    forall r :: r in s.refresh ==> exists l :: l in s.logins && l.refresh == r
  }

  ghost predicate AccessTraced(s: State) {
    forall a :: a in s.access ==> exists l :: TracesTo(s, a, l)
  }

  /** Ids are drawn once, and no access token shares the id of a session. */
  ghost predicate IdsSound(s: State) {
    && (forall p :: Known(s, p) ==> p.id in s.drawn)
    && (forall k :: k in s.sessions ==> k in s.drawn)
    && (forall a :: a in s.access ==> a.id !in s.sessions)
  }

  ghost predicate Invariant(s: State) {
    SessionsSound(s) && LoginsSound(s) && RefreshTraced(s) && AccessTraced(s) && IdsSound(s)
  }

  /** Sessions stay on record with their user and expiry, and logins are remembered. */
  ghost predicate Extends(s: State, z: State) {
    && s.logins <= z.logins && z.config == s.config
    && forall k :: k in s.sessions ==>
         k in z.sessions && z.sessions[k].username == s.sessions[k].username
         && z.sessions[k].expiresAt == s.sessions[k].expiresAt
  }

  /** Old access tokens keep their trace; a new one needs its own. */
  lemma AccessTracesStay(s: State, z: State, news: set<Payload>)
    requires AccessTraced(s) && Extends(s, z) && z.access == s.access + news
    requires forall a :: a in news ==> exists l :: TracesTo(z, a, l)
    ensures AccessTraced(z)
  {
    forall a | a in s.access ensures exists l :: TracesTo(z, a, l) {
      var l :| TracesTo(s, a, l);
      assert TracesTo(z, a, l);
    }
  }

  lemma LogInExtends(s: State, e: Event)
    requires IdsSound(s) && Enabled(s, e) && e.LogIn?
    ensures Extends(s, After(s, e)) && IdsSound(After(s, e))
  {}

  lemma LogInKeepsRows(s: State, e: Event)
    requires SessionsSound(s) && LoginsSound(s) && IdsSound(s) && Enabled(s, e) && e.LogIn?
    ensures SessionsSound(After(s, e)) && LoginsSound(After(s, e))
  {}

  lemma LogInKeepsRefresh(s: State, e: Event)
    requires RefreshTraced(s) && Enabled(s, e) && e.LogIn?
    ensures RefreshTraced(After(s, e))
  {
    var z := After(s, e);
    var r := NewPayload(e.refreshId, e.username, e.now, s.config.refreshDuration);
    var login := Login(e.username, NewPayload(e.accessId, e.username, e.now, s.config.accessDuration), r);
    forall x | x in z.refresh
      ensures exists l :: l in z.logins && l.refresh == x
    {
      if x in s.refresh {
        var l :| l in s.logins && l.refresh == x;
        assert l in z.logins;
      } else {
        assert login in z.logins && login.refresh == x;
      }
    }
  }

  lemma LogInKeeps(s: State, e: Event)
    requires Invariant(s) && Enabled(s, e) && e.LogIn?
    ensures Invariant(After(s, e))
  {
    var z := After(s, e);
    LogInExtends(s, e);
    LogInKeepsRows(s, e);
    LogInKeepsRefresh(s, e);
    var a := NewPayload(e.accessId, e.username, e.now, s.config.accessDuration);
    var r := NewPayload(e.refreshId, e.username, e.now, s.config.refreshDuration);
    if e.stored {
      assert TracesTo(z, a, Login(e.username, a, r));
      AccessTracesStay(s, z, {a});
    } else {
      AccessTracesStay(s, z, {});
    }
  }

  lemma RenewKeeps(s: State, e: Event)
    requires Invariant(s) && Enabled(s, e) && e.RenewToken?
    ensures Invariant(After(s, e))
  {
    var z, reply := After(s, e), Renewed(s, e.token, e.now, e.id);
    if reply.Granted? {
      var source :| source in s.logins && source.refresh == e.token;
      assert TracesTo(z, reply.access, source);
      AccessTracesStay(s, z, {reply.access});
    }
  }

  lemma BlockKeeps(s: State, e: Event)
    requires Invariant(s) && Enabled(s, e) && e.Block?
    ensures Invariant(After(s, e))
  {
    AccessTracesStay(s, After(s, e), {});
  }

  lemma {:induction false} RunsKeep(s: State, run: seq<Event>)
    requires Initial(s) && Legal(s, run)
    ensures Invariant(Final(s, run)) && Final(s, run).config == s.config
  {
    if run != [] {
      RunsKeep(s, run[..|run| - 1]);
      var z, e := Final(s, run[..|run| - 1]), run[|run| - 1];
      match e
      case LogIn(_, _, _, _, _) => LogInKeeps(z, e);
      case RenewToken(_, _, _) => RenewKeeps(z, e);
      case Block(_) => BlockKeeps(z, e);
    }
  }

  /**
   * Every access token, first or renewed, goes back to a successful login of the same user,
   * and, when sessions last at all, dies at the latest one access duration after that login's session expires.
   */
  lemma AccessGoesBackToLogin(s: State, run: seq<Event>, a: Payload)
    requires Initial(s) && Legal(s, run) && a in Final(s, run).access
    ensures exists l :: l in Final(s, run).logins && l.username == a.username
              && (a == l.access || a.expiredAt <= l.refresh.expiredAt + s.config.accessDuration)
              && (0 <= s.config.refreshDuration ==> a.expiredAt <= l.refresh.expiredAt + s.config.accessDuration)
  {
    var z := Final(s, run);
    RunsKeep(s, run);
    var l :| TracesTo(z, a, l);
    assert z.sessions[l.refresh.id].expiresAt == l.refresh.expiredAt;
  }

  /** Only a refresh token renews: one with no session under its own id, as every access token, is refused. */
  lemma AccessTokensNeverRenew(s: State, run: seq<Event>, token: Payload, now: int, id: int)
    requires Initial(s) && Legal(s, run)
    requires token in Final(s, run).access || token.id !in Final(s, run).sessions
    ensures Renewed(Final(s, run), token, now, id).Refused?
  {
    RunsKeep(s, run);
  }

  /**
   * Renewal is granted exactly to the refresh tokens of successful logins, while their session is open and unexpired;
   * no other token, whatever it claims, gets past the checks.
   */
  lemma RenewalIsExact(s: State, run: seq<Event>, token: Payload, now: int, id: int)
    requires Initial(s) && Legal(s, run)
    ensures token in Final(s, run).refresh ==> token.id in Final(s, run).sessions
    ensures Renewed(Final(s, run), token, now, id).Granted? <==>
            && token in Final(s, run).refresh
            && !Final(s, run).sessions[token.id].blocked && now <= token.expiredAt
    ensures Renewed(Final(s, run), token, now, id).Granted? ==>
              Renewed(Final(s, run), token, now, id).access
              == Payload(id, token.username, now, now + s.config.accessDuration)
  {
    var z := Final(s, run);
    RunsKeep(s, run);
    if token in z.refresh {
      var l :| l in z.logins && l.refresh == token;
    }
  }

  lemma LegalSnoc(s: State, run: seq<Event>, e: Event)
    requires Legal(s, run) && Enabled(Final(s, run), e)
    ensures Legal(s, run + [e]) && Final(s, run + [e]) == After(Final(s, run), e)
  {
    assert (run + [e])[..|run + [e]| - 1] == run;
  }

  /** Blocking is for good: the session is on record, blocked, and under the same id, whatever comes after. */
  lemma {:induction false} BlockedStays(s: State, run: seq<Event>, p: nat, k: int)
    requires Initial(s) && Legal(s, run) && p < |run| && run[p] == Block(k)
    ensures k in Final(s, run).sessions && Final(s, run).sessions[k].blocked
  {
    var front := run[..|run| - 1];
    RunsKeep(s, front);
    if p < |run| - 1 {
      BlockedStays(s, front, p, k);
      assert Final(s, front).sessions[k].refreshToken.id in Final(s, front).drawn;
    }
  }

  /**
   * Any session may be blocked at any time; from then on no token of its id is ever renewed again, in any run,
   * and right after it every other token is treated as before.
   */
  lemma BlockingEndsRenewal(s: State, run: seq<Event>, k: int)
    requires Initial(s) && Legal(s, run) && k in Final(s, run).sessions
    ensures Legal(s, run + [Block(k)])
    ensures forall token: Payload, now, id :: token.id != k ==>
              Renewed(Final(s, run + [Block(k)]), token, now, id) == Renewed(Final(s, run), token, now, id)
    ensures forall more, token: Payload, now, id :: Legal(s, run + [Block(k)] + more) && token.id == k ==>
              Renewed(Final(s, run + [Block(k)] + more), token, now, id).Refused?
  {
    LegalSnoc(s, run, Block(k));
    forall more, token: Payload, now, id | Legal(s, run + [Block(k)] + more) && token.id == k
      ensures Renewed(Final(s, run + [Block(k)] + more), token, now, id).Refused?
    {
      assert (run + [Block(k)] + more)[|run|] == Block(k);
      BlockedStays(s, run + [Block(k)] + more, |run|, k);
    }
  }
}
