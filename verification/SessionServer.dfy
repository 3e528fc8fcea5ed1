/** Logging in and renewing, step by step on the session table, as a run of the sessions machine. */
module SessionServer {
  import opened Errors
  import opened Schema
  import opened Sessions

  /** The events so far lead from a start without sessions to these sessions. */
  ghost predicate Recorded(
    start: State, history: seq<Event>, config: Config, sessions: map<int, Session>, nextId: int)
  {
    && Initial(start) && start.config == config && Legal(start, history)
    && Final(start, history).sessions == sessions
    && forall id :: id in Final(start, history).drawn ==> id < nextId
  }

  lemma RecordsOneMore(start: State, history: seq<Event>, e: Event)
    requires Legal(start, history) && Enabled(Final(start, history), e)
    ensures Legal(start, history + [e]) && Final(start, history + [e]) == After(Final(start, history), e)
  {
    assert (history + [e])[..|history + [e]| - 1] == history;
  }

  /** `r` renews until it expires, `a` never, and every other token as it did before. */
  ghost predicate RenewsOnly(
    before: map<int, Session>, after: map<int, Session>, config: Config, a: Payload, r: Payload)
  {
    && (forall at, id :: Renew(after, config.accessDuration, a, at, id).Refused?)
    && (forall at, id :: Renew(after, config.accessDuration, r, at, id).Granted? <==> at <= r.expiredAt)
    && (forall token: Payload, at, id :: token.id != r.id ==>
          Renew(after, config.accessDuration, token, at, id) == Renew(before, config.accessDuration, token, at, id))
  }

  /** What a login leaves on record, and whose renewals it affects. */
  lemma LoginIsRecorded(start: State, history: seq<Event>, e: Event)
    requires Initial(start) && Legal(start, history) && Enabled(Final(start, history), e) && e.LogIn?
    ensures Legal(start, history + [e])
    ensures var z, w, config := Final(start, history), Final(start, history + [e]), start.config;
            var a := Payload(e.accessId, e.username, e.now, e.now + config.accessDuration);
            var r := Payload(e.refreshId, e.username, e.now, e.now + config.refreshDuration);
            && w.drawn == z.drawn + {e.accessId, e.refreshId}
            && (!e.stored ==> w.sessions == z.sessions)
            && (e.stored ==>
                  && w.sessions == z.sessions[r.id := Session(e.username, r, false, r.expiredAt)]
                  && Login(e.username, a, r) in w.logins && RenewsOnly(z.sessions, w.sessions, config, a, r))
  {
    RunsKeep(start, history);
    RecordsOneMore(start, history, e);
  }

  class Server {
    const config: Config
    var users: set<string>
    var sessions: map<int, Session>
    /** Token ids are random and never drawn twice; a counter stands in for them. */
    var nextId: int
    /** The run of the sessions machine that this server has been through. */
    ghost const start: State
    ghost var history: seq<Event>

    ghost predicate Valid()
      reads this
    {
      Recorded(start, history, config, sessions, nextId)
    }

    /** All that has been handed out. */
    ghost function Now(): State
      requires Valid()
      reads this
    {
      Final(start, history)
    }

    constructor (config: Config, users: set<string>)
      ensures Valid() && this.config == config && this.users == users && sessions == map[] && history == []
    {
      this.config, this.users, sessions, nextId := config, users, map[], 0;
      start, history := State(config, map[], {}, {}, {}, {}), [];
    }

    method CreateToken(username: string, duration: int, now: int) returns (payload: Payload)
      modifies this`nextId
      ensures payload == NewPayload(old(nextId), username, now, duration) && nextId == old(nextId) + 1
    {
      payload := NewPayload(nextId, username, now, duration);
      nextId := nextId + 1;
    }

    /**
     * A login opens one session under the id of the refresh token. From then on that token, and not the access
     * token beside it, renews until it expires; and whatever other tokens renewed before still do.
     * When the session cannot be stored nothing is handed out, though both ids are used up.
     */
    method LoginUser(username: string, passwordMatches: bool, now: int, stores: bool)
      returns (access: Option<Payload>, refresh: Option<Payload>, status: Status)
      requires Valid()
      modifies this`sessions, this`nextId, this`history
      ensures Valid()
      ensures status == NotFound <==> username !in users
      ensures status == Unauthenticated <==> username in users && !passwordMatches
      ensures status == Internal <==> username in users && passwordMatches && !stores
      ensures status == OK <==> username in users && passwordMatches && stores
      ensures status != OK ==> sessions == old(sessions) && access.None? && refresh.None?
      ensures history == old(history)
                + (if username in users && passwordMatches
                   then [LogIn(username, now, old(nextId), old(nextId) + 1, stores)] else [])
      ensures status == OK ==>
                && access == Some(Payload(old(nextId), username, now, now + config.accessDuration))
                && refresh == Some(Payload(old(nextId) + 1, username, now, now + config.refreshDuration))
                && Login(username, access.value, refresh.value) in Now().logins
                && RenewsOnly(old(sessions), sessions, config, access.value, refresh.value)
    {
      access, refresh := None, None;
      if username !in users {
        return None, None, NotFound;
      }
      if !passwordMatches {
        return None, None, Unauthenticated;
      }
      ghost var e := LogIn(username, now, nextId, nextId + 1, stores);
      LoginIsRecorded(start, history, e);
      history := history + [e];
      var a := CreateToken(username, config.accessDuration, now);
      var r := CreateToken(username, config.refreshDuration, now);
      if !stores {
        return None, None, Internal;
      }
      sessions := sessions[r.id := Session(username, r, false, r.expiredAt)];
      return Some(a), Some(r), OK;
    }

    /**
     * Renewal is granted exactly to a token that some login of this server handed out for renewing,
     * while its session is not blocked and it has not expired. The new token is for the same user, expires one
     * access duration from now, and goes back to a login of that user. A refusal changes nothing and says
     * which check came first.
     */
    method RenewAccessToken(token: Payload, now: int) returns (reply: Reply)
      requires Valid()
      modifies this`nextId, this`history
      ensures Valid()
      ensures reply.Granted? <==>
              && token in old(Now()).refresh
              && token.id in sessions && !sessions[token.id].blocked && now <= token.expiredAt
      ensures reply.Granted? ==>
                && reply.access == Payload(old(nextId), token.username, now, now + config.accessDuration)
                && reply.access in Now().access
                && (exists l :: l in Now().logins && l.refresh == token && l.username == reply.access.username)
                && nextId == old(nextId) + 1
      ensures reply.Refused? ==> nextId == old(nextId) && history == old(history)
      ensures reply == Refused(InvalidToken) <==> now > token.expiredAt
      ensures reply == Refused(SessionNotFound) <==> now <= token.expiredAt && token.id !in sessions
      ensures reply == Refused(SessionBlocked) <==>
              now <= token.expiredAt && token.id in sessions && sessions[token.id].blocked
      ensures now <= token.expiredAt && token.id in sessions && !sessions[token.id].blocked ==>
                && (reply == Refused(InvalidSessionUser) <==> sessions[token.id].username != token.username)
                && (reply == Refused(MismatchedToken) <==>
                    sessions[token.id].username == token.username && sessions[token.id].refreshToken != token)
                && reply != Refused(SessionExpired)
    {
      RenewalIsExact(start, history, token, now, nextId);
      RunsKeep(start, history);
      if now > token.expiredAt {
        return Refused(InvalidToken);
      }
      if token.id !in sessions {
        return Refused(SessionNotFound);
      }
      var session := sessions[token.id];
      if session.blocked {
        return Refused(SessionBlocked);
      }
      if session.username != token.username {
        return Refused(InvalidSessionUser);
      }
      if session.refreshToken != token {
        return Refused(MismatchedToken);
      }
      if now > session.expiresAt {
        return Refused(SessionExpired);
      }
      ghost var e := RenewToken(token, now, nextId);
      RecordsOneMore(start, history, e);
      history := history + [e];
      var access := CreateToken(token.username, config.accessDuration, now);
      return Granted(access);
    }
  }
}
