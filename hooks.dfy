/** The server hook: it turns the `session` cookie into `locals.user` and
    `locals.session`, removing expired sessions and cookies that name no session. */
module Hooks {
  import opened Wrappers
  import opened Text
  import opened Web
  import opened Db

  /** What the hook leaves on the request besides the store: the locals and whether the
      cookie was deleted. */
  datatype Locals = Locals(user: Option<LocalUser>, session: Option<LocalSession>, cookieDeleted: bool)

  /** `locals.user` as the hook fills it: id, email and credits only. */
  function LocalUserOf(u: User): (l: LocalUser)
    ensures l.id == u.id && l.email == u.email && l.credits == u.credits
    ensures l.name.None? && l.avatarUrl.None? && l.role.None? && l.planTier.None?
  {
    LocalUser(u.id, u.email, u.credits, None, None, None, None)
  }

  /** The session a cookie names, with its user; the foreign key means a stored session's
      user is stored too, so a session without one is treated as absent. */
  function FindSession(s: State, sessionId: string): (r: Option<(Session, User)>)
    ensures r.Some? ==>
      && r.value.0 in s.sessions && r.value.0.id == sessionId
      && r.value.1 in s.users && r.value.1.id == r.value.0.userId
    ensures r.None? ==>
      || SessionIndex(s.sessions, sessionId).None?
      || !HasUser(s, s.sessions[SessionIndex(s.sessions, sessionId).value].userId)
  {
    match SessionIndex(s.sessions, sessionId)
    case None => None
    case Some(k) =>
      match UserIndex(s.users, s.sessions[k].userId)
      case None => None
      case Some(i) => Some((s.sessions[k], s.users[i]))
  }

  /** `handle`. No cookie: empty locals and nothing deleted. A cookie naming no session:
      the cookie is deleted. A session whose expiry is not after `now`: the session row and
      the cookie are deleted. Otherwise the locals describe the session and its user. */
  function Handle(s: State, cookie: Option<string>, now: int): (r: (State, Locals))
    ensures !Truthy(cookie) ==> r == (s, Locals(None, None, false))
    ensures Truthy(cookie) && FindSession(s, cookie.value).None? ==> r == (s, Locals(None, None, true))
    ensures Truthy(cookie) && FindSession(s, cookie.value).Some? ==>
      var (session, user) := FindSession(s, cookie.value).value;
      if now >= session.expiresAt then
        && r.1 == Locals(None, None, true)
        && r.0 == s.(sessions := r.0.sessions)
        && (forall x :: x in r.0.sessions <==> x in s.sessions && x.id != cookie.value)
      else
        r == (s, Locals(Some(LocalUserOf(user)), Some(LocalSession(session.id, session.userId, session.expiresAt)), false))
  {
    if !Truthy(cookie) then (s, Locals(None, None, false))
    else match FindSession(s, cookie.value)
      case None => (s, Locals(None, None, true))
      case Some((session, user)) =>
        if now >= session.expiresAt then
          (s.(sessions := Filter(s.sessions, (x: Session) => x.id != cookie.value)), Locals(None, None, true))
        else
          (s, Locals(Some(LocalUserOf(user)), Some(LocalSession(session.id, session.userId, session.expiresAt)), false))
  }

  /** The locals the hook sets never carry a role or a plan tier, so the admin pages' role
      check fails for every request and the dashboard always runs on the `free` tier. */
  lemma LocalsCarryNoRole(s: State, cookie: Option<string>, now: int)
    ensures !IsAdmin(Handle(s, cookie, now).1.user)
    ensures Handle(s, cookie, now).1.user.Some? ==> Handle(s, cookie, now).1.user.value.planTier.None?
  {
  }

  /** A signed-in request names a stored, unexpired session that belongs to the user in
      the locals. */
  lemma SignedInMeansLiveSession(s: State, cookie: Option<string>, now: int)
    requires Handle(s, cookie, now).1.user.Some?
    ensures var l := Handle(s, cookie, now).1;
      && l.session.Some? && l.session.value.expiresAt > now
      && l.session.value.userId == l.user.value.id
      && (exists x :: x in s.sessions && x.id == cookie.value && x.userId == l.user.value.id)
  {
    var (session, user) := FindSession(s, cookie.value).value;
    assert session in s.sessions;
  }

  /** The request the hook works on. */
  class RequestEvent {
    var sessionCookie: Option<string>
    var user: Option<LocalUser>
    var session: Option<LocalSession>
    const pathname: string

    constructor (sessionCookie: Option<string>, pathname: string)
      ensures this.sessionCookie == sessionCookie && this.pathname == pathname
      ensures user.None? && session.None?
    {
      this.sessionCookie := sessionCookie;
      this.pathname := pathname;
      user := None;
      session := None;
    }
  }

  datatype HookResponse = Resolve | Redirect(location: string)

  class Hook {
    const db: Database

    constructor (db: Database)
      ensures this.db == db
    {
      this.db := db;
    }

    /** `handle`; the check that sends `/dashboard` requests without a user to `/login`
        comes after `locals.user` is set and never fires. */
    method HandleRequest(event: RequestEvent, now: int) returns (r: HookResponse)
      modifies db, event
      ensures r == Resolve
      ensures var (s', l) := Handle(old(db.Snapshot()), old(event.sessionCookie), now);
        && db.Snapshot() == s'
        && event.user == l.user && event.session == l.session
        && event.sessionCookie == (if l.cookieDeleted then None else old(event.sessionCookie))
    {
      var sessionId := event.sessionCookie;
      if !Truthy(sessionId) {
        event.user := None;
        event.session := None;
        return Resolve;
      }
      var found := FindSession(db.Snapshot(), sessionId.value);
      if found.None? {
        event.sessionCookie := None;
        event.user := None;
        event.session := None;
        return Resolve;
      }
      var (session, user) := found.value;
      if now >= session.expiresAt {
        db.sessions := Filter(db.sessions, (x: Session) => x.id != sessionId.value);
        event.sessionCookie := None;
        event.user := None;
        event.session := None;
        return Resolve;
      }
      event.session := Some(LocalSession(session.id, session.userId, session.expiresAt));
      event.user := Some(LocalUserOf(user));
      if StartsWith(event.pathname, "/dashboard") && event.user.None? {
        assert false;
      }
      r := Resolve;
    }
  }
}
