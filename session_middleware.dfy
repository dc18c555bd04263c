/**
 * The session middleware: a request's `sessionId` cookie is checked against
 * the stored sessions; a live session authenticates the request, a missing or
 * expired one gets the cookie cleared. The store is only read.
 */
module SessionMiddleware {
  import opened Wrappers
  import opened Store

  /** What the middleware decides for one request. */
  datatype Verdict =
    | NoCookie
    | Authenticated(user: User, sessionId: string)
    | Rejected

  /** `req.cookies?.sessionId` is truthy. */
  predicate HasCookie(cookie: Option<string>) {
    cookie.Some? && cookie.value != ""
  }

  /** `new Date(expiresAt) > new Date()`: live strictly before the expiry instant. */
  predicate Live(s: Session, now: int) {
    s.expiresAt > now
  }

  /** In a consistent store, the user a session belongs to exists. */
  lemma SessionUserExists(t: Tables, s: Session)
    requires Consistent(t) && s in t.sessions
    ensures FindUser(t.users, ById(s.userId)).Some?
  {
    var u :| u in t.users && u.id == s.userId;
    var k :| 0 <= k < |t.users| && t.users[k] == u;
    assert UserMatches(t.users[k], ById(s.userId));
  }

  /**
   * The decision of `use`: no cookie, a live session with its user
   * (`include: {user: true}`), or a rejection for an unknown or expired id.
   */
  function Decide(t: Tables, cookie: Option<string>, now: int): (v: Verdict)
    requires Consistent(t)
    ensures !HasCookie(cookie) <==> v == NoCookie
    ensures v.Authenticated? <==>
      HasCookie(cookie) && FindSession(t.sessions, cookie.value).Some? && Live(FindSession(t.sessions, cookie.value).value, now)
    ensures v.Authenticated? ==>
      && cookie == Some(v.sessionId)
      && v.user in t.users
      && v.user.id == FindSession(t.sessions, v.sessionId).value.userId
    ensures v.Rejected? <==>
      HasCookie(cookie) && (FindSession(t.sessions, cookie.value).None? || !Live(FindSession(t.sessions, cookie.value).value, now))
  {
    if !HasCookie(cookie) then NoCookie
    else
      match FindSession(t.sessions, cookie.value)
      case None => Rejected
      case Some(s) =>
        if Live(s, now) then
          SessionUserExists(t, s);
          Authenticated(FindUser(t.users, ById(s.userId)).value, cookie.value)
        else Rejected
  }

  /** Equality counts as expired: a session is rejected at its own expiry instant. */
  lemma ExpiryInstantRejected(t: Tables, id: string)
    requires Consistent(t) && id != "" && FindSession(t.sessions, id).Some?
    ensures Decide(t, Some(id), FindSession(t.sessions, id).value.expiresAt) == Rejected
  {
  }

  /** A session accepted now was accepted, with the same user, at every earlier instant. */
  lemma AcceptedEarlier(t: Tables, cookie: Option<string>, now: int, earlier: int)
    requires Consistent(t) && earlier <= now
    ensures Decide(t, cookie, now).Authenticated? ==> Decide(t, cookie, earlier) == Decide(t, cookie, now)
  {
  }

  /** The part of an Express request the middleware reads and writes. */
  class Request {
    const sessionCookie: Option<string>
    var user: Option<User>
    var sessionId: Option<string>

    constructor (sessionCookie: Option<string>)
      ensures this.sessionCookie == sessionCookie && user == None && sessionId == None
    {
      this.sessionCookie := sessionCookie;
      user := None;
      sessionId := None;
    }
  }

  /** The part of an Express response the middleware writes: the cookies it clears. */
  class Response {
    var clearedCookies: seq<string>

    constructor ()
      ensures clearedCookies == []
    {
      clearedCookies := [];
    }
  }

  /** The `next` callback of the middleware chain; it counts its calls. */
  class Next {
    var calls: nat

    constructor ()
      ensures calls == 0
    {
      calls := 0;
    }

    method Call()
      modifies this
      ensures calls == old(calls) + 1
    {
      calls := calls + 1;
    }
  }

  const SESSION_COOKIE: string := "sessionId"

  class SessionMiddleware {
    const prisma: Database

    constructor (prisma: Database)
      ensures this.prisma == prisma
    {
      this.prisma := prisma;
    }

    /**
     * `use`: the request and response change as `Decide` says, the store does
     * not change, and `next` is called once on every path.
     */
    method Use(req: Request, res: Response, next: Next, now: int)
      requires prisma.Valid()
      modifies req, res, next
      ensures next.calls == old(next.calls) + 1
      ensures prisma.State() == old(prisma.State())
      ensures match Decide(prisma.State(), req.sessionCookie, now)
        case NoCookie =>
          req.user == old(req.user) && req.sessionId == old(req.sessionId) && res.clearedCookies == old(res.clearedCookies)
        case Authenticated(u, id) =>
          req.user == Some(u) && req.sessionId == Some(id) && res.clearedCookies == old(res.clearedCookies)
        case Rejected =>
          req.user == old(req.user) && req.sessionId == old(req.sessionId)
          && res.clearedCookies == old(res.clearedCookies) + [SESSION_COOKIE]
    {
      var sessionId := req.sessionCookie;
      if HasCookie(sessionId) {
        var session := prisma.FindUniqueSession(sessionId.value);
        if session.Some? && session.value.expiresAt > now {
          assert session.value in prisma.sessions;
          SessionUserExists(prisma.State(), session.value);
          var user := prisma.FindUniqueUser(ById(session.value.userId));
          req.user := user;
          req.sessionId := sessionId;
        } else {
          res.clearedCookies := res.clearedCookies + [SESSION_COOKIE];
        }
      }
      next.Call();
    }
  }
}
