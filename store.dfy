/**
 * The durable store the services work on: the `users`, `socialLogins` and
 * `sessions` tables. Each table is a sequence of rows in table order, so a
 * "find first" returns the earliest matching row. Row ids stand for the ids
 * the database generates; here they are drawn from the counter `nextId`.
 */
module Store {
  import opened Wrappers

  type Id = nat

  datatype User = User(id: Id, email: Option<string>, displayName: Option<string>)

  /** One linked provider account with its OAuth2 tokens. */
  datatype SocialLogin = SocialLogin(
    id: Id,
    userId: Id,
    provider: string,
    providerId: string,
    accessToken: string,
    refreshToken: Option<string>,
    expiresAt: Option<int>)

  datatype Session = Session(id: string, userId: Id, expiresAt: int)

  /** The errors the store and the services raise. */
  datatype Error =
    | MissingUniqueKey                    // a unique `where` whose value is undefined
    | UniqueConstraintViolation           // a create that would repeat (provider, providerId)
    | RecordNotFound                      // an update of a row that does not exist
    | UserNotFound(userId: Id)            // "User with ID … not found"
    | NoProviderAccount(provider: string) // "No … account found for this user"
    | NoYouTubeAccount                    // "No YouTube account connected for this user"
    | ApiError(message: string)           // a failed call to the remote API

  /** The values a new social-login row is created with. */
  datatype LoginData = LoginData(
    provider: string,
    providerId: string,
    accessToken: string,
    refreshToken: Option<string>,
    expiresAt: Option<int>)

  /** The `data` of an update: a field given as `None` keeps its stored value. */
  datatype LoginUpdate = LoginUpdate(
    accessToken: Option<string>,
    refreshToken: Option<string>,
    expiresAt: Option<int>)

  /** A unique `where` on the users table. */
  datatype UserWhere = ById(id: Id) | ByEmail(email: string)

  /** A `where` on the socialLogins table: every given field must match. */
  datatype LoginWhere = LoginWhere(
    id: Option<Id>,
    userId: Option<Id>,
    provider: Option<string>,
    providerId: Option<string>)

  /** The whole store as a value. */
  datatype Tables = Tables(
    users: seq<User>,
    logins: seq<SocialLogin>,
    sessions: seq<Session>,
    nextId: Id)

  // ---------------------------------------------------------------------
  // Matching and lookup

  predicate UserMatches(u: User, w: UserWhere) {
    match w
    case ById(id) => u.id == id
    case ByEmail(e) => u.email == Some(e)
  }

  predicate LoginMatches(l: SocialLogin, w: LoginWhere) {
    && (w.id.None? || l.id == w.id.value)
    && (w.userId.None? || l.userId == w.userId.value)
    && (w.provider.None? || l.provider == w.provider.value)
    && (w.providerId.None? || l.providerId == w.providerId.value)
  }

  function WhereId(id: Id): LoginWhere {
    LoginWhere(Some(id), None, None, None)
  }

  function WhereUser(userId: Id): LoginWhere {
    LoginWhere(None, Some(userId), None, None)
  }

  function WhereUserProvider(userId: Id, provider: string): LoginWhere {
    LoginWhere(None, Some(userId), Some(provider), None)
  }

  /** The compound unique key `provider_providerId`. */
  function WhereKey(provider: string, providerId: string): LoginWhere {
    LoginWhere(None, None, Some(provider), Some(providerId))
  }

  /** Index of the first user matching `w`. */
  function FirstUser(users: seq<User>, w: UserWhere): (r: Option<nat>)
    ensures r.Some? ==> r.value < |users| && UserMatches(users[r.value], w)
    ensures r.Some? ==> forall k :: 0 <= k < r.value ==> !UserMatches(users[k], w)
    ensures r.None? <==> forall k :: 0 <= k < |users| ==> !UserMatches(users[k], w)
  {
    if |users| == 0 then None
    else if UserMatches(users[0], w) then Some(0)
    else match FirstUser(users[1..], w)
      case None => None
      case Some(i) => Some(i + 1)
  }

  /** Index of the first social login matching `w`. */
  function FirstLogin(logins: seq<SocialLogin>, w: LoginWhere): (r: Option<nat>)
    ensures r.Some? ==> r.value < |logins| && LoginMatches(logins[r.value], w)
    ensures r.Some? ==> forall k :: 0 <= k < r.value ==> !LoginMatches(logins[k], w)
    ensures r.None? <==> forall k :: 0 <= k < |logins| ==> !LoginMatches(logins[k], w)
  {
    if |logins| == 0 then None
    else if LoginMatches(logins[0], w) then Some(0)
    else match FirstLogin(logins[1..], w)
      case None => None
      case Some(i) => Some(i + 1)
  }

  /** Index of the session with the given id. */
  function FirstSession(sessions: seq<Session>, id: string): (r: Option<nat>)
    ensures r.Some? ==> r.value < |sessions| && sessions[r.value].id == id
    ensures r.Some? ==> forall k :: 0 <= k < r.value ==> sessions[k].id != id
    ensures r.None? <==> forall k :: 0 <= k < |sessions| ==> sessions[k].id != id
  {
    if |sessions| == 0 then None
    else if sessions[0].id == id then Some(0)
    else match FirstSession(sessions[1..], id)
      case None => None
      case Some(i) => Some(i + 1)
  }

  function FindUser(users: seq<User>, w: UserWhere): Option<User> {
    match FirstUser(users, w)
    case None => None
    case Some(i) => Some(users[i])
  }

  function FindLogin(logins: seq<SocialLogin>, w: LoginWhere): Option<SocialLogin> {
    match FirstLogin(logins, w)
    case None => None
    case Some(i) => Some(logins[i])
  }

  function FindSession(sessions: seq<Session>, id: string): Option<Session> {
    match FirstSession(sessions, id)
    case None => None
    case Some(i) => Some(sessions[i])
  }

  /**
   * The rows of `logins` whose match against `w` equals `keep`, in table
   * order: `keep` selects a `findMany`, `!keep` what a `deleteMany` leaves.
   */
  function FilterLogins(logins: seq<SocialLogin>, w: LoginWhere, keep: bool): (r: seq<SocialLogin>)
    ensures |r| <= |logins|
    ensures forall l :: l in r <==> l in logins && LoginMatches(l, w) == keep
  {
    if logins == [] then []
    else
      var rest := FilterLogins(logins[..|logins| - 1], w, keep);
      var last := logins[|logins| - 1];
      assert logins == logins[..|logins| - 1] + [last];
      if LoginMatches(last, w) == keep then rest + [last] else rest
  }

  /** Filtering distributes over concatenation: the kept rows stay in table order. */
  lemma {:induction false} FilterLoginsAppend(a: seq<SocialLogin>, b: seq<SocialLogin>, w: LoginWhere, keep: bool)
    ensures FilterLogins(a + b, w, keep) == FilterLogins(a, w, keep) + FilterLogins(b, w, keep)
  {
    if b == [] {
      assert a + b == a;
    } else {
      var init, last := b[..|b| - 1], b[|b| - 1];
      assert b == init + [last];
      assert a + b == (a + init) + [last];
      FilterLoginsAppend(a, init, w, keep);
      FilterLoginsSnoc(init, last, w, keep);
      FilterLoginsSnoc(a + init, last, w, keep);
    }
  }

  /** Appending one row appends it to the filter exactly when its match equals `keep`. */
  lemma FilterLoginsSnoc(x: seq<SocialLogin>, y: SocialLogin, w: LoginWhere, keep: bool)
    ensures FilterLogins(x + [y], w, keep) == FilterLogins(x, w, keep) + (if LoginMatches(y, w) == keep then [y] else [])
  {
    assert (x + [y])[..|x|] == x;
  }

  /** A row whose match differs from `keep` is dropped, so the result is shorter. */
  lemma {:induction false} FilterDropsMatch(logins: seq<SocialLogin>, w: LoginWhere, keep: bool, j: nat)
    requires j < |logins| && LoginMatches(logins[j], w) != keep
    ensures |FilterLogins(logins, w, keep)| < |logins|
  {
    var init := logins[..|logins| - 1];
    if j < |logins| - 1 {
      FilterDropsMatch(init, w, keep, j);
    }
  }

  // ---------------------------------------------------------------------
  // The store's constraints: primary keys, unique columns, foreign keys

  function UserIds(users: seq<User>): set<Id> {
    set u | u in users :: u.id
  }

  predicate SameKey(a: SocialLogin, b: SocialLogin) {
    a.provider == b.provider && a.providerId == b.providerId
  }

  predicate UsersConsistent(users: seq<User>, nextId: Id) {
    && (forall i, j :: 0 <= i < j < |users| ==> users[i].id != users[j].id)
    && (forall i, j :: 0 <= i < j < |users| && users[i].email.Some? ==> users[i].email != users[j].email)
    && (forall i :: 0 <= i < |users| ==> users[i].id < nextId)
  }

  predicate LoginsConsistent(logins: seq<SocialLogin>, userIds: set<Id>, nextId: Id) {
    && (forall i, j :: 0 <= i < j < |logins| ==> logins[i].id != logins[j].id)
    && (forall i, j :: 0 <= i < j < |logins| ==> !SameKey(logins[i], logins[j]))
    && (forall i :: 0 <= i < |logins| ==> logins[i].id < nextId && logins[i].userId in userIds)
  }

  predicate SessionsConsistent(sessions: seq<Session>, userIds: set<Id>) {
    && (forall i, j :: 0 <= i < j < |sessions| ==> sessions[i].id != sessions[j].id)
    && (forall i :: 0 <= i < |sessions| ==> sessions[i].userId in userIds)
  }

  predicate Consistent(t: Tables) {
    && UsersConsistent(t.users, t.nextId)
    && LoginsConsistent(t.logins, UserIds(t.users), t.nextId)
    && SessionsConsistent(t.sessions, UserIds(t.users))
  }

  // ---------------------------------------------------------------------
  // Row operations, as functions of the store's value

  function CreateUserRow(t: Tables, email: Option<string>, displayName: Option<string>): (Tables, User) {
    var u := User(t.nextId, email, displayName);
    (t.(users := t.users + [u], nextId := t.nextId + 1), u)
  }

  function CreateLoginRow(t: Tables, userId: Id, d: LoginData): (Tables, SocialLogin) {
    var l := SocialLogin(t.nextId, userId, d.provider, d.providerId, d.accessToken, d.refreshToken, d.expiresAt);
    (t.(logins := t.logins + [l], nextId := t.nextId + 1), l)
  }

  function ApplyUpdate(l: SocialLogin, d: LoginUpdate): SocialLogin {
    l.(accessToken := if d.accessToken.Some? then d.accessToken.value else l.accessToken,
       refreshToken := if d.refreshToken.Some? then d.refreshToken else l.refreshToken,
       expiresAt := if d.expiresAt.Some? then d.expiresAt else l.expiresAt)
  }

  /** `update where {id}`: fails when no row has that id. */
  function UpdateLoginRow(t: Tables, id: Id, d: LoginUpdate): (r: Result<(Tables, SocialLogin), Error>)
    ensures r.Failure? <==> forall k :: 0 <= k < |t.logins| ==> t.logins[k].id != id
    ensures r.Failure? ==> r.error == RecordNotFound
    ensures r.Success? ==> r.value.0.users == t.users && r.value.0.sessions == t.sessions
    ensures r.Success? ==> r.value.0.nextId == t.nextId && |r.value.0.logins| == |t.logins|
    ensures r.Success? ==> r.value.1.id == id && r.value.1 in r.value.0.logins
    ensures r.Success? ==>
      && FirstLogin(t.logins, WhereId(id)).Some?
      && var j := FirstLogin(t.logins, WhereId(id)).value;
         r.value.1 == ApplyUpdate(t.logins[j], d) && r.value.0.logins == t.logins[j := r.value.1]
  {
    match FirstLogin(t.logins, WhereId(id))
    case None => Failure(RecordNotFound)
    case Some(j) =>
      var l := ApplyUpdate(t.logins[j], d);
      assert t.logins[j := l][j] == l;
      Success((t.(logins := t.logins[j := l]), l))
  }

  /** `deleteMany where w`. */
  function DeleteLoginRows(t: Tables, w: LoginWhere): Tables {
    t.(logins := FilterLogins(t.logins, w, false))
  }

  // ---------------------------------------------------------------------
  // The row operations preserve the constraints

  lemma {:induction false} FilterLoginsConsistent(logins: seq<SocialLogin>, w: LoginWhere, keep: bool, userIds: set<Id>, nextId: Id)
    requires LoginsConsistent(logins, userIds, nextId)
    ensures LoginsConsistent(FilterLogins(logins, w, keep), userIds, nextId)
  {
    if logins != [] {
      var init := logins[..|logins| - 1];
      var last := logins[|logins| - 1];
      assert forall k :: 0 <= k < |init| ==> init[k] == logins[k];
      FilterLoginsConsistent(init, w, keep, userIds, nextId);
      var rest := FilterLogins(init, w, keep);
      forall l | l in rest
        ensures l.id != last.id && !SameKey(l, last)
      {
        assert l in init;
        var k :| 0 <= k < |init| && init[k] == l;
        assert logins[k] == l;
      }
    }
  }

  lemma CreateUserRowConsistent(t: Tables, email: Option<string>, displayName: Option<string>)
    requires Consistent(t)
    requires email.Some? ==> FirstUser(t.users, ByEmail(email.value)).None?
    ensures Consistent(CreateUserRow(t, email, displayName).0)
  {
    var t' := CreateUserRow(t, email, displayName).0;
    assert UserIds(t.users) <= UserIds(t'.users) by {
      forall x | x in UserIds(t.users) ensures x in UserIds(t'.users) {
        var u :| u in t.users && u.id == x;
        assert u in t'.users;
      }
    }
  }

  lemma CreateLoginRowConsistent(t: Tables, userId: Id, d: LoginData)
    requires Consistent(t) && userId in UserIds(t.users)
    requires FirstLogin(t.logins, WhereKey(d.provider, d.providerId)).None?
    ensures Consistent(CreateLoginRow(t, userId, d).0)
  {
    var t' := CreateLoginRow(t, userId, d).0;
    assert forall k :: 0 <= k < |t.logins| ==> !LoginMatches(t.logins[k], WhereKey(d.provider, d.providerId));
  }

  lemma UpdateLoginRowConsistent(t: Tables, id: Id, d: LoginUpdate)
    requires Consistent(t)
    ensures UpdateLoginRow(t, id, d).Success? ==> Consistent(UpdateLoginRow(t, id, d).value.0)
  {
    match FirstLogin(t.logins, WhereId(id))
    case None =>
    case Some(j) =>
      var s' := t.logins[j := ApplyUpdate(t.logins[j], d)];
      assert forall k :: 0 <= k < |s'| ==> s'[k].id == t.logins[k].id && SameKey(s'[k], t.logins[k]) && s'[k].userId == t.logins[k].userId;
  }

  lemma DeleteLoginRowsConsistent(t: Tables, w: LoginWhere)
    requires Consistent(t)
    ensures Consistent(DeleteLoginRows(t, w))
  {
    FilterLoginsConsistent(t.logins, w, false, UserIds(t.users), t.nextId);
  }

  // ---------------------------------------------------------------------
  // The database: the tables, changed in place by the ORM's operations

  class Database {
    var users: seq<User>
    var socialLogins: seq<SocialLogin>
    var sessions: seq<Session>
    var nextId: Id

    function State(): Tables
      reads this
    {
      Tables(users, socialLogins, sessions, nextId)
    }

    ghost predicate Valid()
      reads this
    {
      Consistent(State())
    }

    /** A connection to a store that holds `t`. */
    constructor Open(t: Tables)
      requires Consistent(t)
      ensures Valid() && State() == t
    {
      users, socialLogins, sessions, nextId := t.users, t.logins, t.sessions, t.nextId;
    }

    /** `user.findUnique({where})`. */
    method FindUniqueUser(w: UserWhere) returns (r: Option<User>)
      ensures r == FindUser(users, w)
    {
      var i := 0;
      while i < |users|
        invariant 0 <= i <= |users|
        invariant forall k :: 0 <= k < i ==> !UserMatches(users[k], w)
      {
        if UserMatches(users[i], w) {
          return Some(users[i]);
        }
        i := i + 1;
      }
      return None;
    }

    /** `socialLogin.findFirst({where})`. */
    method FindFirstLogin(w: LoginWhere) returns (r: Option<SocialLogin>)
      ensures r == FindLogin(socialLogins, w)
    {
      var i := 0;
      while i < |socialLogins|
        invariant 0 <= i <= |socialLogins|
        invariant forall k :: 0 <= k < i ==> !LoginMatches(socialLogins[k], w)
      {
        if LoginMatches(socialLogins[i], w) {
          return Some(socialLogins[i]);
        }
        i := i + 1;
      }
      return None;
    }

    /** `socialLogin.findMany({where})`, as a relation `include` does it. */
    method FindManyLogins(w: LoginWhere) returns (r: seq<SocialLogin>)
      ensures r == FilterLogins(socialLogins, w, true)
    {
      r := [];
      var i := 0;
      while i < |socialLogins|
        invariant 0 <= i <= |socialLogins|
        invariant r == FilterLogins(socialLogins[..i], w, true)
      {
        assert socialLogins[..i + 1][..i] == socialLogins[..i];
        if LoginMatches(socialLogins[i], w) {
          r := r + [socialLogins[i]];
        }
        i := i + 1;
      }
      assert socialLogins[..i] == socialLogins;
    }

    /** `session.findUnique({where: {id}})`. */
    method FindUniqueSession(id: string) returns (r: Option<Session>)
      ensures r == FindSession(sessions, id)
    {
      var i := 0;
      while i < |sessions|
        invariant 0 <= i <= |sessions|
        invariant forall k :: 0 <= k < i ==> sessions[k].id != id
      {
        if sessions[i].id == id {
          return Some(sessions[i]);
        }
        i := i + 1;
      }
      return None;
    }

    /** `user.create`. */
    method CreateUser(email: Option<string>, displayName: Option<string>) returns (u: User)
      modifies this
      ensures (State(), u) == CreateUserRow(old(State()), email, displayName)
    {
      u := User(nextId, email, displayName);
      users := users + [u];
      nextId := nextId + 1;
    }

    /** `socialLogin.create`. */
    method CreateLogin(userId: Id, d: LoginData) returns (l: SocialLogin)
      modifies this
      ensures (State(), l) == CreateLoginRow(old(State()), userId, d)
    {
      l := SocialLogin(nextId, userId, d.provider, d.providerId, d.accessToken, d.refreshToken, d.expiresAt);
      socialLogins := socialLogins + [l];
      nextId := nextId + 1;
    }

    /** `socialLogin.update({where: {id}, data})`. */
    method UpdateLogin(id: Id, d: LoginUpdate) returns (r: Result<SocialLogin, Error>)
      modifies this
      ensures var u := UpdateLoginRow(old(State()), id, d);
        if u.Success? then r == Success(u.value.1) && State() == u.value.0
        else r == Failure(u.error) && State() == old(State())
    {
      var i := 0;
      while i < |socialLogins|
        invariant 0 <= i <= |socialLogins|
        invariant forall k :: 0 <= k < i ==> !LoginMatches(socialLogins[k], WhereId(id))
      {
        if socialLogins[i].id == id {
          var l := ApplyUpdate(socialLogins[i], d);
          socialLogins := socialLogins[i := l];
          return Success(l);
        }
        i := i + 1;
      }
      return Failure(RecordNotFound);
    }

    /** `socialLogin.deleteMany({where})`; returns how many rows went. */
    method DeleteManyLogins(w: LoginWhere) returns (count: nat)
      modifies this
      ensures State() == DeleteLoginRows(old(State()), w)
      ensures count == |old(socialLogins)| - |socialLogins|
    {
      var kept: seq<SocialLogin> := [];
      var i := 0;
      while i < |socialLogins|
        invariant 0 <= i <= |socialLogins|
        invariant kept == FilterLogins(socialLogins[..i], w, false)
      {
        assert socialLogins[..i + 1][..i] == socialLogins[..i];
        if !LoginMatches(socialLogins[i], w) {
          kept := kept + [socialLogins[i]];
        }
        i := i + 1;
      }
      assert socialLogins[..i] == socialLogins;
      count := |socialLogins| - |kept|;
      socialLogins := kept;
    }
  }
}
