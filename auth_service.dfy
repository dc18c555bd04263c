/**
 * Sign-in: after a provider's OAuth2 consent, the user is upserted by email and,
 * for a user who already exists, the social login is upserted by its
 * compound key (provider, providerId), scoped to that user.
 */
module AuthService {
  import opened Wrappers
  import opened Store

  /** The finished provider profile with its token pair and expiry. */
  datatype Profile = Profile(
    provider: string,
    providerId: string,
    accessToken: string,
    refreshToken: Option<string>,
    email: Option<string>,
    displayName: Option<string>,
    expiresAt: Option<int>)

  /** The nested `create` of a social login. */
  function NewLogin(p: Profile): LoginData {
    LoginData(p.provider, p.providerId, p.accessToken, p.refreshToken, p.expiresAt)
  }

  /** The nested `update`: an undefined refresh token or expiry leaves the stored one. */
  function TokenUpdate(p: Profile): LoginUpdate {
    LoginUpdate(Some(p.accessToken), p.refreshToken, p.expiresAt)
  }

  /** The login `where` of the nested upsert, inside the user's own logins. */
  function WhereOwnKey(userId: Id, p: Profile): LoginWhere {
    LoginWhere(None, Some(userId), Some(p.provider), Some(p.providerId))
  }

  predicate KeyTaken(t: Tables, p: Profile) {
    FirstLogin(t.logins, WhereKey(p.provider, p.providerId)).Some?
  }

  /**
   * The effect of `createOrUpdateUser` on the store's value: the new store and
   * the user the upsert returns.
   */
  function Upsert(t: Tables, p: Profile): (r: Result<(Tables, User), Error>)
    ensures p.email.None? ==> r == Failure(MissingUniqueKey)
    ensures r.Failure? ==> r.error in {MissingUniqueKey, UniqueConstraintViolation}
    // an unknown email creates one user and one login, unless the key is taken
    ensures p.email.Some? && FindUser(t.users, ByEmail(p.email.value)).None? ==>
      && (r.Success? <==> !KeyTaken(t, p))
      && (r.Success? ==>
            var (t', u) := r.value;
            && u.email == p.email && u.displayName == p.displayName && u.id == t.nextId
            && t'.users == t.users + [u]
            && t'.logins == t.logins + [SocialLogin(t.nextId + 1, u.id, p.provider, p.providerId,
                                                    p.accessToken, p.refreshToken, p.expiresAt)]
            && t'.sessions == t.sessions && t'.nextId == t.nextId + 2)
    // a known email adds no user and returns the stored user unchanged
    ensures p.email.Some? && FindUser(t.users, ByEmail(p.email.value)).Some? && r.Success? ==>
      var (t', u) := r.value;
      && Some(u) == FindUser(t.users, ByEmail(p.email.value))
      && t'.users == t.users && t'.sessions == t.sessions
    // ... and refreshes the user's login for the key in place
    ensures p.email.Some? && FindUser(t.users, ByEmail(p.email.value)).Some? ==>
      var u := FindUser(t.users, ByEmail(p.email.value)).value;
      FirstLogin(t.logins, WhereOwnKey(u.id, p)).Some? ==>
        var j := FirstLogin(t.logins, WhereOwnKey(u.id, p)).value;
        (forall k :: 0 <= k < j ==> t.logins[k].id != t.logins[j].id) ==>
          && r.Success?
          && r.value.0.logins == t.logins[j := ApplyUpdate(t.logins[j], TokenUpdate(p))]
          && r.value.0.nextId == t.nextId
    // ... or adds exactly one login owned by the user, unless the key is taken
    ensures p.email.Some? && FindUser(t.users, ByEmail(p.email.value)).Some? ==>
      var u := FindUser(t.users, ByEmail(p.email.value)).value;
      FirstLogin(t.logins, WhereOwnKey(u.id, p)).None? ==>
        && (r.Success? <==> !KeyTaken(t, p))
        && (r.Success? ==>
              && r.value.0.logins == t.logins + [SocialLogin(t.nextId, u.id, p.provider, p.providerId,
                                                             p.accessToken, p.refreshToken, p.expiresAt)]
              && r.value.0.nextId == t.nextId + 1)
  {
    if p.email.None? then Failure(MissingUniqueKey)
    else match FindUser(t.users, ByEmail(p.email.value))
      case None =>
        if KeyTaken(t, p) then Failure(UniqueConstraintViolation)
        else
          var (t1, u) := CreateUserRow(t, p.email, p.displayName);
          var (t2, _) := CreateLoginRow(t1, u.id, NewLogin(p));
          Success((t2, u))
      case Some(u) =>
        match FindLogin(t.logins, WhereOwnKey(u.id, p))
        case Some(l) =>
          (match UpdateLoginRow(t, l.id, TokenUpdate(p))
           case Success((t1, _)) => Success((t1, u))
           case Failure(e) => Failure(e))
        case None =>
          if KeyTaken(t, p) then Failure(UniqueConstraintViolation)
          else
            var (t1, _) := CreateLoginRow(t, u.id, NewLogin(p));
            Success((t1, u))
  }

  /** Every successful upsert keeps the store's primary keys, unique columns and foreign keys. */
  lemma UpsertConsistent(t: Tables, p: Profile)
    requires Consistent(t)
    ensures Upsert(t, p).Success? ==> Consistent(Upsert(t, p).value.0)
  {
    if p.email.Some? {
      match FindUser(t.users, ByEmail(p.email.value))
      case None =>
        if !KeyTaken(t, p) {
          CreateUserRowConsistent(t, p.email, p.displayName);
          var (t1, u) := CreateUserRow(t, p.email, p.displayName);
          assert u in t1.users;
          assert FirstLogin(t1.logins, WhereKey(p.provider, p.providerId)).None?;
          CreateLoginRowConsistent(t1, u.id, NewLogin(p));
        }
      case Some(u) =>
        match FindLogin(t.logins, WhereOwnKey(u.id, p))
        case Some(l) =>
          UpdateLoginRowConsistent(t, l.id, TokenUpdate(p));
        case None =>
          if !KeyTaken(t, p) {
            assert u in t.users;
            CreateLoginRowConsistent(t, u.id, NewLogin(p));
          }
    }
  }

  /** Signing in twice with the same profile leaves the same store, and returns the same user, as once. */
  lemma UpsertIdempotent(t: Tables, p: Profile)
    requires Consistent(t)
    ensures Upsert(t, p).Success? ==> Upsert(Upsert(t, p).value.0, p) == Upsert(t, p)
  {
    if Upsert(t, p).Success? {
      var (t', u) := Upsert(t, p).value;
      var j: nat;
      match FindUser(t.users, ByEmail(p.email.value)) {
        case None =>
          j := |t.logins|;
          SettledNewUser(t, p);
        case Some(u0) =>
          if FirstLogin(t.logins, WhereOwnKey(u0.id, p)).Some? {
            j := FirstLogin(t.logins, WhereOwnKey(u0.id, p)).value;
            SettledKnownLogin(t, p, u0);
          } else {
            j := |t.logins|;
            SettledNewLogin(t, p, u0);
          }
      }
      UpsertSettled(t', p, u, j);
    }
  }

  /**
   * A store in which the profile's email finds `u`, whose first own login for
   * the key is row `j`, already holding the profile's tokens, with an id no
   * earlier row has.
   */
  predicate Settled(t: Tables, p: Profile, u: User, j: nat) {
    && p.email.Some? && FindUser(t.users, ByEmail(p.email.value)) == Some(u)
    && FirstLogin(t.logins, WhereOwnKey(u.id, p)) == Some(j)
    && t.logins[j] == ApplyUpdate(t.logins[j], TokenUpdate(p))
    && forall k :: 0 <= k < j ==> t.logins[k].id != t.logins[j].id
  }

  /** An upsert into a settled store returns the user with the store unchanged. */
  lemma UpsertSettled(t: Tables, p: Profile, u: User, j: nat)
    requires Settled(t, p, u, j)
    ensures Upsert(t, p) == Success((t, u))
  {
    assert FirstLogin(t.logins, WhereId(t.logins[j].id)) == Some(j);
    assert t.logins[j := t.logins[j]] == t.logins;
  }

  lemma SettledNewUser(t: Tables, p: Profile)
    requires Consistent(t) && p.email.Some? && FindUser(t.users, ByEmail(p.email.value)).None?
    requires Upsert(t, p).Success?
    ensures Settled(Upsert(t, p).value.0, p, Upsert(t, p).value.1, |t.logins|)
  {
    var (t', u) := Upsert(t, p).value;
    UpsertFindsUser(t, p);
    var m := |t.logins|;
    assert forall k :: 0 <= k < m ==> !LoginMatches(t.logins[k], WhereKey(p.provider, p.providerId));
    assert forall k :: 0 <= k < m ==> t'.logins[k] == t.logins[k];
    assert forall k :: 0 <= k < m ==> !LoginMatches(t'.logins[k], WhereOwnKey(u.id, p));
    assert LoginMatches(t'.logins[m], WhereOwnKey(u.id, p));
    assert forall k :: 0 <= k < m ==> t.logins[k].id < t.nextId;
  }

  lemma SettledKnownLogin(t: Tables, p: Profile, u: User)
    requires Consistent(t) && p.email.Some? && FindUser(t.users, ByEmail(p.email.value)) == Some(u)
    requires FirstLogin(t.logins, WhereOwnKey(u.id, p)).Some?
    requires Upsert(t, p).Success?
    ensures Upsert(t, p).value.1 == u
    ensures Settled(Upsert(t, p).value.0, p, u, FirstLogin(t.logins, WhereOwnKey(u.id, p)).value)
  {
    var j := FirstLogin(t.logins, WhereOwnKey(u.id, p)).value;
    var l := ApplyUpdate(t.logins[j], TokenUpdate(p));
    var logins := t.logins[j := l];
    assert FirstLogin(t.logins, WhereId(t.logins[j].id)) == Some(j);
    assert Upsert(t, p) == Success((t.(logins := logins), u));
    assert forall k :: 0 <= k < j ==> logins[k] == t.logins[k];
    assert FirstLogin(logins, WhereOwnKey(u.id, p)) == Some(j);
  }

  lemma SettledNewLogin(t: Tables, p: Profile, u: User)
    requires Consistent(t) && p.email.Some? && FindUser(t.users, ByEmail(p.email.value)) == Some(u)
    requires FirstLogin(t.logins, WhereOwnKey(u.id, p)).None?
    requires Upsert(t, p).Success?
    ensures Upsert(t, p).value.1 == u
    ensures Settled(Upsert(t, p).value.0, p, u, |t.logins|)
  {
    var t' := Upsert(t, p).value.0;
    var m := |t.logins|;
    assert forall k :: 0 <= k < m ==> t'.logins[k] == t.logins[k];
    assert forall k :: 0 <= k < m ==> !LoginMatches(t'.logins[k], WhereOwnKey(u.id, p));
    assert LoginMatches(t'.logins[m], WhereOwnKey(u.id, p));
    assert forall k :: 0 <= k < m ==> t.logins[k].id < t.nextId;
  }

  /** Each row of `after` begins as the same row of `before`, with the same id, owner and key. */
  predicate KeepsLogins(before: seq<SocialLogin>, after: seq<SocialLogin>) {
    && |before| <= |after|
    && forall k :: 0 <= k < |before| ==>
         after[k].id == before[k].id && after[k].userId == before[k].userId && SameKey(after[k], before[k])
  }

  /** An upsert never removes a login and never changes a login's id, owner or key. */
  lemma UpsertKeepsLogins(t: Tables, p: Profile)
    requires Upsert(t, p).Success?
    ensures KeepsLogins(t.logins, Upsert(t, p).value.0.logins)
  {
    match FindUser(t.users, ByEmail(p.email.value))
    case None =>
    case Some(u) =>
      match FindLogin(t.logins, WhereOwnKey(u.id, p))
      case None =>
      case Some(l) =>
        match FirstLogin(t.logins, WhereId(l.id))
        case None =>
        case Some(j) =>
          assert Upsert(t, p).value.0.logins == t.logins[j := ApplyUpdate(t.logins[j], TokenUpdate(p))];
  }

  /** After a successful upsert, the returned user owns a login with the profile's key. */
  lemma UpsertOwnsLogin(t: Tables, p: Profile)
    requires Upsert(t, p).Success?
    ensures var (t', u) := Upsert(t, p).value;
      exists i :: 0 <= i < |t'.logins| && LoginMatches(t'.logins[i], WhereOwnKey(u.id, p))
  {
    var (t', u) := Upsert(t, p).value;
    UpsertKeepsLogins(t, p);
    var j := FirstLogin(t.logins, WhereOwnKey(u.id, p));
    if FindUser(t.users, ByEmail(p.email.value)).Some? && j.Some? {
      assert LoginMatches(t'.logins[j.value], WhereOwnKey(u.id, p));
    } else {
      assert LoginMatches(t'.logins[|t.logins|], WhereOwnKey(u.id, p));
    }
  }

  /** The returned user is the one the new store finds by the profile's email. */
  lemma UpsertFindsUser(t: Tables, p: Profile)
    requires Upsert(t, p).Success?
    ensures FindUser(Upsert(t, p).value.0.users, ByEmail(p.email.value)) == Some(Upsert(t, p).value.1)
  {
    var (t', u) := Upsert(t, p).value;
    if FindUser(t.users, ByEmail(p.email.value)).None? {
      assert t'.users[|t.users|] == u;
    }
  }

  /**
   * Signing in with a second provider under the same email adds that provider's
   * login to the first user: one user, both logins.
   */
  lemma SecondProviderMerges(t: Tables, first: Profile, second: Profile)
    requires first.email.Some? && second.email == first.email
    requires Upsert(t, first).Success?
    requires Upsert(Upsert(t, first).value.0, second).Success?
    ensures var (t1, u1) := Upsert(t, first).value;
      var (t2, u2) := Upsert(t1, second).value;
      && u2 == u1 && t2.users == t1.users
      && (exists i :: 0 <= i < |t2.logins| && LoginMatches(t2.logins[i], WhereOwnKey(u1.id, first)))
      && (exists i :: 0 <= i < |t2.logins| && LoginMatches(t2.logins[i], WhereOwnKey(u1.id, second)))
  {
    var (t1, u1) := Upsert(t, first).value;
    var t2 := Upsert(t1, second).value.0;
    UpsertFindsUser(t, first);
    UpsertOwnsLogin(t, first);
    var i :| 0 <= i < |t1.logins| && LoginMatches(t1.logins[i], WhereOwnKey(u1.id, first));
    UpsertKeepsLogins(t1, second);
    assert LoginMatches(t2.logins[i], WhereOwnKey(u1.id, first));
    UpsertOwnsLogin(t1, second);
  }

  /** The sign-in service over the database. */
  class AuthService {
    const prisma: Database

    constructor (prisma: Database)
      ensures this.prisma == prisma
    {
      this.prisma := prisma;
    }

    /** `createOrUpdateUser`: the store becomes what `Upsert` says, or is unchanged on an error. */
    method CreateOrUpdateUser(p: Profile) returns (r: Result<User, Error>)
      requires prisma.Valid()
      modifies prisma
      ensures prisma.Valid()
      ensures var u := Upsert(old(prisma.State()), p);
        if u.Success? then r == Success(u.value.1) && prisma.State() == u.value.0
        else r == Failure(u.error) && prisma.State() == old(prisma.State())
    {
      UpsertConsistent(prisma.State(), p);
      if p.email.None? {
        return Failure(MissingUniqueKey);
      }
      var found := prisma.FindUniqueUser(ByEmail(p.email.value));
      if found.None? {
        var clash := prisma.FindFirstLogin(WhereKey(p.provider, p.providerId));
        if clash.Some? {
          return Failure(UniqueConstraintViolation);
        }
        var u := prisma.CreateUser(p.email, p.displayName);
        var created := prisma.CreateLogin(u.id, NewLogin(p));
        return Success(u);
      }
      var u := found.value;
      var existing := prisma.FindFirstLogin(WhereOwnKey(u.id, p));
      if existing.Some? {
        var updated := prisma.UpdateLogin(existing.value.id, TokenUpdate(p));
        if updated.Failure? {
          return Failure(updated.error);
        }
        return Success(u);
      }
      var clash := prisma.FindFirstLogin(WhereKey(p.provider, p.providerId));
      if clash.Some? {
        return Failure(UniqueConstraintViolation);
      }
      var created := prisma.CreateLogin(u.id, NewLogin(p));
      return Success(u);
    }
  }
}
