/**
 * The user service: look a user up, with or without the linked accounts, and
 * disconnect every account of one provider from a user.
 */
module UserService {
  import opened Wrappers
  import opened Store

  /** A user together with its social logins (`include: {socialLogins: true}`). */
  datatype UserWithLogins = UserWithLogins(user: User, socialLogins: seq<SocialLogin>)

  /**
   * `disconnectAccount` on the store's value. The two not-found outcomes are
   * distinct: no such user, and a user without an account of that provider.
   */
  function Disconnect(t: Tables, userId: Id, provider: string): (r: Result<Tables, Error>)
    ensures FindUser(t.users, ById(userId)).None? ==> r == Failure(UserNotFound(userId))
    ensures FindUser(t.users, ById(userId)).Some? && FirstLogin(t.logins, WhereUserProvider(userId, provider)).None?
      ==> r == Failure(NoProviderAccount(provider))
    ensures r.Success? <==>
      FindUser(t.users, ById(userId)).Some? && FirstLogin(t.logins, WhereUserProvider(userId, provider)).Some?
    ensures r.Success? ==>
      && r.value.users == t.users && r.value.sessions == t.sessions && r.value.nextId == t.nextId
      && |r.value.logins| < |t.logins|
      && (forall l :: l in r.value.logins <==> l in t.logins && !(l.userId == userId && l.provider == provider))
  {
    var w := WhereUserProvider(userId, provider);
    if FindUser(t.users, ById(userId)).None? then Failure(UserNotFound(userId))
    else if |FilterLogins(t.logins, w, true)| == 0 then
      assert forall k :: 0 <= k < |t.logins| ==> t.logins[k] !in FilterLogins(t.logins, w, true);
      Failure(NoProviderAccount(provider))
    else
      assert FilterLogins(t.logins, w, true)[0] in t.logins;
      FilterDropsMatch(t.logins, w, false, FirstLogin(t.logins, w).value);
      Success(DeleteLoginRows(t, w))
  }

  /** A second disconnect of the same pair finds no account of that provider. */
  lemma DisconnectTwiceFails(t: Tables, userId: Id, provider: string)
    ensures Disconnect(t, userId, provider).Success? ==>
      Disconnect(Disconnect(t, userId, provider).value, userId, provider) == Failure(NoProviderAccount(provider))
  {
    var r := Disconnect(t, userId, provider);
    if r.Success? {
      var t' := r.value;
      forall k | 0 <= k < |t'.logins|
        ensures !LoginMatches(t'.logins[k], WhereUserProvider(userId, provider))
      {
        assert t'.logins[k] in t'.logins;
      }
    }
  }

  /** Disconnecting keeps the store's keys and references intact. */
  lemma DisconnectConsistent(t: Tables, userId: Id, provider: string)
    requires Consistent(t)
    ensures Disconnect(t, userId, provider).Success? ==> Consistent(Disconnect(t, userId, provider).value)
  {
    DeleteLoginRowsConsistent(t, WhereUserProvider(userId, provider));
  }

  /** The user service over the database. */
  class UserService {
    const prisma: Database

    constructor (prisma: Database)
      ensures this.prisma == prisma
    {
      this.prisma := prisma;
    }

    /** `getUserById`: no user is an empty result, never an error. */
    method GetUserById(userId: Id) returns (r: Option<User>)
      ensures r.None? <==> forall u :: u in prisma.users ==> u.id != userId
      ensures r.Some? ==> r.value in prisma.users && r.value.id == userId
    {
      r := prisma.FindUniqueUser(ById(userId));
    }

    /** `getUserWithAccounts`: the user with all of its logins, or NotFound. */
    method GetUserWithAccounts(userId: Id) returns (r: Result<UserWithLogins, Error>)
      ensures r.Failure? <==> forall u :: u in prisma.users ==> u.id != userId
      ensures r.Failure? ==> r.error == UserNotFound(userId)
      ensures r.Success? ==> r.value.user in prisma.users && r.value.user.id == userId
      ensures r.Success? ==> r.value.socialLogins == FilterLogins(prisma.socialLogins, WhereUser(userId), true)
      ensures r.Success? ==> forall l :: l in r.value.socialLogins <==> l in prisma.socialLogins && l.userId == userId
    {
      var u := prisma.FindUniqueUser(ById(userId));
      if u.None? {
        return Failure(UserNotFound(userId));
      }
      var logins := prisma.FindManyLogins(WhereUser(userId));
      return Success(UserWithLogins(u.value, logins));
    }

    /** `disconnectAccount`: the store becomes what `Disconnect` says, or is unchanged on an error. */
    method DisconnectAccount(userId: Id, provider: string) returns (r: Result<bool, Error>)
      requires prisma.Valid()
      modifies prisma
      ensures prisma.Valid()
      ensures var d := Disconnect(old(prisma.State()), userId, provider);
        if d.Success? then r == Success(true) && prisma.State() == d.value
        else r == Failure(d.error) && prisma.State() == old(prisma.State())
    {
      DisconnectConsistent(prisma.State(), userId, provider);
      var u := prisma.FindUniqueUser(ById(userId));
      if u.None? {
        return Failure(UserNotFound(userId));
      }
      var linked := prisma.FindManyLogins(WhereUserProvider(userId, provider));
      if |linked| == 0 {
        return Failure(NoProviderAccount(provider));
      }
      var deleted := prisma.DeleteManyLogins(WhereUserProvider(userId, provider));
      return Success(true);
    }
  }
}
