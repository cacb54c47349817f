/**
 * The authentication provider: the in-memory session (`user`, `token`,
 * `isLoading`) and the three operations that change it. It reads the token
 * from the general store and, on logout, erases it from the secure store.
 */
module Session {
  import opened Wrappers
  import opened KeyValue
  import opened Api

  datatype User = User(id: string, username: string, email: string)

  /** The user `checkAuth` installs when it finds a valid stored token (no profile is fetched). */
  const PlaceholderUser := User("1", "User", "user@example.com")

  /** Whether a `checkAuth` with these backend outcomes accepts the stored token. */
  ghost predicate Accepts<T>(general: map<string, string>, firstRead: bool, secondRead: bool, server: Server<T>)
  {
    && firstRead && secondRead
    && TokenKey in general && general[TokenKey] != ""
    && server(MeCall(general[TokenKey])).Delivered?
    && server(MeCall(general[TokenKey])).ok
  }

  class AuthProvider {
    var user: Option<User>
    var token: Option<string>
    var isLoading: bool
    /** AsyncStorage, where the token is written and read. */
    const general: Store<string>
    /** SecureStore, where the token is deleted. */
    const secure: Store<string>

    ghost predicate SignedIn()
      reads this
    {
      user.Some? && token.Some?
    }

    ghost predicate SignedOut()
      reads this
    {
      user.None? && token.None?
    }

    /** The two backends are distinct, and `user` is null exactly when `token` is. */
    ghost predicate Valid()
      reads this
    {
      general != secure && (SignedIn() || SignedOut())
    }

    /** A new provider: nobody signed in, and loading until the first `checkAuth` ends. */
    constructor (general: Store<string>, secure: Store<string>)
      requires general != secure
      ensures Valid() && SignedOut() && isLoading
      ensures this.general == general && this.secure == secure
    {
      user := None;
      token := None;
      isLoading := true;
      this.general := general;
      this.secure := secure;
    }

    /** `login`: installs the caller's user and token; storage is the caller's business. */
    method Login(userData: User, authToken: string)
      requires Valid()
      modifies this`user, this`token
      ensures Valid() && SignedIn()
      ensures user == Some(userData) && token == Some(authToken)
      ensures isLoading == old(isLoading)
      ensures unchanged(general, secure)
    {
      user := Some(userData);
      token := Some(authToken);
    }

    /** `logout`: forgets the session and deletes the token from the secure store. */
    method Logout(removeAvailable: bool)
      requires Valid()
      modifies this`user, this`token, secure
      ensures Valid() && SignedOut()
      ensures isLoading == old(isLoading)
      ensures secure.entries == Erased(old(secure.entries), TokenKey, removeAvailable)
      ensures unchanged(general)
    {
      user := None;
      token := None;
      RemoveToken(secure, removeAvailable);
    }

    /**
     * `checkAuth`: reads the stored token; if it is non-empty and validates
     * (a second read plus a probe of `/me`), installs it with the placeholder
     * user, otherwise logs out. Loading ends in every case.
     */
    method CheckAuth<T>(firstRead: bool, secondRead: bool, server: Server<T>, removeAvailable: bool)
      requires Valid()
      modifies this`user, this`token, this`isLoading, secure
      ensures Valid() && !isLoading
      ensures unchanged(general)
      ensures Accepts(general.entries, firstRead, secondRead, server) ==>
        && token == Some(general.entries[TokenKey])
        && user == Some(PlaceholderUser)
        && secure.entries == old(secure.entries)
      ensures !Accepts(general.entries, firstRead, secondRead, server) ==>
        && SignedOut()
        && secure.entries == Erased(old(secure.entries), TokenKey, removeAvailable)
    {
      var storedToken := GetToken(general, firstRead);
      var valid := false;
      if storedToken.Some? && storedToken.value != "" {
        var probe;
        valid, probe := ValidateToken(general, secondRead, server);
      }
      if valid {
        token := storedToken;
        user := Some(PlaceholderUser);
      } else {
        Logout(removeAvailable);
      }
      isLoading := false;
    }
  }

  /** Logging out a second time changes nothing: two logouts leave what one leaves. */
  method LogoutTwice(p: AuthProvider, removeAvailable: bool)
    requires p.Valid()
    modifies p, p.secure
    ensures p.Valid() && p.SignedOut() && p.isLoading == old(p.isLoading)
    ensures p.secure.entries == Erased(old(p.secure.entries), TokenKey, removeAvailable)
    ensures unchanged(p.general)
  {
    p.Logout(removeAvailable);
    ghost var once := (p.user, p.token, p.isLoading, p.secure.entries, p.general.entries);
    p.Logout(removeAvailable);
    ErasedIdempotent(old(p.secure.entries), TokenKey, removeAvailable);
    assert (p.user, p.token, p.isLoading, p.secure.entries, p.general.entries) == once;
  }

  /**
   * A stored token that the server rejects is not erased from where it is
   * read: after `checkAuth` logs out, the next `getToken` still returns it.
   */
  method RejectedTokenStaysStored<T>(p: AuthProvider, server: Server<T>, stored: string)
    returns (next: Option<string>)
    requires p.Valid()
    requires TokenKey in p.general.entries && p.general.entries[TokenKey] == stored && stored != ""
    requires !(server(MeCall(stored)).Delivered? && server(MeCall(stored)).ok)
    modifies p, p.secure
    ensures p.SignedOut() && !p.isLoading
    ensures next == Some(stored)
  {
    p.CheckAuth(true, true, server, true);
    next := GetToken(p.general, true);
  }
}
