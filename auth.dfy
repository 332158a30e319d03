/**
 * PocketBase's client-side session (only the part this application reads
 * and clears): whether the session is valid and the authenticated record.
 */
module PocketBase {
  import opened Js

  class SessionStore {
    /** `isValid`: a token is present and not expired (the clock is an input). */
    var valid: bool
    /** `record` (also exposed as `model`): the authenticated user record or null. */
    var record: Option<Record>

    constructor (valid: bool, record: Option<Record>)
      ensures this.valid == valid && this.record == record
    {
      this.valid := valid;
      this.record := record;
    }

    /** `authStore.clear()`: drops the token and the record. */
    method Clear()
      modifies this
      ensures !valid && record == None
    {
      valid := false;
      record := None;
    }
  }
}

/**
 * The auth store: a local projection of the session used by route guards
 * and the UI (stores/auth.ts).
 */
module Auth {
  import opened Js
  import PocketBase

  /** The home page, where `logout` navigates and where logged-in users are sent away to. */
  const HomePath: string := "/"
  /** The login page, where unauthenticated users are sent. */
  const LoginPath: string := "/auth/login"

  /** `isAdmin` of a user value: the user exists and its `isAdmin` field is exactly `true`. */
  predicate UserIsAdmin(user: Option<Record>)
    ensures UserIsAdmin(user) ==> user.Some? && "isAdmin" in user.value && user.value["isAdmin"].JBool?
  {
    user.Some? && Lookup(user.value, "isAdmin") == Defined(JBool(true))
  }

  class AuthStore {
    var user: Option<Record>
    var isLoggedIn: bool
    var isLoading: bool

    /** The initial state: nobody is logged in and nothing is loading. */
    constructor ()
      ensures user == None && !isLoggedIn && !isLoading
      ensures !IsAuthenticated()
    {
      user := None;
      isLoggedIn := false;
      isLoading := false;
    }

    /** `isAuthenticated`: logged in and holding a user. */
    predicate IsAuthenticated()
      reads this
      ensures IsAuthenticated() ==> CurrentUser().Some?
      ensures IsAuthenticated() <==> isLoggedIn && CurrentUser() != None
    {
      isLoggedIn && user.Some?
    }

    /** `currentUser`. */
    function CurrentUser(): (u: Option<Record>)
      reads this
      ensures u == user
    {
      user
    }

    /** Whether the `isAdmin` getter yields a truthy value. */
    predicate IsAdmin()
      reads this
      ensures IsAdmin() ==> CurrentUser().Some?
      ensures IsAdmin() <==> UserIsAdmin(CurrentUser())
    {
      UserIsAdmin(user)
    }

    method SetUser(u: Option<Record>)
      modifies this
      ensures user == u
      ensures isLoggedIn == old(isLoggedIn) && isLoading == old(isLoading)
    {
      user := u;
    }

    method SetLoggedIn(status: bool)
      modifies this
      ensures isLoggedIn == status
      ensures user == old(user) && isLoading == old(isLoading)
    {
      isLoggedIn := status;
    }

    method SetLoading(status: bool)
      modifies this
      ensures isLoading == status
      ensures user == old(user) && isLoggedIn == old(isLoggedIn)
    {
      isLoading := status;
    }

    method ClearUser()
      modifies this
      ensures user == None && !isLoggedIn
      ensures isLoading == old(isLoading)
      ensures !IsAuthenticated() && !IsAdmin()
    {
      user := None;
      isLoggedIn := false;
    }

    /**
     * `logout`: clears the PocketBase session, then the local projection,
     * and navigates home (the returned path).
     */
    method Logout(session: PocketBase.SessionStore) returns (navigateTo: string)
      modifies this, session
      ensures !session.valid && session.record == None
      ensures user == None && !isLoggedIn && isLoading == old(isLoading)
      ensures !IsAuthenticated()
      ensures navigateTo == HomePath
    {
      session.Clear();
      ClearUser();
      navigateTo := HomePath;
    }
  }

  /**
   * `isAdmin` compares with `true` strictly: other truthy flags such as
   * `1` or `"true"` do not make a user an admin, and neither does a
   * missing user.
   */
  lemma AdminFlagIsStrict(u: Option<Record>)
    ensures UserIsAdmin(u) <==> u.Some? && "isAdmin" in u.value && u.value["isAdmin"] == JBool(true)
    ensures u.Some? && "isAdmin" in u.value && u.value["isAdmin"] in {JNum(1.0), JStr("true")} ==> !UserIsAdmin(u)
  {
  }
}
