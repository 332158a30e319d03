/**
 * The PocketBase plugin's session synchronisation (plugins/pocketbase.ts):
 * at start-up and on every session change it copies the session into the
 * auth store, and it sends an authenticated user away from the login and
 * register pages. The current path (`window.location.pathname`) is an
 * input; the navigation is the returned path, if any.
 */
module SessionSync {
  import opened Js
  import PocketBase
  import Auth

  const RegisterPath: string := "/auth/register"

  /** The redirect rule: a valid session on exactly the login or register page goes home. */
  function LoginPageRedirect(valid: bool, currentPath: string): (nav: Option<string>)
    ensures nav.Some? <==> valid && (currentPath == Auth.LoginPath || currentPath == RegisterPath)
    ensures nav.Some? ==> nav.value == Auth.HomePath
  {
    if valid && (currentPath == Auth.LoginPath || currentPath == RegisterPath) then Some(Auth.HomePath) else None
  }

  /** Start-up seeding: a valid session is mirrored into the store; otherwise the store is left alone. */
  method Startup(session: PocketBase.SessionStore, auth: Auth.AuthStore, currentPath: string)
    returns (nav: Option<string>)
    modifies auth
    ensures session.valid ==> auth.user == session.record && auth.isLoggedIn
    ensures session.valid ==> (auth.IsAuthenticated() <==> session.record.Some?)
    ensures !session.valid ==> auth.user == old(auth.user) && auth.isLoggedIn == old(auth.isLoggedIn)
    ensures auth.isLoading == old(auth.isLoading)
    ensures nav == LoginPageRedirect(session.valid, currentPath)
  {
    nav := None;
    if session.valid {
      auth.SetUser(session.record);
      auth.SetLoggedIn(true);
      if currentPath == Auth.LoginPath || currentPath == RegisterPath {
        nav := Some(Auth.HomePath);
      }
    }
  }

  /**
   * The `onChange` listener, called with the new record (`model`): the store
   * takes the record (or null) and the session's validity.
   */
  method OnChange(session: PocketBase.SessionStore, auth: Auth.AuthStore, model: Option<Record>, currentPath: string)
    returns (nav: Option<string>)
    modifies auth
    ensures auth.user == model && auth.isLoggedIn == session.valid
    ensures auth.isLoading == old(auth.isLoading)
    ensures auth.IsAuthenticated() <==> session.valid && model.Some?
    ensures nav == LoginPageRedirect(session.valid, currentPath)
  {
    auth.SetUser(model);
    auth.SetLoggedIn(session.valid);
    nav := None;
    if session.valid {
      if currentPath == Auth.LoginPath || currentPath == RegisterPath {
        nav := Some(Auth.HomePath);
      }
    }
  }
}
