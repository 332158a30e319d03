/**
 * The three route middlewares (middleware/auth.ts, middleware/admin.ts,
 * middleware/guest.ts) as decision functions. Their inputs are whether
 * the pass runs on the server, the auth store's `isAuthenticated`, the
 * PocketBase session record (admin guard only) and the destination's
 * `fullPath`; the `sessionStorage.setItem('redirectPath', …)` write is
 * part of the decision.
 */
module Guards {
  import opened Js
  import Auth

  const UnauthorizedPath: string := "/auth/unauthorized"

  /** A navigation target: a bare path, or a path with a `redirect` query parameter. */
  datatype Target = Path(path: string) | PathWithRedirect(path: string, redirect: string)

  /**
   * A guard's verdict: let the navigation through, redirect (with the value
   * stored under `redirectPath`, if any), or throw a TypeError.
   */
  datatype Decision = Allow | Redirect(target: Target, stored: Option<string>) | Threw

  /** The auth guard: only authenticated users get through; others are sent to log in. */
  function AuthGuard(serverPass: bool, authenticated: bool, fullPath: string): (d: Decision)
    ensures d.Allow? <==> serverPass || authenticated
    ensures !d.Allow? ==> d == Redirect(Path(Auth.LoginPath), Some(fullPath))
  {
    if serverPass then Allow
    else if !authenticated then Redirect(Path(Auth.LoginPath), Some(fullPath))
    else Allow
  }

  /**
   * The admin guard: the auth guard's check first, then the session
   * record's `isAdmin` field by truthiness. A missing session record while
   * the store claims authentication makes the property read throw.
   */
  function AdminGuard(serverPass: bool, authenticated: bool, sessionRecord: Option<Record>, fullPath: string): (d: Decision)
    ensures d.Allow? <==>
              serverPass ||
              (authenticated && sessionRecord.Some? && Truthy(Lookup(sessionRecord.value, "isAdmin")))
    ensures !serverPass && !authenticated ==> d == AuthGuard(false, false, fullPath)
    ensures d.Threw? <==> !serverPass && authenticated && sessionRecord.None?
    ensures !serverPass && authenticated && sessionRecord.Some? && !Truthy(Lookup(sessionRecord.value, "isAdmin")) ==>
              d == Redirect(PathWithRedirect(UnauthorizedPath, fullPath), None)
  {
    if serverPass then Allow
    else if !authenticated then Redirect(Path(Auth.LoginPath), Some(fullPath))
    else
      match GetProp(if sessionRecord.Some? then Defined(JObj(sessionRecord.value)) else Defined(JNull), "isAdmin")
      case ReadThrew => Threw
      case Got(isAdmin) =>
        if !Truthy(isAdmin) then Redirect(PathWithRedirect(UnauthorizedPath, fullPath), None)
        else Allow
  }

  /** The guest guard: authenticated users are sent home; nothing is stored. */
  function GuestGuard(serverPass: bool, authenticated: bool): (d: Decision)
    ensures d.Allow? <==> serverPass || !authenticated
    ensures !d.Allow? ==> d == Redirect(Path(Auth.HomePath), None)
  {
    if serverPass then Allow
    else if authenticated then Redirect(Path(Auth.HomePath), None)
    else Allow
  }

  /** On a client pass exactly one of the guest guard and the auth guard redirects. */
  lemma GuestAndAuthComplementary(authenticated: bool, fullPath: string)
    ensures GuestGuard(false, authenticated).Redirect? != AuthGuard(false, authenticated, fullPath).Redirect?
  {
  }

  /** The destination never decides the auth guard: it is only recorded. */
  lemma AuthGuardIgnoresDestination(serverPass: bool, authenticated: bool, p1: string, p2: string)
    ensures AuthGuard(serverPass, authenticated, p1).Allow? == AuthGuard(serverPass, authenticated, p2).Allow?
    ensures AuthGuard(serverPass, authenticated, p1).Redirect? ==>
              AuthGuard(serverPass, authenticated, p1).target == AuthGuard(serverPass, authenticated, p2).target
  {
  }

  /** Only a redirect to the login page writes `redirectPath`. */
  lemma OnlyLoginRedirectStores(serverPass: bool, authenticated: bool, rec: Option<Record>, fullPath: string)
    ensures forall d :: d in {AuthGuard(serverPass, authenticated, fullPath),
                              AdminGuard(serverPass, authenticated, rec, fullPath),
                              GuestGuard(serverPass, authenticated)} && d.Redirect? && d.stored.Some? ==>
              d.target == Path(Auth.LoginPath) && d.stored.value == fullPath
  {
  }

  /**
   * The admin guard and the auth store's `isAdmin` getter disagree: the
   * guard reads the session record by truthiness, the getter the store's
   * user by strict equality with `true`. A record with `isAdmin: 1` gets
   * through the guard while the same user is not an admin for the store.
   */
  lemma AdminGuardAndGetterDisagree(fullPath: string)
    ensures var rec := map["isAdmin" := JNum(1.0)];
            AdminGuard(false, true, Some(rec), fullPath) == Allow && !Auth.UserIsAdmin(Some(rec))
  {
  }
}
