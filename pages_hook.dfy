/**
 * The `pages:extend` build hook (nuxt.config.ts): two passes over the
 * route list that add the `admin` middleware to every route under
 * `/dashboard` and the `auth` middleware to every route under `/account`,
 * each only when the route does not list it yet.
 */
module PagesHook {
  import opened Js

  const DashboardPrefix: string := "/dashboard"
  const AccountPrefix: string := "/account"
  const AdminMiddleware: string := "admin"
  const AuthMiddleware: string := "auth"

  /** A route's `meta`; only its `middleware` list is modelled. */
  datatype Meta = Meta(middleware: Option<seq<string>>)

  /** A page route: its path and its optional `meta`. */
  datatype Route = Route(path: string, meta: Option<Meta>)

  /** `path.startsWith(prefix)`. */
  predicate StartsWith(path: string, prefix: string)
    ensures StartsWith(path, prefix) <==> |prefix| <= |path| && path == prefix + path[|prefix|..]
  {
    |prefix| <= |path| && path[..|prefix|] == prefix
  }

  /** The middleware names a route lists; none when `meta` or `middleware` is missing. */
  function Middleware(r: Route): (names: seq<string>)
    ensures r.meta.None? || r.meta.value.middleware.None? ==> names == []
    ensures r.meta.Some? && r.meta.value.middleware.Some? ==> names == r.meta.value.middleware.value
  {
    if r.meta.Some? && r.meta.value.middleware.Some? then r.meta.value.middleware.value else []
  }

  /** A list without repeated names. */
  predicate NoDuplicates(names: seq<string>)
  {
    forall i, j :: 0 <= i < j < |names| ==> names[i] != names[j]
  }

  /**
   * One step of a pass: a route under `prefix` gets `meta` and a
   * `middleware` list, and `name` at the end of that list unless it is
   * already there; other routes are untouched.
   */
  function Attach(r: Route, prefix: string, name: string): (r': Route)
    ensures r'.path == r.path
    ensures !StartsWith(r.path, prefix) ==> r' == r
    ensures StartsWith(r.path, prefix) ==> name in Middleware(r')
    ensures StartsWith(r.path, prefix) && name in Middleware(r) ==> Middleware(r') == Middleware(r)
    ensures StartsWith(r.path, prefix) && name !in Middleware(r) ==> Middleware(r') == Middleware(r) + [name]
  {
    if !StartsWith(r.path, prefix) then r
    else
      var names := Middleware(r);
      Route(r.path, Some(Meta(Some(if name in names then names else names + [name]))))
  }

  /** One whole pass (`pages.forEach`). */
  function AttachAll(routes: seq<Route>, prefix: string, name: string): (rs: seq<Route>)
    ensures |rs| == |routes|
  {
    if routes == [] then [] else [Attach(routes[0], prefix, name)] + AttachAll(routes[1..], prefix, name)
  }

  /** The whole hook: the `/dashboard` pass, then the `/account` pass. */
  function Hook(routes: seq<Route>): (rs: seq<Route>)
    ensures |rs| == |routes|
  {
    AttachAll(AttachAll(routes, DashboardPrefix, AdminMiddleware), AccountPrefix, AuthMiddleware)
  }

  /** A pass treats every route on its own, in place. */
  lemma {:induction false} AttachAllAt(routes: seq<Route>, prefix: string, name: string, i: nat)
    requires i < |routes|
    ensures AttachAll(routes, prefix, name)[i] == Attach(routes[i], prefix, name)
  {
    if i > 0 {
      AttachAllAt(routes[1..], prefix, name, i - 1);
    }
  }

  /** A pass run twice gives what it gives once. */
  lemma {:induction false} AttachAllIdempotent(routes: seq<Route>, prefix: string, name: string)
    ensures AttachAll(AttachAll(routes, prefix, name), prefix, name) == AttachAll(routes, prefix, name)
  {
    if routes != [] {
      var once := AttachAll(routes, prefix, name);
      assert once[1..] == AttachAll(routes[1..], prefix, name);
      AttachAllIdempotent(routes[1..], prefix, name);
    }
  }

  /** What the hook does to each route. */
  lemma HookAt(routes: seq<Route>, i: nat)
    requires i < |routes|
    ensures |Hook(routes)| == |routes|
    ensures Hook(routes)[i] == Attach(Attach(routes[i], DashboardPrefix, AdminMiddleware), AccountPrefix, AuthMiddleware)
  {
    var mid := AttachAll(routes, DashboardPrefix, AdminMiddleware);
    AttachAllAt(routes, DashboardPrefix, AdminMiddleware, i);
    AttachAllAt(mid, AccountPrefix, AuthMiddleware, i);
  }

  /**
   * The hook keeps the route list (count, order, paths), gives every
   * `/dashboard` route `admin` and every `/account` route `auth`, leaves
   * routes matching neither prefix unchanged, keeps every existing
   * middleware entry in place, appends only names that were missing, and
   * introduces no duplicate.
   */
  lemma HookGuarantees(routes: seq<Route>)
    ensures |Hook(routes)| == |routes|
    ensures forall i :: 0 <= i < |routes| ==> Hook(routes)[i].path == routes[i].path
    ensures forall i :: 0 <= i < |routes| && StartsWith(routes[i].path, DashboardPrefix) ==>
              AdminMiddleware in Middleware(Hook(routes)[i])
    ensures forall i :: 0 <= i < |routes| && StartsWith(routes[i].path, AccountPrefix) ==>
              AuthMiddleware in Middleware(Hook(routes)[i])
    ensures forall i :: (0 <= i < |routes| && !StartsWith(routes[i].path, DashboardPrefix) &&
                         !StartsWith(routes[i].path, AccountPrefix)) ==> Hook(routes)[i] == routes[i]
    ensures forall i :: 0 <= i < |routes| ==>
              var before, after := Middleware(routes[i]), Middleware(Hook(routes)[i]);
              |before| <= |after| && after[..|before|] == before &&
              forall j :: |before| <= j < |after| ==>
                after[j] in {AdminMiddleware, AuthMiddleware} && after[j] !in before
    ensures forall i :: 0 <= i < |routes| && NoDuplicates(Middleware(routes[i])) ==>
              NoDuplicates(Middleware(Hook(routes)[i]))
  {
    forall i | 0 <= i < |routes|
      ensures Hook(routes)[i].path == routes[i].path
      ensures StartsWith(routes[i].path, DashboardPrefix) ==> AdminMiddleware in Middleware(Hook(routes)[i])
      ensures StartsWith(routes[i].path, AccountPrefix) ==> AuthMiddleware in Middleware(Hook(routes)[i])
      ensures !StartsWith(routes[i].path, DashboardPrefix) && !StartsWith(routes[i].path, AccountPrefix) ==>
                Hook(routes)[i] == routes[i]
      ensures var before, after := Middleware(routes[i]), Middleware(Hook(routes)[i]);
              |before| <= |after| && after[..|before|] == before &&
              forall j :: |before| <= j < |after| ==>
                after[j] in {AdminMiddleware, AuthMiddleware} && after[j] !in before
      ensures NoDuplicates(Middleware(routes[i])) ==> NoDuplicates(Middleware(Hook(routes)[i]))
    {
      HookAt(routes, i);
      var r1 := Attach(routes[i], DashboardPrefix, AdminMiddleware);
      var r2 := Attach(r1, AccountPrefix, AuthMiddleware);
      assert AdminMiddleware in Middleware(r1) ==> AdminMiddleware in Middleware(r2);
    }
  }

  /** Running the hook twice gives the same routes as running it once. */
  lemma HookIdempotent(routes: seq<Route>)
    ensures Hook(Hook(routes)) == Hook(routes)
  {
    var once := Hook(routes);
    var twice := Hook(once);
    HookGuarantees(routes);
    HookGuarantees(once);
    forall i | 0 <= i < |routes|
      ensures twice[i] == once[i]
    {
      HookAt(routes, i);
      HookAt(once, i);
      var r1 := Attach(routes[i], DashboardPrefix, AdminMiddleware);
      var r2 := Attach(r1, AccountPrefix, AuthMiddleware);
      // r2 already lists `admin` when it is a `/dashboard` route, so the first pass leaves it alone.
      assert StartsWith(r2.path, DashboardPrefix) ==> AdminMiddleware in Middleware(r2);
      assert Attach(r2, DashboardPrefix, AdminMiddleware) == r2;
    }
  }

  /** One pass over the route array, updating each route in place. */
  method AttachInPlace(pages: array<Route>, prefix: string, name: string)
    modifies pages
    ensures pages[..] == AttachAll(old(pages[..]), prefix, name)
  {
    ghost var before := pages[..];
    var i := 0;
    while i < pages.Length
      invariant 0 <= i <= pages.Length
      invariant forall k :: 0 <= k < i ==> pages[k] == Attach(before[k], prefix, name)
      invariant forall k :: i <= k < pages.Length ==> pages[k] == before[k]
    {
      var route := pages[i];
      if StartsWith(route.path, prefix) {
        var names := Middleware(route);
        if name !in names {
          names := names + [name];
        }
        pages[i] := Route(route.path, Some(Meta(Some(names))));
      }
      i := i + 1;
    }
    forall k | 0 <= k < pages.Length
      ensures pages[..][k] == AttachAll(before, prefix, name)[k]
    {
      AttachAllAt(before, prefix, name, k);
    }
  }

  /** The `pages:extend` hook. */
  method ExtendPages(pages: array<Route>)
    modifies pages
    ensures pages[..] == Hook(old(pages[..]))
  {
    AttachInPlace(pages, DashboardPrefix, AdminMiddleware);
    AttachInPlace(pages, AccountPrefix, AuthMiddleware);
  }
}
