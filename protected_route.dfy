/**
 * The route guard (components/auth/protected-route.tsx): once the auth state
 * is known, it sends a visitor without a session to the login page, sends a
 * signed-in user whose role is not allowed to their role's home page, and
 * otherwise shows the protected content.
 */
module ProtectedRoute {
  import opened Wrappers
  import opened AuthStore

  /** The navigation the guard's effect performs. */
  datatype Navigation =
    | Stay
    | ToLogin(path: string, redirectParam: string)
    | ToPage(path: string)
    | ToUnauthorizedLogin

  /** What the guard renders. */
  datatype Render = LoadingPlaceholder | NothingShown | ChildrenShown

  const DefaultLogin := "/login"
  const AdminHome := "/participants"
  const LeaderHome := "/leader-dashboard"

  /** `roleHome`. */
  function RoleHome(user: Option<User>): (home: Option<string>)
    ensures home.None? <==> user.None?
    ensures user.Some? ==> home == Some(if user.value.role == Admin then AdminHome else LeaderHome)
  {
    if user.None? then None
    else if user.value.role == Admin then Some(AdminHome) else Some(LeaderHome)
  }

  /** `isAllowed`: a signed-in user, and either no role list (or an empty one) or a listed role. */
  function IsAllowed(user: Option<User>, allowedRoles: Option<seq<UserRole>>): (ok: bool)
    ensures ok ==> user.Some?
    ensures user.Some? && (allowedRoles.None? || allowedRoles.value == []) ==> ok
    ensures user.Some? && allowedRoles.Some? && allowedRoles.value != [] ==> (ok <==> user.value.role in allowedRoles.value)
  {
    if user.None? then false
    else if allowedRoles.None? || |allowedRoles.value| == 0 then true
    else user.value.role in allowedRoles.value
  }

  /** The effect: where the guard navigates for the current state. */
  function Effect(initialized: bool, user: Option<User>, allowedRoles: Option<seq<UserRole>>,
                  redirectTo: Option<string>, pathname: Option<string>): (nav: Navigation)
    ensures !initialized ==> nav == Stay
    ensures nav.ToLogin? <==> initialized && user.None?
    ensures nav.ToPage? ==> initialized && user.Some? && !IsAllowed(user, allowedRoles)
    ensures initialized && IsAllowed(user, allowedRoles) ==> nav == Stay
  {
    if !initialized then Stay
    else if user.None? then
      ToLogin(if redirectTo.Some? then redirectTo.value else DefaultLogin,
              if pathname.Some? && pathname.value != "" then pathname.value else "/")
    else if !IsAllowed(user, allowedRoles) then
      var home := RoleHome(user);
      if home.Some? then ToPage(home.value) else ToUnauthorizedLogin
    else Stay
  }

  /** What the guard renders for the current state. */
  function View(initialized: bool, user: Option<User>, allowedRoles: Option<seq<UserRole>>): (r: Render)
    ensures r == LoadingPlaceholder <==> !initialized
    ensures r == ChildrenShown <==> initialized && IsAllowed(user, allowedRoles)
  {
    if !initialized then LoadingPlaceholder
    else if user.None? || !IsAllowed(user, allowedRoles) then NothingShown
    else ChildrenShown
  }

  /** Before the auth state is known nothing navigates and only the placeholder shows. */
  lemma WaitsForInitialization(user: Option<User>, allowedRoles: Option<seq<UserRole>>,
                               redirectTo: Option<string>, pathname: Option<string>)
    ensures Effect(false, user, allowedRoles, redirectTo, pathname) == Stay
    ensures View(false, user, allowedRoles) == LoadingPlaceholder
  {
  }

  /** Without a session the guard goes to the login page, `redirectTo` when given and `/login`
      otherwise, and remembers where the visitor was, or `/`. */
  lemma SignedOutGoesToLogin(allowedRoles: Option<seq<UserRole>>, redirectTo: Option<string>, pathname: Option<string>)
    ensures var nav := Effect(true, None, allowedRoles, redirectTo, pathname);
      && nav.ToLogin?
      && (redirectTo.None? ==> nav.path == "/login")
      && (redirectTo.Some? ==> nav.path == redirectTo.value)
      && (pathname.None? || pathname == Some("") ==> nav.redirectParam == "/")
      && (pathname.Some? && pathname.value != "" ==> nav.redirectParam == pathname.value)
  {
  }

  /** A signed-in user whose role is not allowed goes to their role's home page, and the
      unauthorised-login branch is never taken. */
  lemma DisallowedGoesHome(initialized: bool, user: Option<User>, allowedRoles: Option<seq<UserRole>>,
                           redirectTo: Option<string>, pathname: Option<string>)
    ensures Effect(initialized, user, allowedRoles, redirectTo, pathname) != ToUnauthorizedLogin
    ensures initialized && user.Some? && !IsAllowed(user, allowedRoles) ==>
      Effect(initialized, user, allowedRoles, redirectTo, pathname) ==
        ToPage(if user.value.role == Admin then "/participants" else "/leader-dashboard")
  {
  }

  /** The content shows exactly when the state is known and the user is signed in and allowed,
      and then the guard does not navigate. */
  lemma ChildrenOnlyWhenAllowed(initialized: bool, user: Option<User>, allowedRoles: Option<seq<UserRole>>,
                                redirectTo: Option<string>, pathname: Option<string>)
    ensures View(initialized, user, allowedRoles) == ChildrenShown <==>
      initialized && user.Some? && IsAllowed(user, allowedRoles)
    ensures View(initialized, user, allowedRoles) == ChildrenShown ==>
      Effect(initialized, user, allowedRoles, redirectTo, pathname) == Stay
    ensures initialized && Effect(initialized, user, allowedRoles, redirectTo, pathname) == Stay ==>
      View(initialized, user, allowedRoles) == ChildrenShown
  {
  }
}
