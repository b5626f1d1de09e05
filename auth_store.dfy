/**
 * The client-side authentication state of lib/store/auth.ts: the signed-in
 * user, the flag that says the auth state has been determined, and the role
 * and authentication flags derived from the user.
 */
module AuthStore {
  import opened Wrappers

  datatype UserRole = Admin | Leader

  datatype User = User(id: string, email: string, role: UserRole)

  class AuthState {
    var user: Option<User>
    var initialized: bool

    /** Nobody is signed in and the auth state is not yet known. */
    constructor()
      ensures user == None && !initialized
    {
      user := None;
      initialized := false;
    }

    /** `userRoleAtom`: the user's role, or nothing when nobody is signed in. */
    function Role(): (r: Option<UserRole>)
      reads this
      ensures r.None? <==> user.None?
      ensures user.Some? ==> r == Some(user.value.role)
    {
      if user.Some? then Some(user.value.role) else None
    }

    /** `isAuthenticatedAtom`. */
    function IsAuthenticated(): (b: bool)
      reads this
      ensures b <==> user.Some?
      ensures b <==> Role().Some?
    {
      user != None
    }

    method SetUser(u: Option<User>)
      modifies this
      ensures user == u && initialized == old(initialized)
      ensures u.None? ==> Role().None? && !IsAuthenticated()
      ensures u.Some? ==> Role() == Some(u.value.role) && IsAuthenticated()
    {
      user := u;
    }

    method SetInitialized(b: bool)
      modifies this
      ensures initialized == b && user == old(user)
    {
      initialized := b;
    }
  }

  /** Signing in and then out leaves no role and no authentication, whatever the user was. */
  method SignInThenOut(s: AuthState, u: User)
    modifies s
    ensures s.user.None? && s.Role().None? && !s.IsAuthenticated()
    ensures s.initialized == old(s.initialized)
  {
    s.SetUser(Some(u));
    assert s.Role() == Some(u.role);
    s.SetUser(None);
  }
}
