/**
 * The route guard: given the provider's `isLoading` and `user` and the route's
 * optional `roles`, decide whether to show a loading screen, redirect to the
 * login page, redirect to the dashboard, or render the protected children.
 */
module ProtectedRoute {
  import opened Wrappers
  import opened Types
  import opened AuthContext

  datatype Decision = Loading | RedirectToLogin | RedirectToDashboard | ShowChildren

  /**
   * The chain of early returns. `roles` is `None` when the prop is absent; an
   * empty list is still present (an empty array is truthy).
   */
  function Decide(isLoading: bool, user: Option<User>, roles: Option<seq<Role>>): Decision {
    if isLoading then Loading
    else if user.None? then RedirectToLogin
    else if roles.Some? && user.value.role !in roles.value then RedirectToDashboard
    else ShowChildren
  }

  /** While loading, the guard shows the loading screen whatever the user and roles. */
  lemma LoadingComesFirst(user: Option<User>, roles: Option<seq<Role>>)
    ensures Decide(true, user, roles) == Loading
  {
  }

  /** Once loaded, no user means a redirect to the login page, whatever the roles. */
  lemma NoUserGoesToLogin(roles: Option<seq<Role>>)
    ensures Decide(false, None, roles) == RedirectToLogin
  {
  }

  /** A loaded, signed-in user is sent to the dashboard exactly when roles are given and exclude its role. */
  lemma DashboardExactlyWhenRoleExcluded(user: User, roles: Option<seq<Role>>)
    ensures Decide(false, Some(user), roles) == RedirectToDashboard <==> roles.Some? && user.role !in roles.value
  {
  }

  /** An empty roles list turns away every signed-in user. */
  lemma EmptyRolesRedirectEveryone(user: User)
    ensures Decide(false, Some(user), Some([])) == RedirectToDashboard
  {
  }

  /** The children are shown exactly to a loaded, signed-in user whose role is allowed (or when no roles are given). */
  lemma ShowsChildrenExactly(isLoading: bool, user: Option<User>, roles: Option<seq<Role>>)
    ensures Decide(isLoading, user, roles) == ShowChildren
        <==> !isLoading && user.Some? && (roles.None? || user.value.role in roles.value)
  {
  }

  /** On mount the guard shows the loading screen, and after loading it never does. */
  lemma GuardAroundLoad(stored: Option<string>, getUserById: string -> Outcome<Option<User>>, roles: Option<seq<Role>>)
    ensures var s := Initial(stored); Decide(s.isLoading, s.user, roles) == Loading
    ensures var s := AfterLoad(Initial(stored), getUserById); Decide(s.isLoading, s.user, roles) != Loading
  {
  }

  /** After logout from a loaded session, every protected route sends the visitor to the login page. */
  lemma GuardAfterLogout(s: Session, roles: Option<seq<Role>>)
    requires !s.isLoading
    ensures var t := AfterLogout(s); Decide(t.isLoading, t.user, roles) == RedirectToLogin
  {
  }

  /** After a successful login in a loaded session, a route without roles shows its children. */
  lemma GuardAfterLogin(s: Session, u: User)
    requires !s.isLoading
    ensures var t := AfterLogin(s, Returned(Some(u))).0; Decide(t.isLoading, t.user, None) == ShowChildren
  {
  }
}
