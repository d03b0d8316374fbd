/**
 * The route guard wrapped around protected pages: from the session's
 * authentication flag, its user and the route's allowed roles it decides
 * whether the page renders or the browser is redirected.
 */
module RouteGuard {
  import opened JsValues
  import opened Entities

  const LoginPath: string := "/login"
  const ProviderDashboardPath: string := "/provider/dashboard"
  const PatientDashboardPath: string := "/patient/dashboard"

  /** What the guard returns: the protected children, or a `<Navigate to=...>` element. */
  datatype Decision = RenderChildren | Navigate(to: string)

  /**
   * `allowedRoles.includes(user.role)`: a missing role is never included,
   * since the lists hold role names only.
   */
  predicate RoleAllowed(allowedRoles: seq<string>, role: Option<string>)
  {
    role.Some? && role.value in allowedRoles
  }

  /** The dashboard a user is sent to when a route refuses their role. */
  function DashboardFor(role: Option<string>): string
  {
    if role == Some("provider") then ProviderDashboardPath else PatientDashboardPath
  }

  /**
   * The guard. `allowedRoles` is None when the route declares no
   * restriction (`undefined`); any array, even an empty one, is truthy and
   * therefore restricts. The login page is the answer exactly for a session
   * without the flag or without a user; every redirect goes to one of the
   * three pages.
   */
  function Decide(isAuthenticated: bool, user: UserValue, allowedRoles: Option<seq<string>>): (r: Decision)
    ensures r == Navigate(LoginPath) <==> !isAuthenticated || !HasUser(user)
    ensures r.Navigate? ==> r.to in {LoginPath, ProviderDashboardPath, PatientDashboardPath}
  {
    if !isAuthenticated || !HasUser(user) then
      Navigate(LoginPath)
    else if allowedRoles.Some? && !RoleAllowed(allowedRoles.value, user.user.role) then
      Navigate(DashboardFor(user.user.role))
    else
      RenderChildren
  }

  /** Without authentication or without a user object, the guard always sends the browser to the login page. */
  lemma UnauthenticatedGoesToLogin(isAuthenticated: bool, user: UserValue, allowedRoles: Option<seq<string>>)
    requires !isAuthenticated || !HasUser(user)
    ensures Decide(isAuthenticated, user, allowedRoles) == Navigate(LoginPath)
    ensures Decide(isAuthenticated, user, allowedRoles) != RenderChildren
  {
  }

  /** A route without a role restriction renders for every authenticated user. */
  lemma UnrestrictedRendersChildren(user: UserValue)
    requires HasUser(user)
    ensures Decide(true, user, None) == RenderChildren
  {
  }

  /** A user whose role is listed gets the children. */
  lemma AllowedRoleRendersChildren(user: UserValue, allowedRoles: seq<string>)
    requires HasUser(user) && RoleAllowed(allowedRoles, user.user.role)
    ensures Decide(true, user, Some(allowedRoles)) == RenderChildren
  {
  }

  /** A refused provider is sent to the provider dashboard, never to the patient dashboard. */
  lemma RefusedProviderGoesToProviderDashboard(user: UserValue, allowedRoles: seq<string>)
    requires HasUser(user) && user.user.role == Some("provider")
    requires "provider" !in allowedRoles
    ensures Decide(true, user, Some(allowedRoles)) == Navigate(ProviderDashboardPath)
  {
  }

  /** A refused user with any other role, or none, is sent to the patient dashboard. */
  lemma RefusedOtherRoleGoesToPatientDashboard(user: UserValue, allowedRoles: seq<string>)
    requires HasUser(user) && user.user.role != Some("provider")
    requires !RoleAllowed(allowedRoles, user.user.role)
    ensures Decide(true, user, Some(allowedRoles)) == Navigate(PatientDashboardPath)
  {
  }

  /** An empty role list is still a restriction: nobody gets the children, everybody goes to a dashboard. */
  lemma EmptyRoleListRestricts(user: UserValue)
    requires HasUser(user)
    ensures Decide(true, user, Some([])) == Navigate(DashboardFor(user.user.role))
    ensures Decide(true, user, Some([])) != RenderChildren
  {
  }

  /** The children render exactly for an authorised user. */
  lemma RendersExactlyWhenAuthorised(isAuthenticated: bool, user: UserValue, allowedRoles: Option<seq<string>>)
    ensures Decide(isAuthenticated, user, allowedRoles) == RenderChildren <==>
            isAuthenticated && HasUser(user) &&
            (allowedRoles.None? || RoleAllowed(allowedRoles.value, user.user.role))
  {
  }

  /**
   * The redirect lands: a refused provider or patient is sent to the dashboard
   * whose route admits their own role, where the guard renders.
   */
  lemma DashboardRedirectSettles(user: UserValue, allowedRoles: seq<string>, dashboardRoles: seq<string>)
    requires HasUser(user) && user.user.role in {Some("provider"), Some("patient")}
    requires Decide(true, user, Some(allowedRoles)) != RenderChildren
    requires user.user.role.value in dashboardRoles
    ensures Decide(true, user, Some(allowedRoles)) == Navigate(DashboardFor(user.user.role))
    ensures Decide(true, user, Some(dashboardRoles)) == RenderChildren
  {
  }

  /**
   * A user whose role is neither listed nor "provider" is sent to the
   * patient dashboard whatever the route's list says; if that dashboard
   * itself refuses the role, the guard sends the user to the same place again.
   */
  lemma UnlistedRoleRedirectRepeats(user: UserValue, allowedRoles: seq<string>, dashboardRoles: seq<string>)
    requires HasUser(user) && user.user.role != Some("provider")
    requires !RoleAllowed(allowedRoles, user.user.role)
    requires !RoleAllowed(dashboardRoles, user.user.role)
    ensures Decide(true, user, Some(allowedRoles)) == Navigate(PatientDashboardPath)
    ensures Decide(true, user, Some(dashboardRoles)) == Navigate(PatientDashboardPath)
  {
  }
}
