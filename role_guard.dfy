/** The role guard: whether the current user may enter a route, given
    the route's list of required roles. */
module RoleGuard {
  import opened Common
  import opened Session
  import opened AuthStore

  /** `canActivate` returns true, or returns false after navigating to
      `target`. */
  datatype GuardResult = Allow | Deny(target: string)

  const LoginUrl := "/login"
  const DashboardUrl := "/dashboard"

  /** The route's roles restrict access: present and non-empty. */
  predicate Restricts(requiredRoles: Option<seq<string>>)
  {
    requiredRoles.Some? && |requiredRoles.value| > 0
  }

  /** The decision for `currentUser` (the session service's current user)
      and the route's `roles` data (absent when the route has none). */
  function CanActivate(currentUser: Option<User>, requiredRoles: Option<seq<string>>): (r: GuardResult)
    ensures r.Allow? <==>
              currentUser.Some? && (!Restricts(requiredRoles) || currentUser.value.role in requiredRoles.value)
    ensures r == Deny(LoginUrl) <==> currentUser.None?
    ensures r == Deny(DashboardUrl) <==>
              currentUser.Some? && Restricts(requiredRoles) && currentUser.value.role !in requiredRoles.value
    ensures r.Deny? ==> r.target == LoginUrl || r.target == DashboardUrl
  {
    if currentUser.None? then
      Deny(LoginUrl)
    else if Restricts(requiredRoles) then
      if currentUser.value.role in requiredRoles.value then Allow else Deny(DashboardUrl)
    else
      Allow
  }

  /** Adding roles to a restricting list never locks out a user that was
      admitted. */
  lemma MoreRolesAdmitMore(u: Option<User>, roles: seq<string>, extra: seq<string>)
    requires |roles| > 0 && CanActivate(u, Some(roles)).Allow?
    ensures CanActivate(u, Some(roles + extra)).Allow?
  {
    assert u.value.role in roles + extra;
  }

  /** A login whose token carries role "Doctor" authenticates the session
      with that role; the guard then admits the doctor where "Doctor" is
      required and sends them to the dashboard where only "Admin" is. */
  method DoctorLogin() returns (role: Option<string>, admitted: GuardResult, refused: GuardResult)
    ensures role == Some("Doctor")
    ensures admitted == Allow && refused == Deny(DashboardUrl)
  {
    var service := new AuthService(map[], (t: string) => Claims(Some(3), Some("doc1"), None, Some("Doctor")));
    var auth := new AuthState(service);
    var crashed := auth.Login(Success("header.payload.signature"));
    assert !crashed && auth.isAuthenticated;
    role := auth.role;
    var current := service.GetCurrentUser();
    admitted := CanActivate(current, Some(["Doctor", "Admin"]));
    refused := CanActivate(current, Some(["Admin"]));
  }

  /** A stored token that does not decode: the service's token check says
      the session is authenticated, yet there is no current user, so the
      role guard sends the navigation to the login page. */
  method StaleTokenSession() returns (authenticated: bool, current: Option<User>, verdict: GuardResult)
    ensures authenticated && current == None
    ensures verdict == Deny(LoginUrl)
  {
    var service := new AuthService(map[TokenKey := "not-a-jwt"], (t: string) => Malformed);
    authenticated := service.IsAuthenticated();
    current := service.GetCurrentUser();
    verdict := CanActivate(current, Some(["Doctor", "Admin"]));
  }
}
