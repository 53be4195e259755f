/** The navigation bar: where its dashboard link points and what its
    logout button does. */
module Navbar {
  import opened Common
  import opened Domain
  import opened App

  /** `getDashboardLink`: the login page for a visitor, otherwise the home
      of the user's role, with every type other than admin and counselor
      sent to the student dashboard. */
  function DashboardLink(user: Option<User>): (r: string)
    ensures user.None? ==> r == LoginPath
    ensures user.Some? && user.value.userType == "admin" ==> r == AdminPath
    ensures user.Some? && user.value.userType == "counselor" ==> r == CounselorHome
    ensures user.Some? && user.value.userType != "admin" && user.value.userType != "counselor" ==> r == StudentHome
  {
    if user.None? then LoginPath else RoleHome(user.value.userType, StudentHome)
  }

  /** A signed-in student, counselor or admin following the link reaches
      their dashboard, which the route guard lets them into. */
  lemma LinkIsAdmitted(u: User, location: string)
    requires u.userType in {"student", "counselor", "admin"}
    ensures DashboardLink(Some(u)) != LoginPath
    ensures ProtectedRoute(false, Some(u), RouteRoles(DashboardLink(Some(u))), location) == Children
  {
    HomeAdmitsItsRole(u, location);
  }

  /** The link agrees with where the OAuth callback sends the same user. */
  lemma LinkMatchesCallback(hash: string, u: User)
    requires SessionId(hash).Some? && SessionId(hash).value != ""
    ensures DashboardLink(Some(u)) == CallbackTarget(hash, Some(u))
  {
  }

  /** `handleLogout`: the logout call completes, whatever the server said,
      and then the landing page is opened; the link then points to the
      login page. */
  method HandleLogout(auth: AuthProvider, ok: bool) returns (navigateTo: string)
    modifies auth, auth.storage
    ensures auth.user.None? && auth.storage.user == Absent && auth.storage.token.None?
    ensures auth.requests == old(auth.requests) + [LogoutPost]
    ensures navigateTo == "/"
    ensures DashboardLink(auth.user) == LoginPath
  {
    auth.Logout(ok);
    navigateTo := "/";
  }
}
