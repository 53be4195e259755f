/** The login page's submit: the empty-field guard, the redirect chosen by
    the user's role, and the error text. */
module Login {
  import opened Common
  import opened Domain
  import opened App
  import opened Navbar

  datatype LoginForm = LoginForm(email: string, password: string)

  /** `location.state?.from?.pathname`, or the student dashboard when it is
      missing or empty. */
  function From(fromPath: Option<string>): (r: string)
    ensures fromPath.Some? && fromPath.value != "" ==> r == fromPath.value
    ensures fromPath.None? || fromPath.value == "" ==> r == StudentHome
    ensures r != ""
  {
    if fromPath.Some? && fromPath.value != "" then fromPath.value else StudentHome
  }

  /** `detail || fallback`: the server's message when it sent a non-empty
      one. */
  function DetailOr(detail: Option<string>, fallback: string): (r: string)
    ensures detail.Some? && detail.value != "" ==> r == detail.value
    ensures detail.None? || detail.value == "" ==> r == fallback
  {
    if detail.Some? && detail.value != "" then detail.value else fallback
  }

  const LoginFailedText: string := "Invalid credentials"

  /** What a submit leads to. */
  datatype LoginStep = Incomplete | Navigate(path: string) | ShowError(text: string)

  /** `handleSubmit`, with the reply of `login` (the user, or the server's
      detail on failure): an empty field stops it before any request;
      admins and counselors go to their dashboards, everyone else to where
      they were going. */
  function LoginSubmit(form: LoginForm, fromPath: Option<string>, reply: Result<User, Option<string>>): (r: LoginStep)
    ensures r == Incomplete <==> form.email == "" || form.password == ""
    ensures r.Navigate? <==> form.email != "" && form.password != "" && reply.Ok?
    ensures r.Navigate? ==> r.path == RoleHome(reply.value.userType, From(fromPath))
    ensures r.ShowError? ==> reply.Err? && r.text == DetailOr(reply.error, LoginFailedText)
    ensures r.ShowError? ==> r.text != ""
  {
    if form.email == "" || form.password == "" then Incomplete
    else if reply.Ok? then Navigate(RoleHome(reply.value.userType, From(fromPath)))
    else ShowError(DetailOr(reply.error, LoginFailedText))
  }

  /** Signing in from the login page directly lands where the navigation
      bar's dashboard link points and where the OAuth callback would send
      the same user. */
  lemma DirectLoginLandsOnDashboard(form: LoginForm, u: User)
    requires form.email != "" && form.password != ""
    ensures LoginSubmit(form, None, Ok(u)) == Navigate(DashboardLink(Some(u)))
  {
  }

  /** A student or an unknown type returns to the page that sent them to
      login; admins and counselors do not. */
  lemma StudentsReturnWhereTheyWere(form: LoginForm, from: string, u: User)
    requires form.email != "" && form.password != "" && from != ""
    ensures LoginSubmit(form, Some(from), Ok(u)) == Navigate(from) <==>
              (u.userType != "admin" && u.userType != "counselor") || RoleHome(u.userType, from) == from
  {
  }

  /** A guarded page bounces a visitor to login remembering the page, and
      a student who then signs in is brought back to it and let in. */
  lemma GuardRoundTrip(path: string, form: LoginForm, u: User)
    requires path in {ApplyPath, StudentHome}
    requires form.email != "" && form.password != "" && u.userType == "student"
    ensures ProtectedRoute(false, None, RouteRoles(path), path) == ToLogin(path)
    ensures LoginSubmit(form, Some(ProtectedRoute(false, None, RouteRoles(path), path).from), Ok(u)) == Navigate(path)
    ensures ProtectedRoute(false, Some(u), RouteRoles(path), path) == Children
  {
  }
}
