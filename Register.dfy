/** The registration page's submit: two guards in order, then a student
    account is created and the student dashboard opened. */
module Register {
  import opened Common
  import opened Domain
  import opened App
  import Login

  datatype RegisterForm = RegisterForm(email: string, password: string, firstName: string, lastName: string, phone: string)

  /** The shortest password the form accepts. */
  const MinPasswordLength: nat := 6

  const RegisterFailedText: string := "Registration failed"

  /** Why a submit is refused before any request. */
  datatype RegisterRefusal = MissingFields | ShortPassword

  /** The two guards of `handleSubmit` and the body `register` receives:
      the required fields are checked first, then the password's length;
      the phone is optional and the account is always a student's. */
  function RegisterRequest(f: RegisterForm): (r: Result<RegisterBody, RegisterRefusal>)
    ensures r == Err(MissingFields) <==> f.email == "" || f.password == "" || f.firstName == "" || f.lastName == ""
    ensures r == Err(ShortPassword) <==>
              f.email != "" && f.password != "" && f.firstName != "" && f.lastName != "" && |f.password| < MinPasswordLength
    ensures r.Ok? ==> |f.password| >= MinPasswordLength
    ensures r.Ok? ==> r.value.userType == "student"
    ensures r.Ok? ==> r.value.email == f.email && r.value.password == f.password && r.value.phone == f.phone
    ensures r.Ok? ==> r.value.firstName == f.firstName && r.value.lastName == f.lastName
  {
    if f.email == "" || f.password == "" || f.firstName == "" || f.lastName == "" then Err(MissingFields)
    else if |f.password| < MinPasswordLength then Err(ShortPassword)
    else Ok(RegisterBody(f.email, f.password, f.firstName, f.lastName, f.phone, "student"))
  }

  /** What a submit leads to. */
  datatype RegisterStep = Refused(reason: RegisterRefusal) | Navigate(path: string) | ShowError(text: string)

  /** `handleSubmit`, with the server's reply (the new user, or the
      server's detail on failure). */
  function RegisterSubmit(f: RegisterForm, reply: Result<User, Option<string>>): (r: RegisterStep)
    ensures r.Refused? <==> RegisterRequest(f).Err?
    ensures r.Refused? ==> r.reason == RegisterRequest(f).error
    ensures r.Navigate? <==> RegisterRequest(f).Ok? && reply.Ok?
    ensures r.Navigate? ==> r.path == StudentHome
    ensures r.ShowError? ==> reply.Err? && r.text == Login.DetailOr(reply.error, RegisterFailedText) && r.text != ""
  {
    var request := RegisterRequest(f);
    if request.Err? then Refused(request.error)
    else if reply.Ok? then Navigate(StudentHome)
    else ShowError(Login.DetailOr(reply.error, RegisterFailedText))
  }

  /** A password of exactly six characters is accepted. */
  lemma SixCharactersSuffice(f: RegisterForm)
    requires f.email != "" && f.firstName != "" && f.lastName != "" && |f.password| == MinPasswordLength
    ensures RegisterRequest(f).Ok?
  {
  }

  /** A form missing a field and with a short password is refused for the
      missing field: that guard runs first. */
  lemma MissingFieldsReportedFirst(f: RegisterForm)
    requires f.firstName == "" && |f.password| < MinPasswordLength
    ensures RegisterRequest(f) == Err(MissingFields)
  {
  }

  /** A new account, being a student's, is let into the student dashboard
      the submit opens. */
  lemma NewAccountIsAdmitted(f: RegisterForm, u: User, location: string)
    requires RegisterRequest(f).Ok? && u.userType == RegisterRequest(f).value.userType
    ensures RegisterSubmit(f, Ok(u)) == Navigate(StudentHome)
    ensures ProtectedRoute(false, Some(u), RouteRoles(StudentHome), location) == Children
  {
  }
}
