/**
 * The login form: its schema and the mock credential check of its submit handler. The auth
 * store's `login` and the toasts are effects, returned here as the outcome of a submission.
 */
module LoginForm {
  import opened Wrappers
  import opened Validation
  import opened AuthTypes

  const EmailInvalid := "Correo electrónico inválido"
  const PasswordTooShort := "La contraseña debe tener al menos 6 caracteres"
  const MinPasswordLength := 6

  const MockEmail := "admin@example.com"
  const MockPassword := "password123"

  const SuccessMessage := "Inicio de sesión exitoso"
  const RefusedMessage := "Credenciales inválidas"

  const DefaultRememberMe := false

  /** The form's values; the "remember me" checkbox always gives a boolean. */
  datatype LoginFormInput = LoginFormInput(email: string, password: string, rememberMe: bool)

  datatype ToastKind = SuccessToast | ErrorToast
  datatype Toast = Toast(message: string, kind: ToastKind)

  datatype LoginOutcome =
    | NotSubmitted(issues: seq<Issue>)   // the schema refused the form
    | LoggedIn(user: User, toast: Toast) // `login(mockUser)` was called
    | Refused(toast: Toast)              // the credentials did not match; `login` was not called

  /** `loginSchema`; `isEmail` is zod's address pattern. */
  function LoginIssues(f: LoginFormInput, isEmail: string -> bool): seq<Issue>
  {
    Email("email", f.email, isEmail, EmailInvalid) + StringMin("password", f.password, MinPasswordLength, PasswordTooShort)
  }

  function ParseLogin(f: LoginFormInput, isEmail: string -> bool): Parsed<LoginCredentials>
  {
    var issues := LoginIssues(f, isEmail);
    if issues == [] then Ok(LoginCredentials(f.email, f.password, Some(f.rememberMe))) else Invalid(issues)
  }

  /** The user `onSubmit` signs in. */
  function MockUser(email: string): User
  {
    User("1", email, "Admin", "User", Admin, true, "Administration", "System Administrator", None)
  }

  /** `handleSubmit(onSubmit)`: the schema, then the comparison with the one known account. */
  function SubmitLogin(f: LoginFormInput, isEmail: string -> bool): LoginOutcome
  {
    match ParseLogin(f, isEmail)
    case Invalid(issues) => NotSubmitted(issues)
    case Ok(data) =>
      if data.email == MockEmail && data.password == MockPassword then
        LoggedIn(MockUser(data.email), Toast(SuccessMessage, SuccessToast))
      else Refused(Toast(RefusedMessage, ErrorToast))
  }

  /**
   * The schema accepts exactly a well-formed email with a password of six characters or more;
   * a shorter password is reported under `password`.
   */
  lemma LoginSchemaSpec(f: LoginFormInput, isEmail: string -> bool)
    ensures ParseLogin(f, isEmail).Ok? <==> isEmail(f.email) && |f.password| >= MinPasswordLength
    ensures |f.password| < MinPasswordLength ==>
      FirstError(LoginIssues(f, isEmail), "password") == Some(TooShort(MinPasswordLength, PasswordTooShort))
  {
    FirstErrorAppend(Email("email", f.email, isEmail, EmailInvalid),
                     StringMin("password", f.password, MinPasswordLength, PasswordTooShort), "password");
  }

  /**
   * A submission signs in exactly when the form passes the schema and carries the mock
   * account's email and password; the user is then user "1", an administrator, with the
   * email typed in. A well-formed form with other credentials only raises the error toast.
   */
  lemma SubmitLoginSpec(f: LoginFormInput, isEmail: string -> bool)
    ensures SubmitLogin(f, isEmail).LoggedIn? <==>
      isEmail(f.email) && f.email == MockEmail && f.password == MockPassword
    ensures SubmitLogin(f, isEmail).LoggedIn? ==>
      var u := SubmitLogin(f, isEmail).user;
      u.id == "1" && u.role == Admin && u.email == f.email && u.isActive
      && SubmitLogin(f, isEmail).toast == Toast(SuccessMessage, SuccessToast)
    ensures SubmitLogin(f, isEmail).Refused? <==>
      isEmail(f.email) && |f.password| >= MinPasswordLength && (f.email != MockEmail || f.password != MockPassword)
    ensures SubmitLogin(f, isEmail).Refused? ==> SubmitLogin(f, isEmail).toast == Toast(RefusedMessage, ErrorToast)
  {
    LoginSchemaSpec(f, isEmail);
    if f.password == MockPassword {
      assert |f.password| == 11;
    }
  }

  /** The "remember me" box starts unticked and its value reaches `onSubmit`. */
  lemma RememberMeDefault(email: string, password: string, isEmail: string -> bool)
    requires ParseLogin(LoginFormInput(email, password, DefaultRememberMe), isEmail).Ok?
    ensures ParseLogin(LoginFormInput(email, password, DefaultRememberMe), isEmail).data.rememberMe == Some(false)
  {
  }
}
