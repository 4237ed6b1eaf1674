/** The registration screen's checks before `register(name, email, password)`. */
module Register {
  import opened Common
  import opened Catalog

  /** The shortest accepted password. */
  const MinPasswordLength: nat := 6

  /** Why `handleRegister()` refuses. */
  datatype RegisterError = FillAllFields | PasswordsDoNotMatch | PasswordTooShort

  function ErrorMessage(e: RegisterError): string {
    match e
    case FillAllFields => "Please fill all fields"
    case PasswordsDoNotMatch => "Passwords do not match"
    case PasswordTooShort => "Password must be at least 6 characters"
  }

  /** The checks of `handleRegister()`, in their order: only the first
      failing one is reported. */
  function RegisterGuard(name: string, email: string, password: string, confirmPassword: string)
    : (r: Option<RegisterError>)
    ensures r == Some(FillAllFields) <==> name == "" || email == "" || password == "" || confirmPassword == ""
    ensures r == Some(PasswordsDoNotMatch) <==>
              name != "" && email != "" && password != "" && confirmPassword != "" && password != confirmPassword
    ensures r == Some(PasswordTooShort) <==>
              name != "" && email != "" && password == confirmPassword && 0 < |password| < MinPasswordLength
    // registering needs every field, matching passwords and a long enough one
    ensures r.None? <==>
              name != "" && email != "" && password == confirmPassword && |password| >= MinPasswordLength
  {
    if name == "" || email == "" || password == "" || confirmPassword == "" then Some(FillAllFields)
    else if password != confirmPassword then Some(PasswordsDoNotMatch)
    else if |password| < MinPasswordLength then Some(PasswordTooShort)
    else None
  }

  /** What `handleRegister()` leads to. */
  datatype RegisterOutcome =
    | Refused(error: RegisterError)
    | Registered(name: string, email: string, password: string)
    | NotRegistered(name: string, email: string, password: string, message: string)

  /** `handleRegister()`: the checks, then `register(name, email, password)`,
      whose failure shows the server's message or "Registration failed". */
  function HandleRegister(name: string, email: string, password: string, confirmPassword: string,
                          result: ApiResult): (r: RegisterOutcome)
    ensures RegisterGuard(name, email, password, confirmPassword).Some? <==> r.Refused?
    ensures r.Registered? ==> result.Succeeded? && r == Registered(name, email, password)
    ensures r.NotRegistered? ==>
              result.Failed? && r.message == MessageOr(result.serverMessage, "Registration failed")
    ensures !r.Refused? ==> |password| >= MinPasswordLength && password == confirmPassword
  {
    match RegisterGuard(name, email, password, confirmPassword)
    case Some(e) => Refused(e)
    case None =>
      match result
      case Succeeded => Registered(name, email, password)
      case Failed(m) => NotRegistered(name, email, password, MessageOr(m, "Registration failed"))
  }
}
