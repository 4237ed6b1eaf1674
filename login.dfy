/** The login screen: the empty-field check and the choice of the message
    shown when signing in fails. */
module Login {
  import opened Common

  /** What a failed `login(email, password)` reports: the server's
      `response.data.message`, the error's own `message` and `code`, and
      whether a response arrived at all. */
  datatype LoginError = LoginError(
    serverMessage: Option<string>,
    message: Option<string>,
    code: Option<string>,
    hasResponse: bool)

  const TimeoutMessage: string := "Request timeout. Please check your connection and try again."
  const CannotConnect: string := "Cannot connect"
  const CannotConnectMessage: string :=
    CannotConnect + " to server. Please check:\n• Backend is running\n• Correct API URL\n• Same WiFi network"
  const LoginFailedMessage: string := "Login failed"

  /** A present, non-empty string. */
  predicate Truthy(s: Option<string>) {
    s.Some? && s.value != ""
  }

  /** The `else if` chain that picks the toast's second line: each message
      applies only when every earlier test failed. */
  function LoginErrorMessage(e: LoginError): (r: string)
    ensures Truthy(e.serverMessage) ==> r == e.serverMessage.value
    ensures !Truthy(e.serverMessage) && ConnectMessage(e) ==> r == e.message.value
    ensures !Truthy(e.serverMessage) && !ConnectMessage(e) && e.code == Some("ECONNABORTED") ==>
              r == TimeoutMessage
    ensures !Truthy(e.serverMessage) && !ConnectMessage(e) && e.code != Some("ECONNABORTED") &&
            (e.message == Some("Network Error") || !e.hasResponse) ==>
              r == CannotConnectMessage
    ensures !Truthy(e.serverMessage) && !ConnectMessage(e) && e.code != Some("ECONNABORTED") &&
            e.message != Some("Network Error") && e.hasResponse ==>
              r == LoginFailedMessage
  {
    if Truthy(e.serverMessage) then e.serverMessage.value
    else if ConnectMessage(e) then e.message.value
    else if e.code == Some("ECONNABORTED") then TimeoutMessage
    else if e.message == Some("Network Error") || !e.hasResponse then CannotConnectMessage
    else LoginFailedMessage
  }

  /** The error's own message mentions `CannotConnect`. */
  predicate ConnectMessage(e: LoginError) {
    Truthy(e.message) && Contains(e.message.value, CannotConnect)
  }

  /** Without a server message, a request that got no response never ends
      in the generic "Login failed": it explains the connection problem. */
  lemma NoResponseIsExplained(e: LoginError)
    requires !Truthy(e.serverMessage) && !e.hasResponse
    ensures LoginErrorMessage(e) != LoginFailedMessage
    ensures Contains(LoginErrorMessage(e), CannotConnect) || LoginErrorMessage(e) == TimeoutMessage
  {
    var r := LoginErrorMessage(e);
    if r == CannotConnectMessage {
      assert r[..|CannotConnect|] == CannotConnect;
      assert OccursAt(r, CannotConnect, 0);
    }
    assert !Contains(LoginFailedMessage, CannotConnect);
  }

  /** What `handleLogin()` leads to. */
  datatype LoginOutcome = FillAllFields | LoggedIn | LoginFailed(text: string)

  /** `handleLogin()`: an empty field stops before `login` is called;
      otherwise the call's result, `None` for success. */
  function HandleLogin(email: string, password: string, result: Option<LoginError>): (r: LoginOutcome)
    ensures r == FillAllFields <==> email == "" || password == ""
    ensures r == LoggedIn <==> email != "" && password != "" && result.None?
    ensures r.LoginFailed? ==> result.Some? && r.text == LoginErrorMessage(result.value)
  {
    if email == "" || password == "" then FillAllFields
    else if result.None? then LoggedIn
    else LoginFailed(LoginErrorMessage(result.value))
  }
}
