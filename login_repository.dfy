/** LoginRepository: one login call, normalised to a single LoginResultModel. */
module LoginRepository {
  import opened Wrappers
  import opened Models
  import opened ApiResponse
  import opened Network

  /**
   * The four-case `when` over which of body and status code came back. Login
   * is granted only when a body says so; the status code is the server's when
   * there is one, else sentinel 1 when only a body came back, else sentinel 0.
   * The fallback branch (sentinel 2) cannot be reached.
   */
  function LoginResult(body: Option<LoginApiResponse>, code: Option<int>): (r: LoginResultModel)
    ensures r.isLoginSuccessful <==> body.Some? && body.value.apiResponseBody
    ensures code.Some? ==> r.loginStatusCode == code.value
    ensures code.None? ==> r.loginStatusCode == (if body.Some? then 1 else 0)
  {
    if body.Some? && code.Some? then LoginToDomainModel(body.value, code.value)
    else if body.None? && code.Some? then LoginResultModel(false, code.value)
    else if body.Some? && code.None? then LoginToDomainModel(body.value, 1)
    else if body.None? && code.None? then LoginResultModel(false, 0)
    else assert false; LoginResultModel(false, 2)
  }

  /**
   * `fetchLoginData(username, password)`: posts exactly these credentials and
   * emits one result, or nothing when the call throws (the `catch` swallows it).
   */
  function FetchLoginData(client: LoginCredentials -> ApiCall<LoginApiResponse>,
                          username: string, password: string): (s: Option<LoginResultModel>)
    ensures s.None? <==> client(LoginCredentials(username, password)).Threw?
    ensures s.Some? ==> var call := client(LoginCredentials(username, password));
                        s.value == LoginResult(call.body, call.code)
  {
    match client(LoginCredentials(username, password))
    case Threw => None
    case Returned(body, code) => Some(LoginResult(body, code))
  }
}
