/** The older login service (app/services/auth.ts): the same envelope
    classification without a role check, and a transport or decode failure
    is rethrown as 'Network error' instead of being returned. */
module LegacyAuth {
  import opened Api
  import opened LoginModel
  import Auth

  const NETWORK_ERROR := "Network error"

  /** `login(userName, password)` of the older revision. Reading
      `data.result.accessToken` on a code-200 envelope without a `result`
      throws inside the try, and the catch rethrows it as 'Network error'. */
  function LegacyLogin(resp: LoginResponse): (c: Call)
    // the only escaping fault is 'Network error', for exactly the failures
    // the try block can raise
    ensures c.Threw? <==> resp.NetErr? || resp.NotJson? || (IsCode200(resp) && resp.result.None?)
    ensures c.Threw? ==> c.error == NETWORK_ERROR
    // code 200 succeeds for every role, with role = roleName
    ensures IsCode200(resp) && resp.result.Some? ==>
              c == Returned(LoginResult(true, Some(Auth.ToData(resp.result.value)), resp.message, None))
    // a non-200 envelope keeps its code and its message, or 'Login failed'
    ensures resp.Envelope? && resp.code != Some(200) ==>
              c == Returned(LoginResult(false, None, Some(OrElse(resp.message, Auth.LOGIN_FAILED)), resp.code))
  {
    match resp
    case NetErr => Threw(NETWORK_ERROR)
    case NotJson => Threw(NETWORK_ERROR)
    case Envelope(code, result, message) =>
      if code == Some(200) then
        match result
        case None => Threw(NETWORK_ERROR)
        case Some(p) => Returned(LoginResult(true, Some(Auth.ToData(p)), message, None))
      else
        Returned(LoginResult(false, None, Some(OrElse(message, Auth.LOGIN_FAILED)), code))
  }

  /** The two revisions return the same record on every decoded envelope
      except a code-200 login whose role is not ORGANIZER; for that one the
      older revision admits the account and the newer refuses it with 403. */
  lemma RevisionsCompared(resp: LoginResponse)
    requires resp.Envelope?
    ensures resp.code == Some(200) && resp.result.Some? && resp.result.value.roleName != Auth.ORGANIZER ==>
              LegacyLogin(resp).Returned? && LegacyLogin(resp).result.success
              && !Auth.Login(resp).success && Auth.Login(resp).code == Some(403)
    ensures resp.code != Some(200) || (resp.result.Some? && resp.result.value.roleName == Auth.ORGANIZER) ==>
              LegacyLogin(resp) == Returned(Auth.Login(resp))
  {
  }

  /** Where the older revision throws, the newer one returns its code-500
      record instead. */
  lemma ThrowBecomesCode500(resp: LoginResponse)
    requires LegacyLogin(resp).Threw?
    ensures Auth.Login(resp) == LoginResult(false, None, Some(Auth.CONNECT_FAILED), Some(500))
  {
  }
}
