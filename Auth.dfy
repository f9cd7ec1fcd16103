/** The login service used by the login screen (services/auth.ts): it sorts
    the decoded envelope into a result record, admits only the ORGANIZER
    role, and never lets a fault escape. */
module Auth {
  import opened Api
  import opened LoginModel

  const ORGANIZER := "ORGANIZER"
  const NO_PERMISSION := "Bạn không có quyền truy cập. Chỉ tài khoản ORGANIZER được phép đăng nhập."
  const CONNECT_FAILED := "Đã xảy ra lỗi khi kết nối đến máy chủ."
  const LOGIN_FAILED := "Login failed"

  /** The `data` record built from a login payload; `roleName` becomes `role`. */
  function ToData(p: LoginPayload): LoginData
  {
    LoginData(p.accessToken, p.refreshToken, p.roleName, p.status)
  }

  /** `login(userName, password)` once the fetch and `response.json()` are
      folded into `resp`. A code-200 envelope without a `result` makes the
      destructuring throw, which the catch turns into the code-500 record,
      exactly like a failed fetch or an undecodable body. */
  function Login(resp: LoginResponse): (r: LoginResult)
    // success exactly for an ORGANIZER account under code 200, with the
    // payload passed through unchanged
    ensures r.success <==> IsCode200(resp) && resp.result.Some? && resp.result.value.roleName == ORGANIZER
    ensures r.success ==> r.data == Some(ToData(resp.result.value)) && r.message == resp.message && r.code == None
    ensures r.success ==> r.data.value.role == ORGANIZER && r.data.value.accessToken == resp.result.value.accessToken
    // any other role under code 200 is refused with 403
    ensures IsCode200(resp) && resp.result.Some? && resp.result.value.roleName != ORGANIZER ==>
              r == LoginResult(false, None, Some(NO_PERMISSION), Some(403))
    // a non-200 envelope keeps its code and its message, or 'Login failed'
    ensures resp.Envelope? && resp.code != Some(200) ==>
              r == LoginResult(false, None, Some(OrElse(resp.message, LOGIN_FAILED)), resp.code)
    // every thrown failure becomes the code-500 record
    ensures resp.NetErr? || resp.NotJson? || (IsCode200(resp) && resp.result.None?) ==>
              r == LoginResult(false, None, Some(CONNECT_FAILED), Some(500))
  {
    match resp
    case NetErr => LoginResult(false, None, Some(CONNECT_FAILED), Some(500))
    case NotJson => LoginResult(false, None, Some(CONNECT_FAILED), Some(500))
    case Envelope(code, result, message) =>
      if code == Some(200) then
        match result
        case None => LoginResult(false, None, Some(CONNECT_FAILED), Some(500))
        case Some(p) =>
          if p.roleName == ORGANIZER then
            LoginResult(true, Some(ToData(p)), message, None)
          else
            LoginResult(false, None, Some(NO_PERMISSION), Some(403))
      else
        LoginResult(false, None, Some(OrElse(message, LOGIN_FAILED)), code)
  }

  /** A refusal always explains itself: it has no data, a non-empty message,
      and a code unless the server's envelope had none. */
  lemma FailureIsExplained(resp: LoginResponse)
    ensures var r := Login(resp);
            !r.success ==> && r.data == None
                           && r.message.Some? && r.message.value != ""
                           && (r.code.None? <==> resp.Envelope? && resp.code.None?)
  {
  }
}
