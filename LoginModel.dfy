/** The records that both revisions of the login service exchange with the
    login screen. */
module LoginModel {
  import opened Api

  /** The `result` of a `/auth/login` envelope. */
  datatype LoginPayload = LoginPayload(accessToken: string, refreshToken: string, roleName: string, status: string)

  /** The `data` field of a successful login result. */
  datatype LoginData = LoginData(accessToken: string, refreshToken: string, role: string, status: string)

  /** The object literal a login service resolves to. */
  datatype LoginResult = LoginResult(success: bool, data: Option<LoginData>, message: Option<string>, code: Option<int>)

  /** A settled promise: what an awaited login call gives its caller. */
  datatype Call = Returned(result: LoginResult) | Threw(error: string)

  type LoginResponse = Response<LoginPayload>

  /** `data.code === 200` on a decoded envelope. */
  predicate IsCode200(resp: LoginResponse)
  {
    resp.Envelope? && resp.code == Some(200)
  }
}
