/** The login screen's `handleLogin` (app/screens/LoginScreen.tsx). The
    handler is split at its `await`: `Press` runs up to the service call,
    `Settle` runs from the settled promise to the end of `finally`. The
    button is disabled while `loading`, so a press during a call in flight
    does nothing. Time is the integer clock of module Clock. */
module LoginScreen {
  import opened Api
  import opened LoginModel
  import Auth
  import LegacyAuth
  import Session
  import Clock

  const EMPTY_FIELDS := "Vui lòng nhập đầy đủ email và mật khẩu"
  const LOGIN_OK := "Đăng nhập thành công"
  const SCREEN_LOGIN_FAILED := "Đăng nhập thất bại"
  const SCREEN_NETWORK_ERROR := "Lỗi mạng. Vui lòng thử lại."
  /** Milliseconds before the finally block's timer clears the message. */
  const MESSAGE_DWELL := 3000

  /** `messageType`: `'success' | 'error' | ''`. */
  datatype MessageType = NoType | Success | Error

  /** What the try/catch shows for a settled service call, and the
      `(accessToken, role)` it hands to `saveToken`, if any. */
  datatype Verdict = Verdict(message: string, messageType: MessageType, save: Option<(string, string)>)

  /** The branches of the try/catch after `await loginService(...)`. */
  function Judge(call: Call): (v: Verdict)
    // success exactly when the result says so and carries data
    ensures v.messageType == Success <==> call.Returned? && call.result.success && call.result.data.Some?
    ensures v.messageType != NoType
    ensures v.save.Some? <==> v.messageType == Success
    ensures v.messageType == Success ==>
              v.message == LOGIN_OK && v.save == Some((call.result.data.value.accessToken, call.result.data.value.role))
    // a refusal shows the service's message, or 'Đăng nhập thất bại'
    ensures call.Returned? && v.messageType == Error ==> v.message == OrElse(call.result.message, SCREEN_LOGIN_FAILED)
    // a rejected promise shows the network message
    ensures call.Threw? ==> v == Verdict(SCREEN_NETWORK_ERROR, Error, None)
  {
    match call
    case Returned(res) =>
      if res.success && res.data.Some? then
        Verdict(LOGIN_OK, Success, Some((res.data.value.accessToken, res.data.value.role)))
      else
        Verdict(OrElse(res.message, SCREEN_LOGIN_FAILED), Error, None)
    case Threw(_) => Verdict(SCREEN_NETWORK_ERROR, Error, None)
  }

  /** With the screen's own service, only an ORGANIZER credential is ever
      saved, the access token saved is the server's, and a refusal always
      shows the service's own message (the screen's fallback is never used). */
  lemma CurrentServiceOutcomes(resp: LoginResponse)
    ensures var v := Judge(Returned(Auth.Login(resp)));
            && (v.save.Some? ==> v.save.value.1 == Auth.ORGANIZER
                                 && v.save.value.0 == resp.result.value.accessToken)
            && (v.messageType == Error ==> Auth.Login(resp).message.Some? && v.message == Auth.Login(resp).message.value)
  {
  }

  /** With the older service, a transport failure reaches the catch and shows
      the network message, and a code-200 login of any role is saved. */
  lemma LegacyServiceOutcomes(resp: LoginResponse)
    ensures LegacyAuth.LegacyLogin(resp).Threw? ==> Judge(LegacyAuth.LegacyLogin(resp)).message == SCREEN_NETWORK_ERROR
    ensures IsCode200(resp) && resp.result.Some? ==>
              Judge(LegacyAuth.LegacyLogin(resp)).save == Some((resp.result.value.accessToken, resp.result.value.roleName))
  {
  }

  /** The screen's state. */
  class LoginForm {
    var email: string
    var password: string
    var loading: bool
    var message: string
    var messageType: MessageType
    /** Every `(userName, password)` the service has been called with. */
    var calls: seq<(string, string)>
    /** Deadlines of the pending message-clearing timers. */
    var clearTimers: seq<int>
    var now: int
    /** The `AuthProvider` whose `login` is `saveToken`. */
    const session: Session.AuthProvider

    ghost predicate Valid()
      reads this, session
    {
      && session.Valid()
      && Clock.InWindow(clearTimers, now, MESSAGE_DWELL)
      && (loading ==> |calls| > 0)
    }

    constructor (session: Session.AuthProvider, now: int)
      requires session.Valid()
      ensures Valid()
      ensures this.session == session && this.now == now
      ensures email == "" && password == "" && !loading && message == "" && messageType == NoType
      ensures calls == [] && clearTimers == []
    {
      this.session := session;
      this.now := now;
      email, password := "", "";
      loading := false;
      message, messageType := "", NoType;
      calls, clearTimers := [], [];
    }

    /** The two text inputs' `onChangeText`. */
    method Edit(newEmail: string, newPassword: string)
      requires Valid()
      modifies this
      ensures Valid()
      ensures email == newEmail && password == newPassword
      ensures loading == old(loading) && message == old(message) && messageType == old(messageType)
      ensures calls == old(calls) && clearTimers == old(clearTimers) && now == old(now)
    {
      email, password := newEmail, newPassword;
    }

    /** A tap on the login button: `handleLogin` up to the await, or nothing
        while the button is disabled. */
    method Press()
      requires Valid()
      modifies this
      ensures Valid()
      ensures old(loading) ==> unchanged(this)
      // the guard: a message, no call, nothing else
      ensures !old(loading) && (email == "" || password == "") ==>
                && message == EMPTY_FIELDS && messageType == Error
                && !loading && calls == old(calls)
      // the call: once, with the form's fields
      ensures !old(loading) && email != "" && password != "" ==>
                && loading && message == "" && messageType == NoType
                && calls == old(calls) + [(email, password)]
      ensures email == old(email) && password == old(password)
      ensures clearTimers == old(clearTimers) && now == old(now)
    {
      if loading {
        return;
      }
      if email == "" || password == "" {
        message := EMPTY_FIELDS;
        messageType := Error;
        return;
      }
      loading := true;
      message := "";
      messageType := NoType;
      calls := calls + [(email, password)];
    }

    /** The rest of `handleLogin` once the service call has settled with
        `call`: the try/catch, `saveToken` on success, then `finally`. */
    method Settle(call: Call)
      requires Valid() && loading
      modifies this, session
      ensures Valid()
      ensures var v := Judge(call);
              && message == v.message && messageType == v.messageType
              && (v.save.Some? ==> session.State() == Session.LoggedIn(old(session.State()), v.save.value.0, v.save.value.1))
              && (v.save.None? ==> session.State() == old(session.State()))
      ensures !loading
      ensures clearTimers == old(clearTimers) + [now + MESSAGE_DWELL]
      ensures calls == old(calls) && email == old(email) && password == old(password) && now == old(now)
    {
      var v := Judge(call);
      message := v.message;
      messageType := v.messageType;
      if v.save.Some? {
        session.Login(v.save.value.0, v.save.value.1);
      }
      loading := false;
      clearTimers := clearTimers + [now + MESSAGE_DWELL];
    }

    /** The clock reaches `t`; a due clearing timer empties the message. */
    method Tick(t: int)
      requires Valid() && now <= t
      modifies this
      ensures Valid()
      ensures now == t && clearTimers == Clock.Pending(old(clearTimers), t)
      ensures Clock.AnyDue(old(clearTimers), t) ==> message == "" && messageType == NoType
      ensures !Clock.AnyDue(old(clearTimers), t) ==> message == old(message) && messageType == old(messageType)
      ensures loading == old(loading) && calls == old(calls) && email == old(email) && password == old(password)
    {
      if Clock.AnyDue(clearTimers, t) {
        message := "";
        messageType := NoType;
      }
      Clock.TickKeepsWindow(clearTimers, now, t, MESSAGE_DWELL);
      clearTimers := Clock.Pending(clearTimers, t);
      now := t;
    }
  }
}
