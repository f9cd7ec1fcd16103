/** The check-in scanner's `handleBarCodeScanned` (app/screens/ScanQr.tsx).
    The handler is split at its `await`: `OnScan` runs up to the decrypt
    request, `Settle` from the settled response to the re-arm timer. The
    camera callback is attached only while `scanned` is false. Time is the
    integer clock of module Clock. */
module ScanQr {
  import opened Api
  import Clock

  const NO_TOKEN := "Không có token xác thực. Vui lòng đăng nhập lại."
  const DECODE_FAILED := "Không thể giải mã mã QR."
  const INVALID_DATA := "Dữ liệu trả về không hợp lệ."
  const NO_CONNECTION := "Không thể kết nối đến máy chủ. Vui lòng thử lại."
  /** Milliseconds from a settled request until scanning is re-armed. */
  const REARM_DELAY := 3000

  datatype TicketDetail = TicketDetail(ticketPurchaseId: int, ticketType: string, zoneName: string, seatName: string)

  /** The `result` of `/ticket-purchase/decrypt_qr_code`. */
  datatype TicketRecord = TicketRecord(eventName: string, fullName: string, orderCode: string, ticketDetails: seq<TicketDetail>)

  type DecryptResponse = Response<TicketRecord>

  /** A decrypt request: the JSON body's `qrCode` and the bearer token. */
  datatype DecryptRequest = DecryptRequest(qrCode: string, bearer: string)

  /** What a settled request puts on screen: the ticket modal, or the error
      modal with a reason. */
  datatype ScanOutcome = TicketShown(ticket: TicketRecord) | ErrorShown(reason: string)

  /** The scanner's phase, read off its flags: waiting for a code, waiting
      for the server, or waiting for the re-arm timer due at `until`. */
  datatype Phase = Idle | Verifying | Cooldown(until: int)

  /** `if (!token)`: an absent or empty token is falsy. */
  predicate HasToken(token: Option<string>)
  {
    token.Some? && token.value != ""
  }

  /** The try/catch around `fetch`, `response.text()` and `JSON.parse`. */
  function Classify(resp: DecryptResponse): (o: ScanOutcome)
    // the ticket modal exactly for code 200 with a result, showing that result
    ensures o.TicketShown? <==> resp.Envelope? && resp.code == Some(200) && resp.result.Some?
    ensures o.TicketShown? ==> o.ticket == resp.result.value
    // any other envelope shows the server's message, or the default
    ensures resp.Envelope? && o.ErrorShown? ==> o.reason == OrElse(resp.message, DECODE_FAILED)
    // an undecodable body and a transport failure have reasons of their own
    ensures resp.NotJson? ==> o == ErrorShown(INVALID_DATA)
    ensures resp.NetErr? ==> o == ErrorShown(NO_CONNECTION)
    ensures o.ErrorShown? ==> o.reason != ""
  {
    match resp
    case NetErr => ErrorShown(NO_CONNECTION)
    case NotJson => ErrorShown(INVALID_DATA)
    case Envelope(code, result, message) =>
      if code == Some(200) && result.Some? then TicketShown(result.value)
      else ErrorShown(OrElse(message, DECODE_FAILED))
  }

  /** The fixed reasons are pairwise distinct, so the operator can tell a
      missing token, a rejected code, a malformed body and a lost connection
      apart. */
  lemma ReasonsDistinct()
    ensures |{NO_TOKEN, DECODE_FAILED, INVALID_DATA, NO_CONNECTION}| == 4
  {
  }

  /** The screen's state. */
  class Scanner {
    var scanned: bool
    var loading: bool
    var modalVisible: bool
    var errorModalVisible: bool
    var ticketInfo: Option<TicketRecord>
    var errorMessage: string
    /** Every decrypt request issued, in order. */
    var requests: seq<DecryptRequest>
    /** Deadlines of the pending `setScanned(false)` timers. */
    var rearmTimers: seq<int>
    var now: int

    /** The flags only ever take the combinations of the three phases. */
    ghost predicate Valid()
      reads this
    {
      && Clock.InWindow(rearmTimers, now, REARM_DELAY)
      && (loading ==> scanned && rearmTimers == [])
      && (scanned && !loading ==> |rearmTimers| == 1)
      && (!scanned ==> !loading && rearmTimers == [])
    }

    function Phase(): Phase
      reads this
    {
      if !scanned then Idle
      else if loading then Verifying
      else if rearmTimers != [] then Cooldown(rearmTimers[0])
      else Idle
    }

    /** `onBarcodeScanned={scanned ? undefined : handleBarCodeScanned}`: the
        camera may deliver codes only while this holds. */
    function ScannerAttached(): (b: bool)
      reads this
      ensures Valid() ==> (b <==> Phase() == Idle)
    {
      !scanned
    }

    constructor (now: int)
      ensures Valid() && Phase() == Idle
      ensures this.now == now && !modalVisible && !errorModalVisible
      ensures ticketInfo == None && errorMessage == "" && requests == []
    {
      scanned, loading := false, false;
      modalVisible, errorModalVisible := false, false;
      ticketInfo, errorMessage := None, "";
      requests, rearmTimers := [], [];
      this.now := now;
    }

    /** A decoded QR string `data` reaches `handleBarCodeScanned` while the
        token from `useAuth()` is `token`. */
    method OnScan(data: string, token: Option<string>)
      requires Valid()
      modifies this
      ensures Valid()
      // dropped while a scan is being handled or cooling down
      ensures old(scanned) ==> unchanged(this)
      // no token: the error modal at once, no request, re-armed at once
      ensures !old(scanned) && !HasToken(token) ==>
                && errorMessage == NO_TOKEN && errorModalVisible && !scanned && !loading
                && requests == old(requests) && Phase() == Idle
                && modalVisible == old(modalVisible) && ticketInfo == old(ticketInfo)
      // a token: exactly one request, carrying the scanned data
      ensures !old(scanned) && HasToken(token) ==>
                && scanned && loading && Phase() == Verifying
                && requests == old(requests) + [DecryptRequest(data, token.value)]
                && errorMessage == old(errorMessage) && errorModalVisible == old(errorModalVisible)
                && modalVisible == old(modalVisible) && ticketInfo == old(ticketInfo)
      ensures rearmTimers == old(rearmTimers) && now == old(now)
    {
      if scanned {
        return;
      }
      scanned := true;
      if !HasToken(token) {
        errorMessage := NO_TOKEN;
        errorModalVisible := true;
        scanned := false;
        return;
      }
      loading := true;
      requests := requests + [DecryptRequest(data, token.value)];
    }

    /** The decrypt request in flight settles with `resp`. */
    method Settle(resp: DecryptResponse)
      requires Valid() && Phase() == Verifying
      modifies this
      ensures Valid()
      ensures match Classify(resp)
              case TicketShown(t) =>
                && ticketInfo == Some(t) && modalVisible
                && errorModalVisible == old(errorModalVisible) && errorMessage == old(errorMessage)
              case ErrorShown(reason) =>
                && errorMessage == reason && errorModalVisible
                && modalVisible == old(modalVisible) && ticketInfo == old(ticketInfo)
      // loading ends, and scanning stays suspended for the re-arm delay
      ensures !loading && scanned && Phase() == Cooldown(now + REARM_DELAY)
      ensures rearmTimers == [now + REARM_DELAY]
      ensures requests == old(requests) && now == old(now)
    {
      var outcome := Classify(resp);
      match outcome {
        case TicketShown(t) =>
          ticketInfo := Some(t);
          modalVisible := true;
        case ErrorShown(reason) =>
          errorMessage := reason;
          errorModalVisible := true;
      }
      loading := false;
      rearmTimers := rearmTimers + [now + REARM_DELAY];
    }

    /** The clock reaches `t`; a due re-arm timer sets `scanned` to false. */
    method Tick(t: int)
      requires Valid() && now <= t
      modifies this
      ensures Valid()
      ensures now == t && rearmTimers == Clock.Pending(old(rearmTimers), t)
      ensures scanned == (old(scanned) && !Clock.AnyDue(old(rearmTimers), t))
      // a cooldown ends exactly when its deadline is reached
      ensures old(Phase()).Cooldown? ==> (Phase() == Idle <==> old(Phase()).until <= t)
      ensures old(Phase()).Cooldown? && t < old(Phase()).until ==> Phase() == old(Phase())
      ensures old(Phase()) == Idle ==> Phase() == Idle
      ensures old(Phase()) == Verifying ==> Phase() == Verifying
      ensures loading == old(loading) && requests == old(requests)
      ensures modalVisible == old(modalVisible) && errorModalVisible == old(errorModalVisible)
      ensures ticketInfo == old(ticketInfo) && errorMessage == old(errorMessage)
    {
      if Clock.AnyDue(rearmTimers, t) {
        scanned := false;
      }
      Clock.TickKeepsWindow(rearmTimers, now, t, REARM_DELAY);
      rearmTimers := Clock.Pending(rearmTimers, t);
      now := t;
    }

    /** The ticket modal's Close button or back gesture. */
    method CloseTicketModal()
      requires Valid()
      modifies this`modalVisible
      ensures Valid() && !modalVisible
    {
      modalVisible := false;
    }

    /** The error modal's Close button or back gesture. */
    method CloseErrorModal()
      requires Valid()
      modifies this`errorModalVisible
      ensures Valid() && !errorModalVisible
    {
      errorModalVisible := false;
    }
  }
}
