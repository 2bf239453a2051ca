/** The payment provider's notification endpoint (IPN): it reads the notification,
    maps the provider's status code to an order status, asks the order store to
    update the order once, and answers with the envelope the provider expects.
    The store update overwrites the order's status: nothing here keeps a paid
    order from being set back to pending by a later notification. */
module PaymentNotification {
  import opened Common
  import opened CartTypes

  /** The provider's payment status names. */
  datatype NetopiaStatus =
    | StatusPending | PendingAuth | StatusPaid | PaidPending | Scheduled
    | Credit | Declined | StatusError | Canceled

  /** The numeric code the provider sends for each status name. */
  function Code(s: NetopiaStatus): int {
    match s
    case StatusPending => 0
    case PendingAuth => 1
    case StatusPaid => 2
    case PaidPending => 3
    case Scheduled => 4
    case Credit => 5
    case Declined => 6
    case StatusError => 7
    case Canceled => 8
  }

  /** The status name of a code, if the provider defines one. */
  function StatusOfCode(c: int): Option<NetopiaStatus> {
    if c == 0 then Some(StatusPending)
    else if c == 1 then Some(PendingAuth)
    else if c == 2 then Some(StatusPaid)
    else if c == 3 then Some(PaidPending)
    else if c == 4 then Some(Scheduled)
    else if c == 5 then Some(Credit)
    else if c == 6 then Some(Declined)
    else if c == 7 then Some(StatusError)
    else if c == 8 then Some(Canceled)
    else None
  }

  /** The code table is a bijection between the nine names and the codes 0 to 8. */
  lemma CodeTableBijective(s: NetopiaStatus, c: int)
    ensures StatusOfCode(Code(s)) == Some(s)
    ensures StatusOfCode(c) == Some(s) ==> Code(s) == c
    ensures StatusOfCode(c).Some? <==> 0 <= c <= 8
  {
  }

  /** The order status a notification's `payment.status` maps to. `status` is None
      when the field is absent or not an integer, which the `switch` sends to its default. */
  function MapNetopiaStatusToOrderStatus(status: Option<int>): (r: OrderStatus)
    ensures r == Paid <==> status == Some(2) || status == Some(3) || status == Some(5)
    ensures r == Failed <==> status == Some(6) || status == Some(7)
    ensures r == Cancelled <==> status == Some(8)
    ensures r == Pending <==> status.None? || status.value !in {2, 3, 5, 6, 7, 8}
  {
    if status == Some(Code(StatusPaid)) || status == Some(Code(PaidPending)) || status == Some(Code(Credit)) then
      Paid
    else if status == Some(Code(Declined)) || status == Some(Code(StatusError)) then
      Failed
    else if status == Some(Code(Canceled)) then
      Cancelled
    else
      Pending
  }

  /** The fields of a notification the endpoint reads: `order.orderID`,
      `payment.ntpID` and `payment.status`, each None when absent. */
  datatype IpnPayload = IpnPayload(orderId: Option<string>, ntpId: Option<string>, status: Option<int>)

  /** The payload of `{}`: no field present. */
  const EmptyPayload := IpnPayload(None, None, None)

  /** The result of `JSON.parse`. A JSON value other than `null` without these members
      (a number, a string, an array) decodes like `{}`; `null` decodes, but reading a
      member of it throws. */
  datatype Decoded = Value(payload: IpnPayload) | JsonNull | SyntaxError

  /** The form reading of a body: the `data` field decoded as JSON, None when the
      field is absent or empty (the endpoint then parses `{}`). */
  datatype FormFields = FormFields(data: Option<Decoded>)

  /** A notification request: its content type, the body read as JSON, and the body
      read as form data (None when the body is not form data and reading throws). */
  datatype IpnRequest = IpnRequest(contentType: Option<string>, asJson: Decoded, asForm: Option<FormFields>)

  /** `haystack.includes(needle)`. */
  predicate Includes(haystack: string, needle: string) {
    |needle| <= |haystack| && (haystack[..|needle|] == needle || Includes(haystack[1..], needle))
  }

  /** The payload the endpoint works on, or None when reading it throws. */
  function ReadPayload(req: IpnRequest): Option<IpnPayload> {
    var decoded :=
      if req.contentType.Some? && Includes(req.contentType.value, "application/json") then req.asJson
      else if req.asForm.None? then SyntaxError
      else if req.asForm.value.data.None? then Value(EmptyPayload)
      else req.asForm.value.data.value;
    if decoded.Value? then Some(decoded.payload) else None
  }

  /** The store call the endpoint makes: order id, new status and provider transaction id. */
  datatype UpdateCall = UpdateCall(orderId: string, status: OrderStatus, netopiaId: Option<string>)

  /** Whether the store call returned or threw. */
  datatype UpdateOutcome = Stored | StoreError

  /** The response envelope the provider expects, with its HTTP status. */
  datatype IpnResponse = IpnResponse(httpStatus: int, errorType: int, errorCode: string, errorMessage: string)

  /** The update the endpoint asks for (at most one) and its response. */
  datatype IpnDecision = IpnDecision(update: Option<UpdateCall>, response: IpnResponse)

  const Acknowledged := IpnResponse(200, 0, "", "OK")
  const MissingOrderId := IpnResponse(400, 0, "", "Missing orderId")
  const ServerError := IpnResponse(500, 1, "SERVER_ERROR", "Internal server error")

  /** The notification endpoint. `outcome` is what the store call does if it is made. */
  function HandleNotification(req: IpnRequest, outcome: UpdateOutcome): (d: IpnDecision)
    // a payload that cannot be read is a server error, and nothing is updated
    ensures ReadPayload(req).None? ==> d == IpnDecision(None, ServerError)
    // a missing or empty order id is refused, and nothing is updated
    ensures ReadPayload(req).Some? && ReadPayload(req).value.orderId in {None, Some("")} ==>
      d == IpnDecision(None, MissingOrderId)
    // otherwise exactly one update with the mapped status, and an acknowledgement whatever the store did
    ensures ReadPayload(req).Some? && ReadPayload(req).value.orderId !in {None, Some("")} ==>
      var p := ReadPayload(req).value;
      && d.update == Some(UpdateCall(p.orderId.value, MapNetopiaStatusToOrderStatus(p.status), p.ntpId))
      && d.response == Acknowledged
  {
    match ReadPayload(req)
    case None => IpnDecision(None, ServerError)
    case Some(payload) =>
      if payload.orderId.None? || payload.orderId.value == "" then
        IpnDecision(None, MissingOrderId)
      else
        var call := UpdateCall(payload.orderId.value, MapNetopiaStatusToOrderStatus(payload.status), payload.ntpId);
        match outcome
        case Stored => IpnDecision(Some(call), Acknowledged)
        case StoreError => IpnDecision(Some(call), Acknowledged)  // logged and swallowed
  }

  /** The provider always gets one of three envelopes; `errorType` is 1 exactly on the 500
      answer; a store failure never changes the answer. */
  lemma ResponseEnvelopes(req: IpnRequest)
    ensures HandleNotification(req, Stored) == HandleNotification(req, StoreError)
    ensures HandleNotification(req, Stored).response in {Acknowledged, MissingOrderId, ServerError}
    ensures HandleNotification(req, Stored).response.errorType == 1 <==>
      HandleNotification(req, Stored).response.httpStatus == 500
    ensures HandleNotification(req, Stored).update.Some? <==>
      HandleNotification(req, Stored).response.httpStatus == 200
  {
  }

  /** A form post without a `data` field is read as `{}` and refused for its missing order id. */
  lemma FormWithoutDataIsRefused(req: IpnRequest, outcome: UpdateOutcome)
    requires req.contentType.None? || !Includes(req.contentType.value, "application/json")
    requires req.asForm == Some(FormFields(None))
    ensures HandleNotification(req, outcome) == IpnDecision(None, MissingOrderId)
  {
  }

  /** A JSON `null` body throws when its members are read: a server error. */
  lemma NullPayloadIsServerError(req: IpnRequest, outcome: UpdateOutcome)
    requires req.contentType == Some("application/json")
    requires req.asJson == JsonNull
    ensures HandleNotification(req, outcome) == IpnDecision(None, ServerError)
  {
    assert Includes("application/json", "application/json");
  }

  /** The answer to the liveness probe. */
  datatype HealthResponse = HealthResponse(httpStatus: int, status: string)

  function HealthCheck(): (r: HealthResponse)
    ensures r.httpStatus == 200 && r.status == "IPN endpoint active"
  {
    HealthResponse(200, "IPN endpoint active")
  }
}
