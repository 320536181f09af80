/**
 * The order-creation route (POST .../razorpay/create-order): check that
 * `amount` is a number, build the gateway request, create the order through
 * the gateway and echo what the gateway returned.
 */
module CreateOrder {
  import opened Wrappers
  import opened Http
  import Decimal

  /**
   * The parsed request body: reading it threw, it is a falsy JSON value
   * (`null`, `false`, `0`, `""`), or it is any other value, whose `amount`
   * property is a number or not (None: absent, or of another type).
   */
  datatype OrderPayload =
    | Unreadable(cause: Thrown)
    | Falsy
    | Payload(amount: Option<int>, tournamentId: Option<string>, teamName: Option<string>)

  datatype Notes = Notes(tournamentId: Option<string>, teamName: Option<string>)

  /** The argument of `razorpay.orders.create`. */
  datatype GatewayRequest = GatewayRequest(amount: int, currency: string, receipt: string, notes: Notes)

  /** What the gateway answers: the created order, or the value it threw. */
  datatype GatewayOutcome =
    | Created(id: string, amount: int, currency: string)
    | Failed(cause: Thrown)

  /** The Razorpay client, as a parameter. */
  type Gateway = GatewayRequest -> GatewayOutcome

  const InvalidAmount := "Invalid amount"
  const CreationFailed := "Failed to create order"
  const ReceiptPrefix := "receipt_"

  /** The receipt for an order created at millisecond timestamp `now` (`Date.now()`). */
  function Receipt(now: nat): string {
    ReceiptPrefix + Decimal.Render(now)
  }

  /** The timestamp a receipt was made from, when it is one of ours. */
  function ReceiptTimestamp(receipt: string): Option<nat> {
    if |receipt| >= |ReceiptPrefix| && receipt[..|ReceiptPrefix|] == ReceiptPrefix
    then Decimal.Parse(receipt[|ReceiptPrefix|..])
    else None
  }

  /** The request sent to the gateway for a validated payload. */
  function BuildGatewayRequest(amount: int, tournamentId: Option<string>, teamName: Option<string>, now: nat): GatewayRequest {
    GatewayRequest(amount * 100, "INR", Receipt(now), Notes(tournamentId, teamName))
  }

  /** The request the handler would send, or None when it answers without calling the gateway. */
  function RequestFor(payload: OrderPayload, now: nat): (q: Option<GatewayRequest>)
    ensures q.Some? <==> payload.Payload? && payload.amount.Some?
  {
    match payload
    case Payload(Some(amount), tournamentId, teamName) => Some(BuildGatewayRequest(amount, tournamentId, teamName, now))
    case _ => None
  }

  /** The handler's response to the gateway's answer. */
  function RespondToGateway(outcome: GatewayOutcome): Response {
    match outcome
    case Created(id, amount, currency) => Response(200, OrderBody(id, amount, currency))
    case Failed(cause) => Response(500, MessageBody(CaughtMessage(cause, CreationFailed)))
  }

  /** The handler's response; the gateway is called only with `RequestFor(payload, now)`. */
  function CreateOrder(payload: OrderPayload, now: nat, gateway: Gateway): (r: Response)
    ensures r.status == 200 || r.status == 400 || r.status == 500
    ensures r.status == 400 <==> payload.Falsy? || (payload.Payload? && payload.amount.None?)
    ensures r.status == 400 ==> r.body == MessageBody(InvalidAmount)
    ensures RequestFor(payload, now).Some? ==> r == RespondToGateway(gateway(RequestFor(payload, now).value))
    ensures payload.Unreadable? ==> r == Response(500, MessageBody(CaughtMessage(payload.cause, CreationFailed)))
  {
    match payload
    case Unreadable(cause) => Response(500, MessageBody(CaughtMessage(cause, CreationFailed)))
    case Falsy => Response(400, MessageBody(InvalidAmount))
    case Payload(amount, tournamentId, teamName) =>
      if amount.None? then Response(400, MessageBody(InvalidAmount))
      else RespondToGateway(gateway(BuildGatewayRequest(amount.value, tournamentId, teamName, now)))
  }

  /**
   * The gateway request carries the amount in paise (a whole multiple of 100
   * that divides back to the amount), always in rupees, with a receipt from
   * which the timestamp can be read back and the notes unchanged.
   */
  lemma GatewayRequestContents(amount: int, tournamentId: Option<string>, teamName: Option<string>, now: nat)
    ensures var q := BuildGatewayRequest(amount, tournamentId, teamName, now);
            && q.amount % 100 == 0 && q.amount / 100 == amount
            && q.currency == "INR"
            && ReceiptTimestamp(q.receipt) == Some(now)
            && q.notes.tournamentId == tournamentId && q.notes.teamName == teamName
  {
    var r := Receipt(now);
    assert r[..|ReceiptPrefix|] == ReceiptPrefix;
    assert r[|ReceiptPrefix|..] == Decimal.Render(now);
    Decimal.ParseRender(now);
  }

  /** Orders created at different milliseconds get different receipts. */
  lemma ReceiptsDistinct(now: nat, now': nat)
    requires now != now'
    ensures Receipt(now) != Receipt(now')
  {
    GatewayRequestContents(0, None, None, now);
    GatewayRequestContents(0, None, None, now');
  }

  /** Without a numeric amount the answer is "Invalid amount", whatever the gateway would have done. */
  lemma InvalidAmountNeverReachesGateway(payload: OrderPayload, now: nat, g1: Gateway, g2: Gateway)
    requires payload.Falsy? || (payload.Payload? && payload.amount.None?)
    ensures CreateOrder(payload, now, g1) == CreateOrder(payload, now, g2) == Response(400, MessageBody(InvalidAmount))
  {
  }

  /**
   * Every number passes validation, zero and negative amounts included, and
   * reaches the gateway as amount * 100.
   */
  lemma AnyNumberReachesGateway(amount: int, tournamentId: Option<string>, teamName: Option<string>,
                                now: nat, gateway: Gateway)
    ensures var r := CreateOrder(Payload(Some(amount), tournamentId, teamName), now, gateway);
            && r.status != 400
            && r == RespondToGateway(gateway(GatewayRequest(amount * 100, "INR", Receipt(now), Notes(tournamentId, teamName))))
  {
  }

  /** A gateway error becomes a 500 carrying its message, or "Failed to create order". */
  lemma GatewayFailureIs500(payload: OrderPayload, now: nat, gateway: Gateway)
    requires RequestFor(payload, now).Some?
    requires gateway(RequestFor(payload, now).value).Failed?
    ensures var e := gateway(RequestFor(payload, now).value).cause;
            CreateOrder(payload, now, gateway)
            == Response(500, MessageBody(if e.ErrorObject? then e.message else CreationFailed))
  {
  }

  /**
   * A successful response echoes the gateway's order id, amount and currency,
   * even when the gateway's amount is not the one requested.
   */
  lemma SuccessEchoesGateway(payload: OrderPayload, now: nat, gateway: Gateway)
    requires RequestFor(payload, now).Some?
    requires gateway(RequestFor(payload, now).value).Created?
    ensures var o := gateway(RequestFor(payload, now).value);
            CreateOrder(payload, now, gateway) == Response(200, OrderBody(o.id, o.amount, o.currency))
  {
  }
}
