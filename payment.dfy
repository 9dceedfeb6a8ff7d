/** The payment handlers: creating a gateway order for an amount, the
    client-initiated signature check that marks an order paid, and the
    gateway's webhook that moves an order to paid or failed. */
module Payment {
  import opened Http
  import opened Text
  import opened Seqs
  import opened OrderModel

  /** HMAC-SHA256 keyed with the first argument over the second, hex encoded.
      The model never computes it; it is passed in. */
  type Hmac = (string, string) -> string

  // ---------------------------------------------------------------------
  // createOrder

  /** The request body; `amount` is None when missing or not a number. */
  datatype CreateOrderRequest = CreateOrderRequest(amount: Option<real>, currency: Option<string>, receipt: string)

  /** What is sent to the gateway. */
  datatype GatewayOptions = GatewayOptions(amount: int, currency: string, receipt: string, paymentCapture: int)

  datatype GatewayOrder = GatewayOrder(id: string, amount: int, currency: string)

  /** What the gateway call gives back: an order, nothing, or a thrown error. */
  datatype GatewayOutcome = Created(order: GatewayOrder) | NoOrder | Threw(message: string)

  const DefaultCurrency: string := "INR"
  const MsgAmountRequired: string := "Amount is required"
  const MsgNoGatewayOrder: string := "Error creating Razorpay order"
  const MsgCreateFailed: string := "Error creating payment order"

  /** `Math.round`: the nearest integer, halves rounded up. */
  function Round(x: real): (n: int)
    ensures x - 0.5 < n as real <= x + 0.5
  {
    (x + 0.5).Floor
  }

  /** The amount in paise (hundredths of a rupee) the gateway expects. */
  function AmountInPaise(amount: real): (paise: int)
    ensures amount * 100.0 - 0.5 < paise as real <= amount * 100.0 + 0.5
  {
    Round(amount * 100.0)
  }

  /** An amount with at most two decimals converts exactly. */
  lemma ExactForTwoDecimals(paise: int)
    ensures AmountInPaise(paise as real / 100.0) == paise
  {
    assert (paise as real / 100.0) * 100.0 == paise as real;
  }

  /** The options built from a request at time `now`, or the 400 that the
      catch turns into a 500. */
  function GatewayOptionsFor(req: CreateOrderRequest, now: nat): (r: Result<GatewayOptions>)
    ensures r.Err? <==> req.amount == None || req.amount == Some(0.0)
    ensures r.Err? ==> r.error == Error(ServerError, MsgAmountRequired)
    ensures r.Ok? ==> r.value.amount == AmountInPaise(req.amount.value)
    ensures r.Ok? ==> r.value.currency == if req.currency.Some? then req.currency.value else DefaultCurrency
    ensures r.Ok? ==> r.value.receipt == if req.receipt != "" then req.receipt else "receipt_" + NatToString(now)
    ensures r.Ok? ==> r.value.paymentCapture == 1
  {
    if req.amount.None? || req.amount.value == 0.0 then Err(Error(ServerError, MsgAmountRequired))
    else
      var currency := if req.currency.Some? then req.currency.value else DefaultCurrency;
      var receipt := if req.receipt != "" then req.receipt else "receipt_" + NatToString(now);
      Ok(GatewayOptions(AmountInPaise(req.amount.value), currency, receipt, 1))
  }

  /** createOrder: every failure is reported with status 500, the catch
      overwriting the 400 set for a missing amount. */
  function CreateOrder(req: CreateOrderRequest, now: nat, gateway: GatewayOptions -> GatewayOutcome)
    : (r: Result<GatewayOrder>)
    ensures r.Err? ==> r.error.status == ServerError
    ensures (req.amount == None || req.amount == Some(0.0)) ==> r == Err(Error(ServerError, MsgAmountRequired))
    ensures r.Ok? ==> var opts := GatewayOptionsFor(req, now);
                      opts.Ok? && gateway(opts.value) == Created(r.value)
    ensures var opts := GatewayOptionsFor(req, now);
            opts.Ok? ==>
              match gateway(opts.value)
              case Created(order) => r == Ok(order)
              case NoOrder => r == Err(Error(ServerError, MsgNoGatewayOrder))
              case Threw(message) => r.Err? && r.error.message == (if message != "" then message else MsgCreateFailed)
  {
    var opts :- GatewayOptionsFor(req, now);
    match gateway(opts)
    case Created(order) => Ok(GatewayOrder(order.id, order.amount, order.currency))
    case NoOrder => Err(Error(ServerError, MsgNoGatewayOrder))
    case Threw(message) => Err(Error(ServerError, if message != "" then message else MsgCreateFailed))
  }

  // ---------------------------------------------------------------------
  // verifyPayment

  /** The body of a verify call; an empty string is a missing field. */
  datatype VerifyRequest = VerifyRequest(
    razorpayOrderId: string,
    razorpayPaymentId: string,
    razorpaySignature: string,
    orderId: OrderId)

  const MsgMissingParams: string := "Missing required payment verification parameters"
  const MsgInvalidSignature: string := "Invalid payment signature"
  const MsgOrderNotFound: string := "Order not found"
  const StatusCompleted: string := "completed"

  /** The text the client signature covers. */
  function SignedText(razorpayOrderId: string, razorpayPaymentId: string): (r: string)
    ensures |r| == |razorpayOrderId| + 1 + |razorpayPaymentId|
    ensures r[..|razorpayOrderId|] == razorpayOrderId && r[|razorpayOrderId|] == '|'
    ensures r[|razorpayOrderId| + 1..] == razorpayPaymentId
  {
    razorpayOrderId + "|" + razorpayPaymentId
  }

  /** For ids without '|', the signed text determines both ids, so a
      signature for one pair does not verify another. */
  lemma SignedTextInjective(o1: string, p1: string, o2: string, p2: string)
    requires '|' !in o1 && '|' !in o2
    requires SignedText(o1, p1) == SignedText(o2, p2)
    ensures o1 == o2 && p1 == p2
  {
    SeparatorAt(o1, p1);
    SeparatorAt(o2, p2);
    if |o1| != |o2| {
      assert false;
    }
  }

  lemma SeparatorAt(o: string, p: string)
    ensures var s := SignedText(o, p);
            |s| == |o| + 1 + |p| && s[|o|] == '|' && s[..|o|] == o && s[|o| + 1..] == p
  {
    var s := SignedText(o, p);
    assert s[..|o|] == o;
    assert s[|o| + 1..] == p;
  }

  predicate MissingParams(req: VerifyRequest) {
    req.razorpayOrderId == "" || req.razorpayPaymentId == "" || req.razorpaySignature == ""
  }

  predicate SignatureValid(hmac: Hmac, keySecret: string, req: VerifyRequest) {
    req.razorpaySignature == hmac(keySecret, SignedText(req.razorpayOrderId, req.razorpayPaymentId))
  }

  function IndexOfOrder(orders: seq<Order>, id: OrderId): int {
    FirstIndex(orders, (o: Order) => o.id == id)
  }

  // ---------------------------------------------------------------------
  // handleWebhook

  datatype PaymentEntity = PaymentEntity(id: string, status: string)
  datatype PaymentEvent = PaymentEvent(entity: Option<PaymentEntity>)
  datatype WebhookPayload = WebhookPayload(payment: Option<PaymentEvent>)
  /** A webhook body; `payload` is None when the body has none. */
  datatype WebhookBody = WebhookBody(event: string, payload: Option<WebhookPayload>)

  const MsgInvalidWebhookSignature: string := "Invalid webhook signature"
  /** The TypeError raised when the body has no payload. */
  const MsgNoPayload: string := "Cannot destructure property 'payment' of 'payload' as it is undefined."
  const StatusCaptured: string := "captured"
  const StatusFailed: string := "failed"
  const Acknowledged: string := "ok"

  /** The first order whose stored payment result has this payment id. */
  function IndexOfPayment(orders: seq<Order>, paymentId: string): int {
    FirstIndex(orders, (o: Order) => o.paymentResult.Some? && o.paymentResult.value.id == paymentId)
  }

  /** The change a webhook event makes to the order it finds. */
  function ApplyEvent(order: Order, status: string, now: int): (r: Order)
    requires order.paymentResult.Some?
    ensures r.id == order.id && r.totalPrice == order.totalPrice && r.isDelivered == order.isDelivered
    ensures r.createdAt == order.createdAt
    ensures r.paymentResult.Some? && r.paymentResult.value.id == order.paymentResult.value.id
    ensures status == StatusCaptured ==> r.isPaid && r.paidAt == Some(now) && r.paymentResult == order.paymentResult
    ensures status == StatusFailed ==>
              !r.isPaid && r.paidAt == order.paidAt
              && r.paymentResult == Some(order.paymentResult.value.(status := StatusFailed))
    ensures status != StatusCaptured && status != StatusFailed ==> r == order
  {
    if status == StatusCaptured then order.(isPaid := true, paidAt := Some(now))
    else if status == StatusFailed then
      order.(isPaid := false, paymentResult := Some(order.paymentResult.value.(status := StatusFailed)))
    else order
  }

  /** An event changes no order's payment id, so later events for the same
      payment find the same order. */
  lemma ApplyEventKeepsPaymentIndex(orders: seq<Order>, paymentId: string, status: string, now: int)
    requires IndexOfPayment(orders, paymentId) >= 0
    ensures var k := IndexOfPayment(orders, paymentId);
            IndexOfPayment(orders[k := ApplyEvent(orders[k], status, now)], paymentId) == k
  {
    var k := IndexOfPayment(orders, paymentId);
    var orders' := orders[k := ApplyEvent(orders[k], status, now)];
    assert forall j :: 0 <= j < k ==> orders'[j] == orders[j];
    assert orders'[k].paymentResult.Some? && orders'[k].paymentResult.value.id == paymentId;
  }

  /** Delivering the same event twice has the effect of delivering it once. */
  lemma ApplyEventIdempotent(order: Order, status: string, now: int)
    requires order.paymentResult.Some?
    ensures ApplyEvent(ApplyEvent(order, status, now), status, now) == ApplyEvent(order, status, now)
  {
  }

  class OrderStore {
    var orders: seq<Order>

    constructor (orders: seq<Order>)
      ensures this.orders == orders
    {
      this.orders := orders;
    }

    /** verifyPayment: the three fields must be present, the signature must
        be the HMAC of "orderId|paymentId" under the key secret, and the
        order must exist; then it is paid with a "completed" result. Every
        failure leaves with status 500 and touches no order. */
    method VerifyPayment(hmac: Hmac, keySecret: string, req: VerifyRequest, now: int, email: string)
      returns (r: Result<Order>)
      modifies this
      ensures r.Err? ==> orders == old(orders) && r.error.status == ServerError
      ensures MissingParams(req) ==> r == Err(Error(ServerError, MsgMissingParams))
      ensures !MissingParams(req) && !SignatureValid(hmac, keySecret, req) ==>
                r == Err(Error(ServerError, MsgInvalidSignature))
      ensures !MissingParams(req) && SignatureValid(hmac, keySecret, req) && IndexOfOrder(old(orders), req.orderId) < 0 ==>
                r == Err(Error(ServerError, MsgOrderNotFound))
      ensures r.Ok? <==> !MissingParams(req) && SignatureValid(hmac, keySecret, req)
                         && IndexOfOrder(old(orders), req.orderId) >= 0
      ensures r.Ok? ==>
                var k := IndexOfOrder(old(orders), req.orderId);
                && orders == old(orders)[k := r.value]
                && r.value == old(orders)[k].(isPaid := true, paidAt := Some(now),
                                              paymentResult := Some(PaymentResult(req.razorpayPaymentId, StatusCompleted,
                                                                                  now, email, req.razorpayOrderId,
                                                                                  req.razorpayPaymentId,
                                                                                  req.razorpaySignature)))
    {
      if MissingParams(req) {
        return Err(Error(ServerError, MsgMissingParams));
      }
      var expected := hmac(keySecret, SignedText(req.razorpayOrderId, req.razorpayPaymentId));
      if req.razorpaySignature != expected {
        return Err(Error(ServerError, MsgInvalidSignature));
      }
      var k := IndexOfOrder(orders, req.orderId);
      if k < 0 {
        return Err(Error(ServerError, MsgOrderNotFound));
      }
      var order := orders[k];
      order := order.(isPaid := true);
      order := order.(paidAt := Some(now));
      order := order.(paymentResult := Some(PaymentResult(req.razorpayPaymentId, StatusCompleted, now, email,
                                                          req.razorpayOrderId, req.razorpayPaymentId,
                                                          req.razorpaySignature)));
      orders := orders[k := order];
      r := Ok(order);
    }

    /** handleWebhook: a wrong or missing signature header is a 400 and a
        body without payload a 500, both changing nothing; otherwise the
        event reaches the first order with that payment id, if any, and the
        reply is always "ok". */
    method HandleWebhook(hmac: Hmac, webhookSecret: string, serialize: WebhookBody -> string,
                         body: WebhookBody, header: Option<string>, now: int)
      returns (r: Result<string>)
      modifies this
      ensures header != Some(hmac(webhookSecret, serialize(body))) ==>
                r == Err(Error(BadRequest, MsgInvalidWebhookSignature)) && orders == old(orders)
      ensures header == Some(hmac(webhookSecret, serialize(body))) && body.payload.None? ==>
                r == Err(Error(ServerError, MsgNoPayload)) && orders == old(orders)
      ensures header == Some(hmac(webhookSecret, serialize(body))) && body.payload.Some? ==>
                r == Ok(Acknowledged)
      ensures r.Ok? ==>
                var payment := body.payload.value.payment;
                if payment.Some? && payment.value.entity.Some? && IndexOfPayment(old(orders), payment.value.entity.value.id) >= 0
                then
                  var entity := payment.value.entity.value;
                  var k := IndexOfPayment(old(orders), entity.id);
                  orders == old(orders)[k := ApplyEvent(old(orders)[k], entity.status, now)]
                else orders == old(orders)
    {
      var digest := hmac(webhookSecret, serialize(body));
      if header != Some(digest) {
        return Err(Error(BadRequest, MsgInvalidWebhookSignature));
      }
      if body.payload.None? {
        return Err(Error(ServerError, MsgNoPayload));
      }
      var payment := body.payload.value.payment;
      if payment.Some? && payment.value.entity.Some? {
        var entity := payment.value.entity.value;
        var k := IndexOfPayment(orders, entity.id);
        if k >= 0 {
          var order := orders[k];
          if entity.status == StatusCaptured {
            order := order.(isPaid := true);
            order := order.(paidAt := Some(now));
            orders := orders[k := order];
          } else if entity.status == StatusFailed {
            order := order.(isPaid := false);
            order := order.(paymentResult := Some(order.paymentResult.value.(status := StatusFailed)));
            orders := orders[k := order];
          }
        }
      }
      r := Ok(Acknowledged);
    }
  }
}
