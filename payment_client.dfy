/** The client's payment service, `initiatePayment(amount)`. For a signed-in user it asks the
    server for an order in paise, opens the provider's checkout on it, and once the checkout
    reports a payment has the server verify it. Each of the calls (`fetch`, the checkout
    widget) is a parameter of the model; the answer is a settled promise. */
module PaymentClient {
  import opened Common
  import opened PaymentServer

  /** `RAZORPAY_CONFIG.CURRENCY`. */
  const Currency: string := "INR"

  /** The signed-in user (`auth.currentUser`). */
  datatype User = User(uid: string, phoneNumber: string)

  /** What a `fetch` to the server ends with: a response carrying the route's JSON body, or a
      rejected fetch (no connection, or no answer before the connection is dropped). */
  datatype HttpResult = Response(status: int, body: Body) | NetworkError(message: string)

  /** What the checkout widget is opened with. `orderId` is `data.orderId`, absent when the
      server's body carries none. */
  datatype CheckoutOptions = CheckoutOptions(amount: int, currency: string, orderId: Option<string>)

  /** The first event the checkout widget reports: the success handler with the provider's ids
      and signature, the modal being dismissed, or `payment.failed` with its description. */
  datatype CheckoutOutcome =
    | Paid(orderId: string, paymentId: string, signature: string)
    | Dismissed
    | PaymentFailed(description: string)

  /** Everything outside the client: whether the checkout script is loaded, and the three calls. */
  datatype Gateway = Gateway(
    sdkLoaded: bool,
    createOrder: CreateOrderRequest -> HttpResult,
    checkout: CheckoutOptions -> CheckoutOutcome,
    verify: VerifyRequest -> HttpResult)

  datatype PaymentResponse = PaymentResponse(success: bool, orderId: Option<string>, message: Option<string>)

  // ---------------------------------------------------------------- reading the server's JSON

  predicate HttpOk(status: int) { 200 <= status < 300 }

  /** `data.success`. */
  predicate BodySuccess(b: Body)
  {
    b.OrderCreated? || b.PaymentVerified?
  }

  /** `data.message`, with a missing message read as the (falsy) empty string. */
  function BodyMessage(b: Body): string
  {
    if b.Failure? then b.message else ""
  }

  /** `data.orderId`. */
  function BodyOrderId(b: Body): Option<string>
  {
    if b.OrderCreated? then Some(b.orderId) else None
  }

  /** Rupees to paise: the amount the server and the checkout are given. */
  function Paise(amount: int): int
  {
    amount * 100
  }

  /** The `create-order` request body. */
  function OrderRequest(amount: int, user: User): CreateOrderRequest
  {
    CreateOrderRequest(Some(Paise(amount) as real), Some(Currency), Some(user.uid))
  }

  function Failed(message: string): PaymentResponse
  {
    PaymentResponse(false, None, Some(message))
  }

  /** The promise the checkout stage returns. It is returned from inside the `try` without
      being awaited, so its rejections reach the caller instead of becoming `success: false`. */
  function CheckoutStage(amount: int, orderId: Option<string>, gw: Gateway): (r: Settled<PaymentResponse>)
    ensures r.Resolved? ==> r.value.success && gw.checkout(CheckoutOptions(Paise(amount), Currency, orderId)).Paid?
    ensures r.Resolved? ==> r.value.orderId == Some(gw.checkout(CheckoutOptions(Paise(amount), Currency, orderId)).orderId)
    // the checkout's own failures reject with their messages
    ensures gw.checkout(CheckoutOptions(Paise(amount), Currency, orderId)).Dismissed? ==> r == Rejected("Payment cancelled by user")
    ensures gw.checkout(CheckoutOptions(Paise(amount), Currency, orderId)).PaymentFailed? ==>
      r == Rejected(gw.checkout(CheckoutOptions(Paise(amount), Currency, orderId)).description)
    // a paid checkout is verified with exactly the ids and signature it reported: an unreachable
    // server rejects with the fetch's error, an answer without success rejects, whatever its status
    ensures var c := gw.checkout(CheckoutOptions(Paise(amount), Currency, orderId));
      c.Paid? ==>
        var v := gw.verify(VerifyRequest(Some(c.orderId), Some(c.paymentId), Some(c.signature)));
        && (v.NetworkError? ==> r == Rejected(v.message))
        && (v.Response? && !BodySuccess(v.body) ==> r == Rejected("Payment verification failed"))
        && (v.Response? && BodySuccess(v.body) ==> r == Resolved(PaymentResponse(true, Some(c.orderId), None)))
  {
    match gw.checkout(CheckoutOptions(Paise(amount), Currency, orderId))
    case Dismissed => Rejected("Payment cancelled by user")
    case PaymentFailed(description) => Rejected(description)
    case Paid(o, p, signature) =>
      match gw.verify(VerifyRequest(Some(o), Some(p), Some(signature)))
      case NetworkError(m) => Rejected(m)
      case Response(_, b) =>
        if !BodySuccess(b) then Rejected("Payment verification failed")
        else Resolved(PaymentResponse(true, Some(o), None))
  }

  /** `PaymentService.initiatePayment(amount)`. */
  function InitiatePayment(amount: int, user: Option<User>, gw: Gateway): (r: Settled<PaymentResponse>)
    // no signed-in user: the promise rejects, before anything else is tried
    ensures user.None? ==> r == Rejected("User not authenticated")
    ensures user.Some? && !gw.sdkLoaded ==> r == Resolved(Failed("Razorpay SDK not loaded"))
    // an answer with success false always carries a non-empty message and no order
    ensures r.Resolved? && !r.value.success ==> r.value.message.Some? && r.value.message.value != "" && r.value.orderId.None?
    // success needs an order from the server, a paid checkout and a successful verification,
    // and reports the order id the checkout paid
    ensures r.Resolved? && r.value.success <==>
      && user.Some? && gw.sdkLoaded
      && gw.createOrder(OrderRequest(amount, user.value)).Response?
      && HttpOk(gw.createOrder(OrderRequest(amount, user.value)).status)
      && BodySuccess(gw.createOrder(OrderRequest(amount, user.value)).body)
      && var checkout := gw.checkout(CheckoutOptions(Paise(amount), Currency, BodyOrderId(gw.createOrder(OrderRequest(amount, user.value)).body)));
      && checkout.Paid?
      && gw.verify(VerifyRequest(Some(checkout.orderId), Some(checkout.paymentId), Some(checkout.signature))).Response?
      && BodySuccess(gw.verify(VerifyRequest(Some(checkout.orderId), Some(checkout.paymentId), Some(checkout.signature))).body)
    ensures r.Resolved? && r.value.success ==> r.value.orderId.Some?
    // order creation failing: the promise resolves unsuccessful with the error's message
    ensures user.Some? && gw.sdkLoaded && gw.createOrder(OrderRequest(amount, user.value)).NetworkError? ==>
      r == Resolved(Failed(OrElse(gw.createOrder(OrderRequest(amount, user.value)).message, "Payment initiation failed")))
    ensures user.Some? && gw.sdkLoaded && gw.createOrder(OrderRequest(amount, user.value)).Response?
            && !HttpOk(gw.createOrder(OrderRequest(amount, user.value)).status) ==>
      var m := BodyMessage(gw.createOrder(OrderRequest(amount, user.value)).body);
      r == Resolved(Failed(if m != "" then m else "Failed to create order"))
    ensures user.Some? && gw.sdkLoaded && gw.createOrder(OrderRequest(amount, user.value)).Response?
            && HttpOk(gw.createOrder(OrderRequest(amount, user.value)).status)
            && !BodySuccess(gw.createOrder(OrderRequest(amount, user.value)).body) ==>
      r == Resolved(Failed(OrElse(BodyMessage(gw.createOrder(OrderRequest(amount, user.value)).body), "Payment initiation failed")))
    // an order the server created goes on to the checkout
    ensures user.Some? && gw.sdkLoaded && gw.createOrder(OrderRequest(amount, user.value)).Response?
            && HttpOk(gw.createOrder(OrderRequest(amount, user.value)).status)
            && BodySuccess(gw.createOrder(OrderRequest(amount, user.value)).body) ==>
      r == CheckoutStage(amount, BodyOrderId(gw.createOrder(OrderRequest(amount, user.value)).body), gw)
    // a rejection after sign-in comes from the checkout stage, never from order creation
    ensures user.Some? && r.Rejected? ==>
      && gw.sdkLoaded
      && gw.createOrder(OrderRequest(amount, user.value)).Response?
      && HttpOk(gw.createOrder(OrderRequest(amount, user.value)).status)
      && BodySuccess(gw.createOrder(OrderRequest(amount, user.value)).body)
  {
    if user.None? then Rejected("User not authenticated")
    else if !gw.sdkLoaded then Resolved(Failed("Razorpay SDK not loaded"))
    else
      match gw.createOrder(OrderRequest(amount, user.value))
      case NetworkError(m) => Resolved(Failed(OrElse(m, "Payment initiation failed")))
      case Response(status, body) =>
        if !HttpOk(status) then Resolved(Failed(OrElse(OrElse(BodyMessage(body), "Failed to create order"), "Payment initiation failed")))
        else if !BodySuccess(body) then Resolved(Failed(OrElse(BodyMessage(body), "Payment initiation failed")))
        else CheckoutStage(amount, BodyOrderId(body), gw)
  }

  /** Once the server has created the order, every failure rejects instead of resolving with
      `success: false`: a dismissed checkout, a failed payment, an unreachable verification and
      a verification without success each reject with their own message. */
  lemma CheckoutFailuresReject(amount: int, user: User, gw: Gateway)
    requires gw.sdkLoaded
    requires gw.createOrder(OrderRequest(amount, user)).Response?
    requires HttpOk(gw.createOrder(OrderRequest(amount, user)).status) && BodySuccess(gw.createOrder(OrderRequest(amount, user)).body)
    ensures var c := gw.checkout(CheckoutOptions(Paise(amount), Currency, BodyOrderId(gw.createOrder(OrderRequest(amount, user)).body)));
      && (c.Dismissed? ==> InitiatePayment(amount, Some(user), gw) == Rejected("Payment cancelled by user"))
      && (c.PaymentFailed? ==> InitiatePayment(amount, Some(user), gw) == Rejected(c.description))
      && (c.Paid? ==>
            var v := gw.verify(VerifyRequest(Some(c.orderId), Some(c.paymentId), Some(c.signature)));
            && (v.NetworkError? ==> InitiatePayment(amount, Some(user), gw) == Rejected(v.message))
            && (v.Response? && !BodySuccess(v.body) ==> InitiatePayment(amount, Some(user), gw) == Rejected("Payment verification failed")))
    ensures !(InitiatePayment(amount, Some(user), gw).Resolved? && InitiatePayment(amount, Some(user), gw).value.success) ==>
      InitiatePayment(amount, Some(user), gw).Rejected?
  {
  }
}
