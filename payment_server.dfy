/** The payment server's two routes. `/create-order` checks its parameters and asks the
    payment provider for an order; `/verify` checks the checkout's signature, an HMAC-SHA256
    keyed with the server secret, and then that the provider reports the payment captured.
    The HMAC, the provider calls and the clock are parameters. */
module PaymentServer {
  import opened Common

  // ---------------------------------------------------------------- replies

  /** The JSON bodies the routes send. `success` is true exactly for the last two. */
  datatype Body =
    | Failure(message: string)
    | OrderCreated(orderId: string, amount: int, currency: string)
    | PaymentVerified(id: string, amount: int, status: string)

  /** An HTTP reply, or none at all: a provider error is re-thrown inside the promise chain,
      where the route's `try` no longer catches it, so the request is never answered. */
  datatype Reply = Reply(status: int, body: Body) | NoReply

  predicate Succeeded(r: Reply)
  {
    r.Reply? && (r.body.OrderCreated? || r.body.PaymentVerified?)
  }

  // ---------------------------------------------------------------- numbers and text

  /** `Math.round`: the nearest integer, halves rounded up. */
  function Round(x: real): (n: int)
    ensures n as real <= x + 0.5 < n as real + 1.0
  {
    (x + 0.5).Floor
  }

  lemma RoundWhole(n: int)
    ensures Round(n as real) == n
  {
  }

  function DigitChar(d: nat): (c: char)
    requires d < 10
    ensures '0' <= c <= '9'
  {
    "0123456789"[d]
  }

  predicate AllDigits(s: string)
  {
    forall i :: 0 <= i < |s| ==> '0' <= s[i] <= '9'
  }

  /** A whole number written in decimal, as a template literal prints `Date.now()`. */
  function Decimal(n: nat): (s: string)
    ensures |s| > 0 && AllDigits(s)
  {
    if n < 10 then [DigitChar(n)] else Decimal(n / 10) + [DigitChar(n % 10)]
  }

  function ParseDecimal(s: string): (n: nat)
    requires AllDigits(s)
  {
    if s == [] then 0 else 10 * ParseDecimal(s[..|s| - 1]) + (s[|s| - 1] - '0') as nat
  }

  /** Reading the decimal text back gives the number. */
  lemma {:induction false} ParseDecimalOfDecimal(n: nat)
    ensures ParseDecimal(Decimal(n)) == n
  {
    var s := Decimal(n);
    if n >= 10 {
      ParseDecimalOfDecimal(n / 10);
      assert s[..|s| - 1] == Decimal(n / 10);
    }
  }

  /** The position of the last `c` in `s`. */
  function LastIndex(s: string, c: char): (r: Option<nat>)
    ensures r.None? <==> forall i :: 0 <= i < |s| ==> s[i] != c
    ensures r.Some? ==> r.value < |s| && s[r.value] == c && forall j :: r.value < j < |s| ==> s[j] != c
  {
    if s == [] then None
    else if s[|s| - 1] == c then Some(|s| - 1)
    else LastIndex(s[..|s| - 1], c)
  }

  // ---------------------------------------------------------------- /create-order

  /** The request body. A field the client left out is `None`. */
  datatype CreateOrderRequest = CreateOrderRequest(amount: Option<real>, currency: Option<string>, userId: Option<string>)

  /** What is sent to the provider's `orders.create`. */
  datatype OrderOptions = OrderOptions(amount: int, currency: string, receipt: string, notesUserId: string)

  /** The provider's order. */
  datatype Order = Order(id: string, amount: int, currency: string)

  const ReceiptPrefix: string := "rcpt_"

  /** `rcpt_${userId}_${Date.now()}`. */
  function Receipt(userId: string, now: nat): string
  {
    ReceiptPrefix + userId + "_" + Decimal(now)
  }

  /** Splits a receipt at its last underscore. */
  function ParseReceipt(s: string): Option<(string, nat)>
  {
    if |s| < |ReceiptPrefix| || s[..|ReceiptPrefix|] != ReceiptPrefix then None
    else
      var rest := s[|ReceiptPrefix|..];
      match LastIndex(rest, '_')
      case None => None
      case Some(i) =>
        var digits := rest[i + 1..];
        if digits != [] && AllDigits(digits) then Some((rest[..i], ParseDecimal(digits))) else None
  }

  /** The receipt identifies the user and the time of the order. This holds even for a user id
      with underscores of its own, because the timestamp never contains one. */
  lemma ReceiptRoundTrip(userId: string, now: nat)
    ensures ParseReceipt(Receipt(userId, now)) == Some((userId, now))
  {
    var s := Receipt(userId, now);
    var d := Decimal(now);
    var rest := userId + "_" + d;
    assert s[..|ReceiptPrefix|] == ReceiptPrefix;
    assert s[|ReceiptPrefix|..] == rest;
    assert rest[|userId|] == '_';
    var i := LastIndex(rest, '_');
    assert i == Some(|userId|) by {
      forall j | |userId| < j < |rest|
        ensures rest[j] != '_'
      {
        assert rest[j] == d[j - |userId| - 1];
      }
    }
    assert rest[|userId| + 1..] == d;
    assert rest[..|userId|] == userId;
    ParseDecimalOfDecimal(now);
  }

  /** JavaScript truthiness of the amount: missing or zero is falsy. */
  predicate AmountGiven(amount: Option<real>)
  {
    amount.Some? && amount.value != 0.0
  }

  predicate OrderParamsPresent(req: CreateOrderRequest)
  {
    AmountGiven(req.amount) && Present(req.currency) && Present(req.userId)
  }

  /** The options built from a request with all three parameters. */
  function OptionsFor(req: CreateOrderRequest, now: nat): (o: OrderOptions)
    requires OrderParamsPresent(req)
    ensures o.amount == Round(req.amount.value)
    ensures o.currency == req.currency.value && o.notesUserId == req.userId.value
    ensures ParseReceipt(o.receipt) == Some((req.userId.value, now))
  {
    ReceiptRoundTrip(req.userId.value, now);
    OrderOptions(Round(req.amount.value), req.currency.value, Receipt(req.userId.value, now), req.userId.value)
  }

  /** `POST /create-order`. `now` is `Date.now()`; `create` is the provider's answer to the
      options, `None` when the provider call fails. */
  function CreateOrder(req: CreateOrderRequest, now: nat, create: OrderOptions -> Option<Order>): (r: Reply)
    // missing parameters are refused without an order being created
    ensures !OrderParamsPresent(req) <==> r == Reply(400, Failure("Missing required parameters"))
    // otherwise the reply is the provider's order for exactly these options
    ensures OrderParamsPresent(req) && create(OptionsFor(req, now)).Some? ==>
      var order := create(OptionsFor(req, now)).value;
      r == Reply(200, OrderCreated(order.id, order.amount, order.currency))
    ensures OrderParamsPresent(req) && create(OptionsFor(req, now)).None? ==> r == NoReply
    ensures Succeeded(r) ==> OrderParamsPresent(req) && r.body.OrderCreated?
  {
    if !OrderParamsPresent(req) then Reply(400, Failure("Missing required parameters"))
    else
      match create(OptionsFor(req, now))
      case Some(order) => Reply(200, OrderCreated(order.id, order.amount, order.currency))
      case None => NoReply
  }

  /** A refused request does not depend on the provider at all. */
  lemma MissingParamsSkipProvider(req: CreateOrderRequest, now: nat, create1: OrderOptions -> Option<Order>, create2: OrderOptions -> Option<Order>)
    requires !OrderParamsPresent(req)
    ensures CreateOrder(req, now, create1) == CreateOrder(req, now, create2)
  {
  }

  // ---------------------------------------------------------------- /verify

  datatype VerifyRequest = VerifyRequest(orderId: Option<string>, paymentId: Option<string>, signature: Option<string>)

  /** The provider's record of a payment. */
  datatype Payment = Payment(amount: int, status: string)

  const Captured: string := "captured"

  /** The text the checkout signs: `${orderId}|${paymentId}`. */
  function SignedText(orderId: string, paymentId: string): (t: string)
    ensures |t| == |orderId| + 1 + |paymentId|
    ensures t[|orderId|] == '|'
  {
    orderId + "|" + paymentId
  }

  /** With order ids free of `|`, the signed text names one order and one payment. */
  lemma SignedTextInjective(o1: string, p1: string, o2: string, p2: string)
    requires '|' !in o1 && '|' !in o2
    requires SignedText(o1, p1) == SignedText(o2, p2)
    ensures o1 == o2 && p1 == p2
  {
    var t := SignedText(o1, p1);
    assert o1 == t[..|o1|] == o2;
    assert p1 == t[|o1| + 1..] == p2;
  }

  /** Without that condition two different pairs share a signature. */
  lemma SignedTextAmbiguous()
    ensures SignedText("a|b", "c") == SignedText("a", "b|c")
  {
  }

  predicate VerifyParamsPresent(req: VerifyRequest)
  {
    Present(req.orderId) && Present(req.paymentId) && Present(req.signature)
  }

  /** The signature the server expects: `hmac(secret, text)` stands for the hex digest of
      HMAC-SHA256 keyed with the server secret. */
  predicate SignatureValid(req: VerifyRequest, secret: string, hmac: (string, string) -> string)
    requires VerifyParamsPresent(req)
  {
    hmac(secret, SignedText(req.orderId.value, req.paymentId.value)) == req.signature.value
  }

  /** `POST /verify`. `fetch` is the provider's payment record, `None` when the fetch fails. */
  function VerifyPayment(req: VerifyRequest, secret: string, hmac: (string, string) -> string, fetch: string -> Option<Payment>): (r: Reply)
    ensures !VerifyParamsPresent(req) <==> r == Reply(400, Failure("Missing payment verification parameters"))
    ensures VerifyParamsPresent(req) ==>
      (!SignatureValid(req, secret, hmac) <==> r == Reply(400, Failure("Invalid payment signature")))
    ensures VerifyParamsPresent(req) && SignatureValid(req, secret, hmac) ==>
      (r == NoReply <==> fetch(req.paymentId.value).None?)
    ensures VerifyParamsPresent(req) && SignatureValid(req, secret, hmac) && fetch(req.paymentId.value).Some? ==>
      (r == Reply(400, Failure("Payment not captured")) <==> fetch(req.paymentId.value).value.status != Captured)
    // success needs both checks, and reports the requested payment id with the provider's amount
    ensures Succeeded(r) <==>
      && VerifyParamsPresent(req) && SignatureValid(req, secret, hmac)
      && fetch(req.paymentId.value).Some? && fetch(req.paymentId.value).value.status == Captured
    ensures Succeeded(r) ==>
      r == Reply(200, PaymentVerified(req.paymentId.value, fetch(req.paymentId.value).value.amount, Captured))
  {
    if !VerifyParamsPresent(req) then Reply(400, Failure("Missing payment verification parameters"))
    else if hmac(secret, SignedText(req.orderId.value, req.paymentId.value)) != req.signature.value then
      Reply(400, Failure("Invalid payment signature"))
    else
      match fetch(req.paymentId.value)
      case None => NoReply
      case Some(payment) =>
        if payment.status != Captured then Reply(400, Failure("Payment not captured"))
        else Reply(200, PaymentVerified(req.paymentId.value, payment.amount, payment.status))
  }

  /** A tampered signature is refused whatever the provider would say: the payment is never fetched. */
  lemma BadSignatureSkipsProvider(req: VerifyRequest, secret: string, hmac: (string, string) -> string,
                                   fetch1: string -> Option<Payment>, fetch2: string -> Option<Payment>)
    requires VerifyParamsPresent(req) && !SignatureValid(req, secret, hmac)
    ensures VerifyPayment(req, secret, hmac, fetch1) == VerifyPayment(req, secret, hmac, fetch2)
    ensures !Succeeded(VerifyPayment(req, secret, hmac, fetch1))
  {
  }
}
