/** How the pieces fit: the client's payment service talking to this server, and the session
    record travelling from the bet page through the game page to the payout page. */
module Lifecycle {
  import opened Common
  import opened Store
  import opened PaymentServer
  import opened PaymentClient
  import Rules
  import GamePage
  import BetPage
  import PayoutPage

  /** The message of a `fetch` whose request the server never answers. */
  const Dropped: string := "Failed to fetch"

  /** A server reply as the client's `fetch` sees it. */
  function AsHttp(r: Reply): HttpResult
  {
    match r
    case NoReply => NetworkError(Dropped)
    case Reply(status, body) => Response(status, body)
  }

  /** The client's world when its two `fetch` calls reach this server, which in turn talks to the
      provider (`create`, `fetch`) and signs with `secret`. */
  function ServerGateway(sdkLoaded: bool, now: nat, create: OrderOptions -> Option<Order>,
                         checkout: CheckoutOptions -> CheckoutOutcome,
                         secret: string, hmac: (string, string) -> string, fetch: string -> Option<Payment>): Gateway
  {
    Gateway(sdkLoaded,
            req => AsHttp(CreateOrder(req, now, create)),
            checkout,
            req => AsHttp(VerifyPayment(req, secret, hmac, fetch)))
  }

  /** A successful payment is one the provider signed and captured: the checkout reported a
      payment whose signature is the keyed HMAC of `orderId|paymentId`, the provider holds it as
      captured, and the order id reported is the one signed. */
  lemma SuccessMeansSignedAndCaptured(amount: int, user: User, sdkLoaded: bool, now: nat, create: OrderOptions -> Option<Order>,
                                      checkout: CheckoutOptions -> CheckoutOutcome,
                                      secret: string, hmac: (string, string) -> string, fetch: string -> Option<Payment>)
    requires var r := InitiatePayment(amount, Some(user), ServerGateway(sdkLoaded, now, create, checkout, secret, hmac, fetch));
      r.Resolved? && r.value.success
    ensures var gw := ServerGateway(sdkLoaded, now, create, checkout, secret, hmac, fetch);
      var r := InitiatePayment(amount, Some(user), gw);
      var order := create(OptionsFor(OrderRequest(amount, user), now));
      && OrderParamsPresent(OrderRequest(amount, user)) && order.Some?
      && var paid := checkout(CheckoutOptions(Paise(amount), Currency, Some(order.value.id)));
      && paid.Paid?
      && hmac(secret, SignedText(paid.orderId, paid.paymentId)) == paid.signature
      && fetch(paid.paymentId).Some? && fetch(paid.paymentId).value.status == Captured
      && r.value.orderId == Some(paid.orderId)
  {
    var gw := ServerGateway(sdkLoaded, now, create, checkout, secret, hmac, fetch);
    var req := OrderRequest(amount, user);
    var created := CreateOrder(req, now, create);
    assert gw.createOrder(req) == AsHttp(created);
    assert Succeeded(created);
    var paid := checkout(CheckoutOptions(Paise(amount), Currency, BodyOrderId(AsHttp(created).body)));
    var vreq := VerifyRequest(Some(paid.orderId), Some(paid.paymentId), Some(paid.signature));
    assert gw.verify(vreq) == AsHttp(VerifyPayment(vreq, secret, hmac, fetch));
    assert Succeeded(VerifyPayment(vreq, secret, hmac, fetch));
  }

  /** Rupees become paise once: the provider is asked for exactly 100 times the amount, in
      rupees' currency, on the user's behalf. */
  lemma ProviderChargesPaise(amount: int, user: User, now: nat)
    requires amount != 0 && user.uid != ""
    ensures OrderParamsPresent(OrderRequest(amount, user))
    ensures var o := OptionsFor(OrderRequest(amount, user), now);
      o.amount == 100 * amount && o.currency == "INR" && o.notesUserId == user.uid
  {
    RoundWhole(Paise(amount));
  }

  /** A zero amount never reaches the provider: the server refuses it and the client reports
      the server's message. */
  lemma ZeroAmountRefused(user: User, now: nat, create: OrderOptions -> Option<Order>,
                          checkout: CheckoutOptions -> CheckoutOutcome,
                          secret: string, hmac: (string, string) -> string, fetch: string -> Option<Payment>)
    ensures InitiatePayment(0, Some(user), ServerGateway(true, now, create, checkout, secret, hmac, fetch))
         == Resolved(PaymentResponse(false, None, Some("Missing required parameters")))
  {
    var gw := ServerGateway(true, now, create, checkout, secret, hmac, fetch);
    assert gw.createOrder(OrderRequest(0, user)) == Response(400, Failure("Missing required parameters"));
  }

  /** Closing the checkout fails the bet with "Payment cancelled by user": the bet page then
      writes neither the bet nor a session. */
  lemma CancelledCheckoutFailsBet(user: User, gw: Gateway)
    requires gw.sdkLoaded
    requires gw.createOrder(OrderRequest(Rules.EntryFee, user)).Response?
    requires HttpOk(gw.createOrder(OrderRequest(Rules.EntryFee, user)).status)
    requires BodySuccess(gw.createOrder(OrderRequest(Rules.EntryFee, user)).body)
    requires gw.checkout(CheckoutOptions(Paise(Rules.EntryFee), Currency, BodyOrderId(gw.createOrder(OrderRequest(Rules.EntryFee, user)).body))).Dismissed?
    ensures BetPage.PaymentFailure(InitiatePayment(Rules.EntryFee, Some(user), gw)) == Some("Payment cancelled by user")
  {
    CheckoutFailuresReject(Rules.EntryFee, user, gw);
  }

  /** The session the bet page opens, once the game page has saved a final score into it, pays
      out the earnings of that score. */
  lemma SavedScoreIsPaidOut(user: User, orderId: string, started: int, score: int, ended: int)
    ensures var session := Overwrite(BetPage.SessionFields(user, orderId, started));
      var saved := MergeInto(Some(session), GamePage.ScoreFields(score, ended));
      PayoutPage.EarningsOf(Some(saved)) == Rules.Earnings(score)
  {
    var session := Overwrite(BetPage.SessionFields(user, orderId, started));
    GamePage.ScoreSaveCompletesSession(session, score, ended);
  }

  /** The worked example: a run that ends at score 450 earns 45. */
  lemma FourHundredFiftyEarnsFortyFive(user: User, orderId: string, started: int, ended: int)
    ensures var saved := MergeInto(Some(Overwrite(BetPage.SessionFields(user, orderId, started))), GamePage.ScoreFields(450, ended));
      PayoutPage.EarningsOf(Some(saved)) == 45
  {
    SavedScoreIsPaidOut(user, orderId, started, 450, ended);
  }

  /** The payout's "payment" is the same checkout the bet uses, so it charges the player the
      earnings (in paise) rather than paying them. When that charge goes through, the missing
      `txnToken` then fails the payout with "Payment initiation failed", before any write. */
  lemma PayoutChargesThePlayer(earnings: int, user: User, sdkLoaded: bool, now: nat, create: OrderOptions -> Option<Order>,
                               checkout: CheckoutOptions -> CheckoutOutcome,
                               secret: string, hmac: (string, string) -> string, fetch: string -> Option<Payment>,
                               faults: PayoutPage.PayoutFaults)
    requires faults.txnToken == ""
    requires var r := InitiatePayment(earnings, Some(user), ServerGateway(sdkLoaded, now, create, checkout, secret, hmac, fetch));
      r.Resolved? && r.value.success
    ensures var order := create(OptionsFor(OrderRequest(earnings, user), now));
      && OrderParamsPresent(OrderRequest(earnings, user)) && order.Some?
      && OptionsFor(OrderRequest(earnings, user), now).amount == 100 * earnings
      && checkout(CheckoutOptions(100 * earnings, Currency, Some(order.value.id))).Paid?
    ensures var r := InitiatePayment(earnings, Some(user), ServerGateway(sdkLoaded, now, create, checkout, secret, hmac, fetch));
      PayoutPage.PaymentStageFailure(r, faults) == Some("Payment initiation failed")
  {
    SuccessMeansSignedAndCaptured(earnings, user, sdkLoaded, now, create, checkout, secret, hmac, fetch);
    RoundWhole(Paise(earnings));
  }

  /** Paying out does not change what the session earns, and the payout guard reads nothing
      else: a second payout of the same session (after the page is opened again) is not
      refused, and two completed payouts credit the earnings twice. */
  lemma SecondPayoutNotRefused(session: Doc, profile: Option<Doc>, now1: int, now2: int)
    ensures var e := PayoutPage.EarningsOf(Some(session));
      var paid := MergeInto(Some(session), PayoutPage.PayoutGameFields(e, now1));
      PayoutPage.EarningsOf(Some(paid)) == e
    ensures var e := PayoutPage.EarningsOf(Some(session));
      var once := MergeInto(profile, PayoutPage.PayoutProfileFields(e, now1));
      var twice := MergeInto(Some(once), PayoutPage.PayoutProfileFields(e, now2));
      NumberAt(Some(twice), "totalEarnings")
        == Some((if NumberAt(profile, "totalEarnings").Some? then NumberAt(profile, "totalEarnings").value else 0) + 2 * e)
  {
    var e := PayoutPage.EarningsOf(Some(session));
    PayoutPage.PayoutCreditsEarnings(session, profile, e, now1);
    var once := MergeInto(profile, PayoutPage.PayoutProfileFields(e, now1));
    var before := if NumberAt(profile, "totalEarnings").Some? then NumberAt(profile, "totalEarnings").value else 0;
    assert NumberAt(Some(once), "totalEarnings") == Some(before + e);
    PayoutPage.PayoutCreditsEarnings(session, Some(once), e, now2);
  }
}
