/** The bet page's `handlePlaceBet`: charge the entry fee through the payment service, then
    record the bet on the player's profile, open a fresh game session, and move to the game.
    Any failure on the way is shown to the player and recorded on the profile. */
module BetPage {
  import opened Common
  import opened Store
  import opened UserService
  import opened PaymentClient
  import Rules

  /** How each store call of one attempt goes: the profile read and write of the bet record,
      the session write, and the profile read and write of the error record. */
  datatype BetFaults = BetFaults(profileRead: Outcome, profileWrite: Outcome, sessionWrite: Outcome,
                                 errorRead: Outcome, errorWrite: Outcome)

  /** The profile fields a placed bet writes. */
  function BetProfileFields(uid: string, orderId: string): Doc
  {
    map["lastGameId" := Str(uid), "totalGamesPlayed" := Increment(1),
        "lastBetAmount" := Num(Rules.EntryFee), "lastPaymentId" := Str(orderId)]
  }

  /** The session record `games/{uid}`. */
  function SessionFields(user: User, orderId: string, now: int): Doc
  {
    map["userId" := Str(user.uid), "phoneNumber" := Str(user.phoneNumber), "betAmount" := Num(Rules.EntryFee),
        "startTime" := Time(now), "status" := Str("active"), "score" := Num(0), "orderId" := Str(orderId),
        "paymentStatus" := Str("completed"), "paymentTimestamp" := Time(now)]
  }

  /** The profile field a failed attempt writes. */
  function ErrorFields(message: string, now: int): Doc
  {
    map["lastPaymentError" := PaymentError(now, message)]
  }

  /** The message thrown at the payment step, if the payment did not succeed: a rejection's
      own message, or for `success: false` the response's message or "Payment failed". */
  function PaymentFailure(payment: Settled<PaymentResponse>): (m: Option<string>)
    ensures m.None? <==> payment.Resolved? && payment.value.success
    ensures payment.Rejected? ==> m == Some(payment.message)
    // `success: false`: the response's own message when it has a non-empty one, otherwise "Payment failed"
    ensures payment.Resolved? && !payment.value.success && payment.value.message.Some? && payment.value.message.value != "" ==>
      m == Some(payment.value.message.value)
    ensures payment.Resolved? && !payment.value.success && (payment.value.message.None? || payment.value.message.value == "") ==>
      m == Some("Payment failed")
  {
    match payment
    case Rejected(message) => Some(message)
    case Resolved(response) =>
      if response.success then None
      else Some(OrElse(if response.message.Some? then response.message.value else "", "Payment failed"))
  }

  /** The bet page shows exactly what the payment service reports: a rejection's message, or
      the message of a `success: false` answer, which is never empty, so the page's own
      "Payment failed" fallback is never used. In particular a missing checkout script reads "Razorpay SDK not
      loaded". */
  lemma BetReportsClientMessage(amount: int, user: Option<User>, gw: Gateway)
    ensures var r := InitiatePayment(amount, user, gw);
      && (r.Rejected? ==> PaymentFailure(r) == Some(r.message))
      && (r.Resolved? && !r.value.success ==> PaymentFailure(r) == Some(r.value.message.value))
    ensures user.Some? && !gw.sdkLoaded ==> PaymentFailure(InitiatePayment(amount, user, gw)) == Some("Razorpay SDK not loaded")
  {
    var r := InitiatePayment(amount, user, gw);
    if r.Resolved? && !r.value.success {
      assert r.value.message.Some? && r.value.message.value != "";
    }
  }

  /** A new bet replaces whatever session the player had: the stored session is active with
      score 0 and the fee of this bet, and nothing of an earlier run (its score, end time or
      payout) is left over. */
  lemma SessionStartsFresh(user: User, orderId: string, now: int)
    ensures var session := Overwrite(SessionFields(user, orderId, now));
      && session["status"] == Str("active") && session["score"] == Num(0)
      && session["betAmount"] == Num(Rules.EntryFee) && session["userId"] == Str(user.uid)
      && session["orderId"] == Str(orderId)
      && "endTime" !in session && "payoutAmount" !in session && "payoutCompletedAt" !in session
  {
    var d := SessionFields(user, orderId, now);
    assert d["status"] == Str("active") && d["score"] == Num(0) && d["betAmount"] == Num(Rules.EntryFee);
    assert d["userId"] == Str(user.uid) && d["orderId"] == Str(orderId);
  }

  /** A successful profile write of a bet counts one more game and records the fee and the order. */
  lemma BetCountsOneGame(users: map<string, Doc>, uid: string, orderId: string, now: int)
    requires uid in users ==> Concrete(users[uid])
    ensures var after := ProfileWritten(users, uid, BetProfileFields(uid, orderId), now, Ok, Ok);
      && uid in after
      && NumberAt(Some(after[uid]), "totalGamesPlayed")
         == Some((if NumberAt(Lookup(users, uid), "totalGamesPlayed").Some? then NumberAt(Lookup(users, uid), "totalGamesPlayed").value else 0) + 1)
      && after[uid]["lastBetAmount"] == Num(Rules.EntryFee)
      && after[uid]["lastPaymentId"] == Str(orderId)
  {
    var data := BetProfileFields(uid, orderId);
    assert data["totalGamesPlayed"] == Increment(1);
    ProfileWriteEffect(users, uid, data, now, "totalGamesPlayed");
    ProfileWriteEffect(users, uid, data, now, "lastBetAmount");
    ProfileWriteEffect(users, uid, data, now, "lastPaymentId");
  }

  /** The page's state: the spinner, the message shown, and where it has navigated. */
  class BetScreen {
    var loading: bool
    var error: string
    var route: Option<Route>

    constructor ()
      ensures !loading && error == "" && route == None
    {
      loading, error, route := false, "", None;
    }

    /** `handlePlaceBet`. `gw` stands for the payment service's world (server, checkout); `now`
        is the time every `new Date()` of the attempt reads. */
    method HandlePlaceBet(store: Firestore, user: Option<User>, gw: Gateway, now: int, faults: BetFaults)
      modifies this, store
      // no user: only the message changes, and no payment is tried
      ensures user.None? ==>
        && error == "Please login to place a bet" && loading == old(loading) && route == old(route)
        && store.users == old(store.users) && store.games == old(store.games) && store.log == old(store.log)
      ensures user.Some? ==> !loading
      // the payment failed: the error is shown and recorded, and neither the bet nor a session is written
      ensures user.Some? && PaymentFailure(InitiatePayment(Rules.EntryFee, user, gw)).Some? ==>
        var m := PaymentFailure(InitiatePayment(Rules.EntryFee, user, gw)).value;
        && error == OrElse(m, "Failed to process payment") && route == old(route)
        && store.games == old(store.games)
        && store.users == ProfileWritten(old(store.users), user.value.uid, ErrorFields(m, now), now, faults.errorRead, faults.errorWrite)
        && store.log == old(store.log)
             + (if faults.errorRead.Ok? && faults.errorWrite.Ok? then [Write(Users, user.value.uid, store.users[user.value.uid])] else [])
      // the payment succeeded: the profile is bumped first (its failure is ignored), then the session written
      ensures user.Some? && PaymentFailure(InitiatePayment(Rules.EntryFee, user, gw)).None? ==>
        var uid := user.value.uid;
        var orderId := InitiatePayment(Rules.EntryFee, user, gw).value.orderId.value;
        var bumped := ProfileWritten(old(store.users), uid, BetProfileFields(uid, orderId), now, faults.profileRead, faults.profileWrite);
        var profileLog := if faults.profileRead.Ok? && faults.profileWrite.Ok? then [Write(Users, uid, bumped[uid])] else [];
        && (faults.sessionWrite.Ok? ==>
              && route == Some(ToGame) && error == ""
              && store.users == bumped
              && store.games == old(store.games)[uid := Overwrite(SessionFields(user.value, orderId, now))]
              && store.log == old(store.log) + profileLog + [Write(Games, uid, Overwrite(SessionFields(user.value, orderId, now)))])
        && (faults.sessionWrite.Fail? ==>
              && route == old(route) && error == OrElse(faults.sessionWrite.message, "Failed to process payment")
              && store.games == old(store.games)
              && store.users == ProfileWritten(bumped, uid, ErrorFields(faults.sessionWrite.message, now), now, faults.errorRead, faults.errorWrite)
              && store.log == old(store.log) + profileLog
                   + (if faults.errorRead.Ok? && faults.errorWrite.Ok? then [Write(Users, uid, store.users[uid])] else []))
    {
      if user.None? {
        error := "Please login to place a bet";
        return;
      }
      loading := true;
      error := "";
      var u := user.value;
      var payment := InitiatePayment(Rules.EntryFee, user, gw);
      var failure := PaymentFailure(payment);
      if failure.None? {
        var orderId := payment.value.orderId.value;
        var _ := CreateOrUpdateUserProfile(store, u.uid, BetProfileFields(u.uid, orderId), now, faults.profileRead, faults.profileWrite);
        var written := store.Set(Games, u.uid, SessionFields(u, orderId, now), false, faults.sessionWrite);
        if written.Ok? {
          route := Some(ToGame);
        } else {
          failure := Some(written.message);
        }
      }
      if failure.Some? {
        error := OrElse(failure.value, "Failed to process payment");
        var _ := CreateOrUpdateUserProfile(store, u.uid, ErrorFields(failure.value, now), now, faults.errorRead, faults.errorWrite);
      }
      loading := false;
    }
  }
}
