/** The payout page: it loads the player's session, shows the earnings of its score, and on
    request pays them out, marking the session paid and crediting the player's profile. The
    payout status moves pending -> processing -> completed or failed. */
module PayoutPage {
  import opened Common
  import opened Store
  import opened PaymentClient
  import Rules

  datatype PayoutStatus = Pending | Processing | Completed | Failed

  /** What happens on the page, in order: status changes and the two payment calls. */
  datatype PayoutEvent =
    | StatusChanged(status: PayoutStatus)
    | PaymentInitiated(amount: int)
    | PaymentProcessed(amount: int)

  const ScoreKey: string := "score"

  /** `gameData ? Math.floor(gameData.score / 10) : 0`. A session without a numeric score gives
      NaN in the page, which the payout guard treats like 0; it is 0 here. */
  function EarningsOf(gameData: Option<Doc>): (e: int)
    ensures gameData.None? ==> e == 0
    ensures NumberAt(gameData, ScoreKey).Some? ==> 10 * e <= NumberAt(gameData, ScoreKey).value < 10 * e + 10
    ensures NumberAt(gameData, ScoreKey).None? ==> e == 0
  {
    if NumberAt(gameData, ScoreKey).Some? then Rules.Earnings(NumberAt(gameData, ScoreKey).value) else 0
  }

  /** The session fields a completed payout writes. */
  function PayoutGameFields(earnings: int, now: int): (d: Doc)
    ensures ScoreKey !in d
  {
    map["status" := Str("payout_completed"), "payoutAmount" := Num(earnings), "payoutCompletedAt" := Time(now)]
  }

  /** The profile fields a completed payout merges in, `updatedAt` included. */
  function PayoutProfileFields(earnings: int, now: int): Doc
  {
    map["totalEarnings" := Increment(earnings), "lastPayoutAmount" := Num(earnings),
        "lastPayoutDate" := Time(now), "updatedAt" := Time(now)]
  }

  /** How the calls of one payout go. `txnToken` and `processed` stand for the response's
      `txnToken` field and for `PaymentService.processPayment`, which the payment service does
      not define: an empty token is a missing one, and `processed` is how that call settles. */
  datatype PayoutFaults = PayoutFaults(txnToken: string, processed: Settled<bool>, gameWrite: Outcome, profileWrite: Outcome)

  /** The message thrown before any write, if the payment part of a payout fails. */
  function PaymentStageFailure(payment: Settled<PaymentResponse>, faults: PayoutFaults): (m: Option<string>)
    ensures m.None? <==> payment.Resolved? && payment.value.success && faults.txnToken != "" && faults.processed == Resolved(true)
    ensures payment.Rejected? ==> m == Some(payment.message)
    // an unsuccessful initiation or a missing token: the response's non-empty message, otherwise "Payment initiation failed"
    ensures payment.Resolved? && (!payment.value.success || faults.txnToken == "") ==>
      m == Some(if payment.value.message.Some? && payment.value.message.value != "" then payment.value.message.value
                else "Payment initiation failed")
    // `processPayment` rejects with its own message, or resolves false
    ensures payment.Resolved? && payment.value.success && faults.txnToken != "" && faults.processed.Rejected? ==>
      m == Some(faults.processed.message)
    ensures payment.Resolved? && payment.value.success && faults.txnToken != "" && faults.processed == Resolved(false) ==>
      m == Some("Payment processing failed")
  {
    match payment
    case Rejected(message) => Some(message)
    case Resolved(response) =>
      if !response.success || faults.txnToken == "" then
        Some(OrElse(if response.message.Some? then response.message.value else "", "Payment initiation failed"))
      else
        match faults.processed
        case Rejected(message) => Some(message)
        case Resolved(ok) => if ok then None else Some("Payment processing failed")
  }

  /** The payout page reports the payment service's own failure: a rejection's message, or the
      never-empty message of a `success: false` answer; a successful answer carries no message,
      so a missing token reads "Payment initiation failed". */
  lemma PayoutReportsClientMessage(amount: int, user: Option<User>, gw: Gateway, faults: PayoutFaults)
    ensures var r := InitiatePayment(amount, user, gw);
      && (r.Rejected? ==> PaymentStageFailure(r, faults) == Some(r.message))
      && (r.Resolved? && !r.value.success ==> PaymentStageFailure(r, faults) == Some(r.value.message.value))
      && (r.Resolved? && r.value.success && faults.txnToken == "" ==> PaymentStageFailure(r, faults) == Some("Payment initiation failed"))
  {
    var r := InitiatePayment(amount, user, gw);
    if r.Resolved? && !r.value.success {
      assert r.value.message.Some? && r.value.message.value != "";
    }
  }

  /** The events of the payment part: processing is announced before the first call, and
      `processPayment` is reached only with a successful initiation and a token. */
  function PaymentStageEvents(earnings: int, payment: Settled<PaymentResponse>, faults: PayoutFaults): (ev: seq<PayoutEvent>)
    ensures |ev| >= 2 && ev[0] == StatusChanged(Processing) && ev[1] == PaymentInitiated(earnings)
  {
    [StatusChanged(Processing), PaymentInitiated(earnings)]
    + (if payment.Resolved? && payment.value.success && faults.txnToken != "" then [PaymentProcessed(earnings)] else [])
  }

  /** A completed payout credits exactly the earnings to the profile's running total, and marks
      the session paid with that amount while keeping its score. */
  lemma PayoutCreditsEarnings(session: Doc, profile: Option<Doc>, earnings: int, now: int)
    ensures var game := MergeInto(Some(session), PayoutGameFields(earnings, now));
      && game["status"] == Str("payout_completed") && game["payoutAmount"] == Num(earnings)
      && NumberAt(Some(game), ScoreKey) == NumberAt(Some(session), ScoreKey)
    ensures NumberAt(Some(MergeInto(profile, PayoutProfileFields(earnings, now))), "totalEarnings")
         == Some((if NumberAt(profile, "totalEarnings").Some? then NumberAt(profile, "totalEarnings").value else 0) + earnings)
  {
    var g := PayoutGameFields(earnings, now);
    assert g["status"] == Str("payout_completed") && g["payoutAmount"] == Num(earnings);
    IncrementAdds(profile, PayoutProfileFields(earnings, now), "totalEarnings");
  }

  /** The two writes of a paid-out payout: mark the session paid (`updateDoc`, which fails on
      a missing session), then merge the credit into the profile. The first failure stops the
      sequence and its message is returned. */
  method RecordPayout(store: Firestore, uid: string, earnings: int, now: int, gameWrite: Outcome, profileWrite: Outcome)
    returns (failure: Option<string>)
    modifies store
    ensures var paid := old(store.games)[uid := MergeInto(Lookup(old(store.games), uid), PayoutGameFields(earnings, now))];
      var credited := old(store.users)[uid := MergeInto(Lookup(old(store.users), uid), PayoutProfileFields(earnings, now))];
      && (gameWrite.Fail? || uid !in old(store.games) ==>
            && failure == Some(if gameWrite.Fail? then gameWrite.message else "No document to update")
            && store.users == old(store.users) && store.games == old(store.games) && store.log == old(store.log))
      && (gameWrite.Ok? && uid in old(store.games) && profileWrite.Fail? ==>
            && failure == Some(profileWrite.message)
            && store.games == paid && store.users == old(store.users)
            && store.log == old(store.log) + [Write(Games, uid, paid[uid])])
      && (gameWrite.Ok? && uid in old(store.games) && profileWrite.Ok? ==>
            && failure == None
            && store.games == paid && store.users == credited
            && store.log == old(store.log) + [Write(Games, uid, paid[uid]), Write(Users, uid, credited[uid])])
  {
    var marked := store.Update(Games, uid, PayoutGameFields(earnings, now), gameWrite);
    if marked.Fail? {
      return Some(marked.message);
    }
    var credited := store.Set(Users, uid, PayoutProfileFields(earnings, now), true, profileWrite);
    failure := if credited.Fail? then Some(credited.message) else None;
  }

  class PayoutScreen {
    var gameData: Option<Doc>
    var loading: bool
    var error: string
    var status: PayoutStatus
    ghost var events: seq<PayoutEvent>

    constructor ()
      ensures gameData == None && loading && error == "" && status == Pending && events == []
    {
      gameData, loading, error, status := None, true, "", Pending;
      events := [];
    }

    /** `fetchGameData`. With nobody signed in it returns before its `finally`, so the page
        keeps loading. */
    method FetchGameData(store: Firestore, user: Option<User>, read: Outcome)
      modifies this
      ensures user.None? ==> loading == old(loading) && error == old(error) && gameData == old(gameData)
      ensures user.Some? ==> !loading
      ensures user.Some? && read.Fail? ==> error == "Failed to load game data" && gameData == old(gameData)
      ensures user.Some? && read.Ok? && user.value.uid !in store.games ==> error == "Game data not found" && gameData == old(gameData)
      ensures user.Some? && read.Ok? && user.value.uid in store.games ==> gameData == Some(store.games[user.value.uid]) && error == old(error)
      ensures status == old(status) && events == old(events)
    {
      if user.None? {
        return;
      }
      var got := store.Get(Games, user.value.uid, read);
      match got {
        case ReadFailed(_) => error := "Failed to load game data";
        case Missing => error := "Game data not found";
        case Found(d) => gameData := Some(d);
      }
      loading := false;
    }

    /** `handlePayout`. It looks at the earnings and the user only, never at the session's
        stored status. `gw` is the payment service's world; `now` the time of every `new Date()`. */
    method HandlePayout(store: Firestore, user: Option<User>, gw: Gateway, now: int, faults: PayoutFaults)
      modifies this, store
      ensures gameData == old(gameData) && loading == old(loading)
      // nothing to pay, or nobody signed in: nothing happens
      ensures EarningsOf(gameData) == 0 || user.None? ==>
        && status == old(status) && error == old(error) && events == old(events)
        && store.users == old(store.users) && store.games == old(store.games) && store.log == old(store.log)
      ensures EarningsOf(gameData) != 0 && user.Some? ==>
        var e := EarningsOf(gameData);
        var uid := user.value.uid;
        var payment := InitiatePayment(e, user, gw);
        var failure := PaymentStageFailure(payment, faults);
        var paid := old(store.games)[uid := MergeInto(Lookup(old(store.games), uid), PayoutGameFields(e, now))];
        var credited := old(store.users)[uid := MergeInto(Lookup(old(store.users), uid), PayoutProfileFields(e, now))];
        && |old(events)| <= |events| && events[..|old(events)|] == old(events)
        && events[|old(events)|..] == PaymentStageEvents(e, payment, faults) + [StatusChanged(status)]
        // the payment failed: no write at all
        && (failure.Some? ==>
              && status == Failed && error == OrElse(failure.value, "Failed to process payout")
              && store.users == old(store.users) && store.games == old(store.games) && store.log == old(store.log))
        // the session could not be marked paid: the profile is not credited
        && (failure.None? && (faults.gameWrite.Fail? || uid !in old(store.games)) ==>
              && status == Failed && error == OrElse(if faults.gameWrite.Fail? then faults.gameWrite.message else "No document to update", "Failed to process payout")
              && store.users == old(store.users) && store.games == old(store.games) && store.log == old(store.log))
        // the session is marked paid but the credit fails: the two records disagree
        && (failure.None? && faults.gameWrite.Ok? && uid in old(store.games) && faults.profileWrite.Fail? ==>
              && status == Failed && error == OrElse(faults.profileWrite.message, "Failed to process payout")
              && store.games == paid && store.users == old(store.users)
              && store.log == old(store.log) + [Write(Games, uid, paid[uid])])
        // a completed payout: the session first, then the profile, then the status
        && (failure.None? && faults.gameWrite.Ok? && uid in old(store.games) && faults.profileWrite.Ok? ==>
              && status == Completed && error == old(error)
              && store.games == paid && store.users == credited
              && store.log == old(store.log) + [Write(Games, uid, paid[uid]), Write(Users, uid, credited[uid])])
    {
      var e := EarningsOf(gameData);
      if e == 0 || user.None? {
        return;
      }
      status := Processing;
      var payment := InitiatePayment(e, user, gw);
      var failure := PaymentStageFailure(payment, faults);
      events := events + PaymentStageEvents(e, payment, faults);
      if failure.None? {
        failure := RecordPayout(store, user.value.uid, e, now, faults.gameWrite, faults.profileWrite);
      }
      if failure.Some? {
        error := OrElse(failure.value, "Failed to process payout");
        status := Failed;
      } else {
        status := Completed;
      }
      events := events + [StatusChanged(status)];
    }
  }
}
