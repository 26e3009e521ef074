# dinobet, modelled in Dafny

dinobet is a browser wagering arcade game. A player signs in by phone, pays a fixed entry fee
of 50 rupees through a payment provider, plays a dino-runner reflex game, and is paid
`floor(score / 10)` rupees afterwards. This project models the core of that system and proves
properties of the model:

- the game engine of the `useGame` hook: obstacle spawning and movement, the speed ramp,
  collision geometry, the jump/duck poses and the keyboard controls. It is a `Game` class whose
  methods change the hook's state in place, and each method is proved against a pure transition
  function on a `HookState` snapshot;
- the game page: touch controls, starting a run on opening, and saving the final score to the
  player's `games/{uid}` document;
- the bet page's `handlePlaceBet`: charge the fee, update the profile, open a fresh session;
- the payout page: loading the session, computing the earnings, and `handlePayout` with its
  payment calls and its two writes;
- the client's `PaymentService.initiatePayment`: create an order on the server, open the
  checkout, have the server verify the payment;
- the server's `/create-order` and `/verify` routes;
- the user-profile service, over a small model of the document store (merging and replacing
  writes, `updateDoc`, `increment`).

Every file is one module:

| file | module | models |
|---|---|---|
| common.dfy | Common | Option, settled promises, routes, JavaScript `||` on strings |
| rules.dfy | Rules | the entry fee and the earnings rule |
| store.dfy | Store | documents, field values, merge/overwrite/update, the `Firestore` class |
| user_service.dfy | UserService | `createOrUpdateUserProfile`, `getUserProfile` |
| game_engine.dfy | GameEngine | `useGame` |
| game_page.dfy | GamePage | the game page's touch handlers and score saving |
| payment_server.dfy | PaymentServer | the two payment routes |
| payment_client.dfy | PaymentClient | `initiatePayment` |
| bet_page.dfy | BetPage | `handlePlaceBet` |
| payout_page.dfy | PayoutPage | `fetchGameData`, the earnings, `handlePayout` |
| lifecycle.dfy | Lifecycle | the client wired to the server, and the session travelling bet → game → payout |

Lengths in the game engine are in half-units, twice the source's numbers. The speed step of
0.5 becomes 1, the default speed 5 becomes 10, the cap 20 becomes 40, and the track end 100
becomes 200. Every comparison the engine makes is strict and linear, so doubling both sides
keeps each collision and each drop exactly as the source computes it.

The environment is passed in as parameters:

- clocks (`Date.now()`, `new Date()`) are a `now` argument;
- the three `Math.random()` draws of a frame are a `Draws` value;
- the HMAC-SHA256 digest is a function `hmac(secret, text)`;
- the payment provider's `orders.create` and `payments.fetch` are functions;
- the client's `fetch` calls and the checkout widget are the fields of a `Gateway`;
- each store call's success or failure is an `Outcome` argument.

Behaviour of the code that the model keeps, and that a reader might not expect:

- The routes' own `catch` answers 500, but a provider error is rethrown inside the promise's
  `.catch`, outside that `try`, so no reply is sent at all. This is `NoReply` in
  `PaymentServer`. The client's `fetch` then fails, which is `NetworkError` in `Lifecycle`.
- `handlePayout` never reads the session's status, so paying out the same session again
  credits the earnings again (`Lifecycle.SecondPayoutNotRefused`).
- `jump` refuses while ducking, but `duck` does not look at the jump flag, so a dino in the
  air can duck and is then both airborne and ducking (`GameEngine.PoseStepsKeepInv`).
- The payout page's loading flag is cleared in a `finally`. `fetchGameData` returns before
  its `try` when nobody is signed in, so loading then stays on
  (`PayoutPage.PayoutScreen.FetchGameData`).
- A successful payout does not clear an earlier error message.
- The payout's payment is `initiatePayment(earnings)`, the same checkout the bet page uses, so
  it charges the player the earnings instead of paying them. When that charge goes through,
  the missing `txnToken` fails the payout before anything is written
  (`Lifecycle.PayoutChargesThePlayer`).
- A touch on the play area compares its viewport y (`clientY`) with half the play area's
  height. Where the play area sits on the screen is ignored, so the split is not the area's
  middle, and if the area starts lower than half its own height, no touch on it jumps.
- A cactus reaches into a grounded dino's column from the moment it spawns, so every cactus
  must be jumped at once (`GameEngine.GroundedDinoHitsCactus`, `GameEngine.UnjumpedCactusEndsRun`).

## Model

| member | source | states |
|---|---|---|
| Common.OrElse | src/services/PaymentService.ts:119 | `s || fallback` keeps a non-empty `s` and replaces only the empty string by the fallback |
| Rules.Earnings | src/pages/Game.tsx:88 | the earnings `e` of a score satisfy `10e <= score < 10e + 10` and are non-negative for a non-negative score |
| Rules.EarningsUnique | src/pages/Game.tsx:88 | that property pins the earnings down: it is the floor of score/10 and nothing else |
| Rules.EarningsMonotone | src/pages/Game.tsx:88 | a higher score never earns less |
| Rules.EarningsExamples | src/pages/Payout.tsx:25 | scores 0, 9, 10, 450 and 455 earn 0, 0, 1, 45 and 45 |
| Store.Resolve | src/pages/Bet.tsx:47 | a written `increment(n)` becomes a number, and any other written value is stored as given |
| Store.MergeInto | src/services/UserService.ts:35 | a merging write keeps every stored key, adds the written ones, stores each written value as resolved against the old one, and leaves unwritten fields as stored |
| Store.Overwrite | src/pages/Bet.tsx:53 | a replacing write leaves exactly the written keys, with their values |
| Store.IncrementAdds | src/pages/Payout.tsx:85 | a merged `increment(n)` adds n to the stored number, or sets n where there was none |
| Store.Firestore.Get | src/services/UserService.ts:47 | a read returns the stored document, its absence, or the call's failure |
| Store.Firestore.Set | src/services/UserService.ts:35 | a successful `setDoc` replaces or merges one document, touches no other collection, and logs the write; a failed one changes nothing |
| Store.Firestore.Update | src/pages/Payout.tsx:77-81 | `updateDoc` succeeds exactly when the call succeeds and the document exists; it fails with "No document to update" on a missing document and then changes nothing |
| UserService.MergeProfile | src/services/UserService.ts:19-32 | the built profile carries every supplied field, keeps every stored field not supplied, stamps `updatedAt`, stamps `createdAt` exactly on first creation, and has no other key |
| UserService.ProfileWriteEffect | src/services/UserService.ts:23-35 | after a successful profile write each supplied field holds its value, an increment adds to the stored number, and untouched stored fields survive |
| UserService.CreateOrUpdateUserProfile | src/services/UserService.ts:14-42 | returns true exactly when the read and the write succeed, and then the profile is the merged one and the write is logged; any failure returns false and changes nothing |
| UserService.GetUserProfile | src/services/UserService.ts:44-57 | gives the stored profile, or none when it is absent or the read fails |
| GameEngine.Intersects | src/hooks/useGame.ts:165-170 | the strict overlap test holds whenever some unit cell lies inside both boxes, and for boxes of positive size only then |
| GameEngine.IntersectsProperties | src/hooks/useGame.ts:165-170 | overlap is symmetric, and boxes that only share an edge do not collide |
| GameEngine.Hits | src/hooks/useGame.ts:157-171 | a collision is reported exactly when some obstacle's box overlaps the dino's box |
| GameEngine.DuckingDinoClearsBirds | src/hooks/useGame.ts:150-170 | a ducking dino on the ground passes under every bird, while a standing one hits a low bird it overlaps horizontally |
| GameEngine.JumpingDinoClearsCacti | src/hooks/useGame.ts:150-170 | a jumping dino never hits a cactus |
| GameEngine.DinoRect | src/hooks/useGame.ts:150-155 | the dino's box stays in its column with its width; it is lifted exactly while jumping, and its height is the pose's |
| GameEngine.ObstacleRect | src/hooks/useGame.ts:158-163 | an obstacle's left edge is the track end minus its position; a cactus stands on the ground with the cactus size, a bird flies at its altitude with the bird size |
| GameEngine.GroundedDinoHitsCactus | src/hooks/useGame.ts:150-170 | every cactus on the first 80 units of the track overlaps a dino on the ground, standing or ducking |
| GameEngine.Advance | src/hooks/useGame.ts:140-147 | the move keeps exactly the input obstacles that stay short of the track end, each moved by the speed, and nothing else |
| GameEngine.AdvanceKeepsOrder | src/hooks/useGame.ts:140-147 | survivors keep their relative order (ids stay increasing) |
| GameEngine.AdvanceAppend | src/hooks/useGame.ts:135-147 | an obstacle appended before the move ends up last, moved, if it survives |
| GameEngine.RampSpeed | src/hooks/useGame.ts:120-123 | the speed rises by half a unit exactly when the pre-frame score is a multiple of 100, and never passes the cap |
| GameEngine.SpeedAfter | src/hooks/useGame.ts:115-123 | the speed of a run stays between its initial value and the cap |
| GameEngine.SpeedClosedForm | src/hooks/useGame.ts:115-123 | after n frames the speed is the initial speed plus one step per multiple of 100 crossed, capped |
| GameEngine.StartStep | src/hooks/useGame.ts:29-40 | starting plays from score 0 at the initial speed on an empty track, with id counter and spawn clock reset, requests the next frame, and keeps the high score, the pose (jumping, ducking, dino height) and the invariant |
| GameEngine.EndStep | src/hooks/useGame.ts:42-57 | ending stops play, requests no further frame, makes the high score the maximum of the old high score and the score, and keeps the score, the track, the speed and the pose |
| GameEngine.LandStep | src/hooks/useGame.ts:62-64 | the dino is on the ground afterwards, and nothing else changes |
| GameEngine.JumpStep | src/hooks/useGame.ts:59-66 | the dino is airborne afterwards exactly when it was or a jump was allowed (playing, on the ground, not ducking), and nothing else changes |
| GameEngine.DuckStep | src/hooks/useGame.ts:68-73 | the dino ducks afterwards exactly when it did or the run is on, a new duck shrinks the box to the short height, and nothing else changes |
| GameEngine.StopDuckStep | src/hooks/useGame.ts:75-80 | the dino stands afterwards, at full height if it was ducking, and nothing else changes |
| GameEngine.PoseStepsKeepInv | src/hooks/useGame.ts:59-80 | the pose transitions keep the invariant; a ducking dino cannot jump, but an airborne one can duck |
| GameEngine.KeyDownIntent | src/hooks/useGame.ts:84-92 | Space or ArrowUp jump and ArrowDown ducks exactly while playing; Enter starts exactly when not playing |
| GameEngine.FrameStep | src/hooks/useGame.ts:113-178 | a frame adds one to the score, ramps the speed from the pre-frame score, spawns at most one obstacle with the next id and the current time, ends the run exactly on a collision with the pre-frame track, and never touches the pose |
| GameEngine.NewObstacle | src/hooks/useGame.ts:128-133 | a new obstacle enters at position 0 with the counter's id and the drawn kind, at the low altitude exactly when drawn so, otherwise the high one |
| GameEngine.SpawnedObstacleIsLast | src/hooks/useGame.ts:127-136 | a spawned obstacle enters at position 0 with the counter's id and is the last on the track after the frame's move |
| GameEngine.SpawnKeepsTrack | src/hooks/useGame.ts:127-136 | appending the spawned obstacle keeps ids increasing and below the advanced counter |
| GameEngine.AdvanceKeepsOk | src/hooks/useGame.ts:140-147 | moving by a non-negative speed keeps every survivor on the track with a valid id and altitude |
| GameEngine.FrameKeepsInv | src/hooks/useGame.ts:113-178 | a frame keeps the invariant: ids increasing and below the counter, positions on the track, the speed equal to the ramp of the score |
| GameEngine.UnjumpedCactusEndsRun | src/hooks/useGame.ts:113-178 | a cactus spawned in a run's first frame ends the run in the second frame, at score 2, unless the dino jumps |
| GameEngine.HighScoreNeverDecreases | src/hooks/useGame.ts:42-57 | no frame, key or landing lowers the high score |
| GameEngine.Game.constructor | src/hooks/useGame.ts:10-27 | the hook starts idle at score 0 with the given speed, an empty track and a standing dino |
| GameEngine.Game.StartGame | src/hooks/useGame.ts:29-40 | the new state is the start transition of the old one, and the invariant holds |
| GameEngine.Game.EndGame | src/hooks/useGame.ts:42-57 | the new state is the end transition of the old one |
| GameEngine.Game.Jump | src/hooks/useGame.ts:59-66 | the new state is the jump transition of the old one |
| GameEngine.Game.Land | src/hooks/useGame.ts:62-64 | the jump timer puts the dino back on the ground |
| GameEngine.Game.Duck | src/hooks/useGame.ts:68-73 | the new state is the duck transition of the old one |
| GameEngine.Game.StopDucking | src/hooks/useGame.ts:75-80 | the new state is the stand-up transition of the old one |
| GameEngine.Game.KeyDown | src/hooks/useGame.ts:84-92 | a key press performs the transition its intent names |
| GameEngine.Game.KeyUp | src/hooks/useGame.ts:94-98 | releasing ArrowDown stands the dino up; other keys do nothing |
| GameEngine.Game.Tick | src/hooks/useGame.ts:114-147 | score, speed, spawn and movement of one frame, in place |
| GameEngine.Game.Frame | src/hooks/useGame.ts:113-178 | one animation frame performs the frame transition in place, keeps the invariant, and reports a collision exactly when the pre-frame track hit the pre-frame pose |
| GamePage.TouchIntent | src/pages/Game.tsx:31-43 | while playing, a touch whose viewport y (`clientY`) is less than half the play area's height jumps and any other touch ducks; when not playing a touch does nothing |
| GamePage.TouchIsLikeKeys | src/pages/Game.tsx:31-43 | a touch whose viewport y is less than half the play area's height acts as Space, any other as ArrowDown, and a touch never starts a run |
| GamePage.HandleTouchStart | src/pages/Game.tsx:31-43 | the game's new state is the touch transition of the old one, and the invariant holds |
| GamePage.HandleTouchEnd | src/pages/Game.tsx:45-47 | lifting the finger stands the dino up |
| GamePage.OpenPage | src/pages/Game.tsx:24-27 | opening the page creates the hook at the default speed and starts a run |
| GamePage.ScoreSaveCompletesSession | src/pages/Game.tsx:68-72 | saving stores the final score, "completed" and the end time, and keeps every other session field |
| GamePage.SaveScoreOnGameOver | src/pages/Game.tsx:64-85 | the payout redirect is scheduled exactly when the run is over, a player is signed in, and the update of an existing session succeeds; otherwise nothing is written |
| PaymentServer.Round | server/routes/payment.ts:43 | `Math.round` gives the integer nearest to x, halves rounded up |
| PaymentServer.RoundWhole | server/routes/payment.ts:43 | a whole amount in paise is sent to the provider unchanged |
| PaymentServer.Decimal | server/routes/payment.ts:45 | the timestamp is printed as a non-empty string of digits |
| PaymentServer.ParseDecimalOfDecimal | server/routes/payment.ts:45 | reading the printed timestamp back gives the timestamp |
| PaymentServer.ReceiptRoundTrip | server/routes/payment.ts:45 | the receipt splits back into the user id and the timestamp, even for a user id containing underscores |
| PaymentServer.OptionsFor | server/routes/payment.ts:42-49 | the provider is asked for the rounded amount, the given currency and the given user, under a receipt that names that user and the time |
| PaymentServer.CreateOrder | server/routes/payment.ts:29-73 | missing parameters give 400 "Missing required parameters" and nothing else does; otherwise the reply carries the provider's order for exactly these options, or nothing when the provider fails |
| PaymentServer.MissingParamsSkipProvider | server/routes/payment.ts:31-39 | a refused request does not depend on the provider |
| PaymentServer.SignedText | server/routes/payment.ts:91 | the signed text is the order id, a bar, and the payment id |
| PaymentServer.SignedTextInjective | server/routes/payment.ts:91-95 | with order ids free of bars, equal signed texts mean the same order and payment |
| PaymentServer.SignedTextAmbiguous | server/routes/payment.ts:91 | without that condition two different pairs share a signed text |
| PaymentServer.VerifyPayment | server/routes/payment.ts:78-133 | each check fails with its own 400 message, a failed fetch gives no reply, and success holds exactly when the parameters are present, the HMAC matches and the provider reports the payment captured |
| PaymentServer.BadSignatureSkipsProvider | server/routes/payment.ts:97-111 | a bad signature is refused whatever the provider would report |
| PaymentClient.CheckoutStage | src/services/PaymentService.ts:57-113 | the checkout promise resolves only after a paid checkout, with success and the paid order id; a dismissal rejects with "Payment cancelled by user", a failed payment with its description, an unreachable verification with the fetch's error, and a verification without success with "Payment verification failed" |
| PaymentClient.InitiatePayment | src/services/PaymentService.ts:19-122 | no user rejects with "User not authenticated"; a missing SDK resolves unsuccessful; success holds exactly when the order was created, the checkout paid and the verification succeeded; a failed order creation resolves unsuccessful with the fetch's error, the server's message or "Failed to create order" for a non-OK status, and the server's message or "Payment initiation failed" for `success: false`; a created order goes on to the checkout stage; rejections after sign-in come only from that stage |
| PaymentClient.CheckoutFailuresReject | src/services/PaymentService.ts:57-113 | once the order exists every failure rejects rather than resolving unsuccessful: a dismissed checkout with "Payment cancelled by user", a failed payment with its description, an unreachable verification with the fetch's error, a verification without success with "Payment verification failed" |
| BetPage.PaymentFailure | src/pages/Bet.tsx:24-28 | the bet goes on exactly when the payment resolved with success; a rejection reports its own message, and `success: false` reports the response's non-empty message, otherwise "Payment failed" |
| BetPage.BetReportsClientMessage | src/pages/Bet.tsx:24-28 | for every result of the payment service, the page reports exactly the service's rejection or failure message ("Razorpay SDK not loaded", "Failed to create order", "Payment initiation failed", …), since a `success: false` answer always carries a non-empty message |
| BetPage.SessionStartsFresh | src/pages/Bet.tsx:30-42 | the new session is active with score 0 and this bet's fee and order, with nothing of an earlier run left over |
| BetPage.BetCountsOneGame | src/pages/Bet.tsx:44-50 | a placed bet adds one to the games played and records the fee and the order |
| BetPage.BetScreen.constructor | src/pages/Bet.tsx:10-11 | the page starts not loading and without a message |
| BetPage.BetScreen.HandlePlaceBet | src/pages/Bet.tsx:14-72 | without a user only the message changes; a failed payment shows and records the error and writes neither bet nor session; a paid bet bumps the profile, writes the session and moves to the game, or shows and records the session write's error; the write log holds exactly the writes that succeeded, in order |
| PayoutPage.EarningsOf | src/pages/Payout.tsx:25 | the earnings of a loaded session are the floor of its score over 10, and 0 with no session |
| PayoutPage.PayoutGameFields | src/pages/Payout.tsx:77-81 | marking the session paid never writes its score |
| PayoutPage.PaymentStageFailure | src/pages/Payout.tsx:58-74 | the payment part goes through exactly when initiation succeeded with a token and processing resolved true; otherwise it reports a rejection's own message, the initiation answer's non-empty message or else "Payment initiation failed" when initiation failed or no token came back, `processPayment`'s rejection message, or "Payment processing failed" when it resolved false |
| PayoutPage.PayoutReportsClientMessage | src/pages/Payout.tsx:58-62 | for every result of the payment service, the payout reports the service's own rejection or failure message, and a successful answer without a token reads "Payment initiation failed" |
| PayoutPage.PaymentStageEvents | src/pages/Payout.tsx:54-70 | processing is announced first, and the payment is initiated for the earnings |
| PayoutPage.PayoutCreditsEarnings | src/pages/Payout.tsx:77-88 | a completed payout marks the session paid with the earnings, keeps its score, and adds exactly the earnings to the profile's total |
| PayoutPage.RecordPayout | src/pages/Payout.tsx:76-88 | the session is marked paid first and the profile credited second; the first failed write stops the sequence and its message is returned |
| PayoutPage.PayoutScreen.constructor | src/pages/Payout.tsx:16-20 | the page starts loading, with no session, no message and status pending |
| PayoutPage.PayoutScreen.FetchGameData | src/pages/Payout.tsx:29-46 | a signed-in load shows the session, or "Game data not found", or "Failed to load game data", and ends loading; with nobody signed in nothing changes |
| PayoutPage.PayoutScreen.HandlePayout | src/pages/Payout.tsx:51-97 | nothing happens without earnings or a user; a failed payment writes nothing; a failed session write credits nothing; a completed payout writes the session then the profile and ends completed |
| Lifecycle.SuccessMeansSignedAndCaptured | src/services/PaymentService.ts:65-90 | against this server, a successful payment means the order was created, the checkout's signature is the keyed HMAC of the paid order and payment, and the provider holds the payment captured |
| Lifecycle.ProviderChargesPaise | server/routes/payment.ts:42-49 | the provider is asked for exactly 100 times the rupee amount, in INR, on the user's behalf |
| Lifecycle.ZeroAmountRefused | server/routes/payment.ts:34-39 | a zero amount is refused by the server and reported by the client as "Missing required parameters" |
| Lifecycle.CancelledCheckoutFailsBet | src/pages/Bet.tsx:24-28 | closing the checkout fails the bet with "Payment cancelled by user" |
| Lifecycle.SavedScoreIsPaidOut | src/pages/Payout.tsx:25 | the session the bet page opens, once the game page saves a score into it, pays out the earnings of that score |
| Lifecycle.FourHundredFiftyEarnsFortyFive | src/pages/Payout.tsx:25 | a run that ends at score 450 is paid 45 |
| Lifecycle.PayoutChargesThePlayer | src/pages/Payout.tsx:58-62 | a payout whose payment goes through has charged the player 100 × earnings paise through a paid checkout, and then fails with "Payment initiation failed" for want of a `txnToken` |
| Lifecycle.SecondPayoutNotRefused | src/pages/Payout.tsx:52 | paying out does not change what the session earns, so a second payout of the same session is not refused and credits the earnings again |

## Left out

- Rendering, styling and routing of the pages are not modelled. A navigation is a `Route` value, and the 2-second redirect timer is the returned route.
- The phone-number login page, the static policy pages, and the server's bootstrap and configuration are not part of this model.
- The `/test-connection` route is not modelled: it only reports the provider's reachability.
- Scheduling is not modelled. `requestAnimationFrame` is the `frameRequested` flag, one frame is one call of `Frame`, and the 500 ms jump timer is the separate `Land` event.
- `Math.random()` and the clocks are parameters; no distribution is modelled.
- React's effect re-runs and stale closures are not modelled beyond what the source's own closures read: the ramp's pre-frame score, the pre-frame speed and obstacle list, and the pre-frame pose.
- Each handler reads a single `now` for all its `new Date()` calls.
- The HMAC digest, the provider's SDK calls, the checkout widget and `fetch` are uninterpreted functions.
- Non-number and NaN amounts in a request body are not modelled. An amount is a real number or missing.
- A payment `fetch` that the server never answers is modelled as the client's `NetworkError("Failed to fetch")`; a real browser would wait for a timeout.
- The routes' 500 replies are not modelled: no statement of the routes themselves throws, and the provider's SDK calls are modelled as returning an order or a payment, or failing asynchronously; a synchronous throw from the SDK, which would reach the 500, is not modelled.
- PayoutPage.PayoutScreen.HandlePayout: the `txnToken` field and `PaymentService.processPayment` are not defined by the payment service, so they are the abstract `PayoutFaults` fields. With the service as written the token is always missing, so every payout fails: with "Payment initiation failed" when the payment succeeds, and otherwise with the payment's own message ("Payment cancelled by user", say).
- PayoutPage.EarningsOf: a session without a numeric score earns NaN in the page, which the payout guard treats as no earnings; the model gives 0.
- PayoutPage.PayoutScreen.HandlePayout: the page shows the payout button only while the status is pending and a UPI id is entered. That is a rendering guard, not a check in the handler, so the model does not carry it.
- The payout page's `createOrUpdateUserProfile` (src/utils/userProfile.ts) is modelled inline as the merging write in `RecordPayout`.
- The player's phone number is always a string; a `null` phone number is not modelled.
- Console logging of errors is left out everywhere.
- Store.Firestore.Update: the store's message for a missing document also names the document's path; the model keeps only its fixed prefix, "No document to update".
