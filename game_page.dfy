/** The game page: it starts a run when it opens, turns touches on the play area into
    jumps and ducks, and once the run is over records the final score on the player's
    game document and schedules the move to the payout page. */
module GamePage {
  import opened Common
  import opened Store
  import opened GameEngine

  // ---------------------------------------------------------------- touch controls

  /** `handleTouchStart`: nothing unless a run is in progress; otherwise `touchY / containerHeight`
      decides, where `touchY` is the touch's `clientY`, measured from the top of the viewport
      and not from the top of the play area. A ratio below one half jumps, anything else
      ducks, so where the play area sits on the screen is ignored. A missing container counts
      as height 0, where JavaScript's division gives -Infinity for a negative touch (a jump),
      +Infinity for a positive one and NaN for 0 (both ducks, as `NaN < 0.5` is false). */
  function TouchIntent(isPlaying: bool, touchY: real, containerHeight: nat): (i: Intent)
    // a touch whose viewport y is less than half the play area's height jumps, any other ducks
    ensures i == JumpIntent <==> isPlaying && 2.0 * touchY < containerHeight as real
    ensures i == DuckIntent <==> isPlaying && 2.0 * touchY >= containerHeight as real
    ensures !isPlaying <==> i == NoIntent
  {
    if !isPlaying then NoIntent
    else if containerHeight == 0 then (if touchY < 0.0 then JumpIntent else DuckIntent)
    else if touchY / containerHeight as real < 0.5 then JumpIntent
    else DuckIntent
  }

  /** The hook's state after a touch begins. */
  function TouchStartStep(s: HookState, touchY: real, containerHeight: nat): HookState
  {
    match TouchIntent(s.isPlaying, touchY, containerHeight)
    case JumpIntent => JumpStep(s)
    case DuckIntent => DuckStep(s)
    case _ => s
  }

  /** A touch is a second keyboard: a touch whose viewport y is less than half the play area's
      height acts as the Space key, any other as ArrowDown, and a touch never starts a run
      (Enter does). */
  lemma TouchIsLikeKeys(s: HookState, touchY: real, containerHeight: nat, initialSpeed: int)
    ensures s.isPlaying && 2.0 * touchY < containerHeight as real ==>
      TouchStartStep(s, touchY, containerHeight) == KeyDownStep(s, Space, initialSpeed)
    ensures s.isPlaying && 2.0 * touchY >= containerHeight as real ==>
      TouchStartStep(s, touchY, containerHeight) == KeyDownStep(s, ArrowDown, initialSpeed)
    ensures !s.isPlaying ==> TouchStartStep(s, touchY, containerHeight) == s
  {
  }

  /** `handleTouchStart` on the page's game. */
  method HandleTouchStart(g: Game, touchY: real, containerHeight: nat)
    requires g.Valid()
    modifies g
    ensures g.Valid()
    ensures g.State() == TouchStartStep(old(g.State()), touchY, containerHeight)
  {
    if !g.isPlaying {
      return;
    }
    var containerTop := 2.0 * touchY < containerHeight as real;
    assert containerTop <==> TouchIntent(g.isPlaying, touchY, containerHeight) == JumpIntent;
    if containerTop {
      g.Jump();
    } else {
      g.Duck();
    }
  }

  /** `handleTouchEnd`: lifting the finger stops a duck. */
  method HandleTouchEnd(g: Game)
    requires g.Valid()
    modifies g
    ensures g.Valid()
    ensures g.State() == StopDuckStep(old(g.State()))
  {
    g.StopDucking();
  }

  // ---------------------------------------------------------------- opening the page

  /** Opening the page creates the hook at its default speed and starts a run at once. */
  method OpenPage() returns (g: Game)
    ensures fresh(g) && g.Valid() && g.initialSpeed == DefaultInitialSpeed
    ensures g.State() == StartStep(InitialState(DefaultInitialSpeed), DefaultInitialSpeed)
  {
    g := new Game(DefaultInitialSpeed);
    g.StartGame();
  }

  // ---------------------------------------------------------------- saving the score

  const ScoreKey: string := "score"
  const StatusKey: string := "status"
  const EndTimeKey: string := "endTime"

  /** The fields written to `games/{uid}` when a run ends. */
  function ScoreFields(score: int, now: int): Doc
  {
    map[ScoreKey := Num(score), StatusKey := Str("completed"), EndTimeKey := Time(now)]
  }

  /** Saving the score completes the session: the final score and "completed" are stored, the
      end time is stamped, and every other field of the session (bet, order, start time) stays. */
  lemma ScoreSaveCompletesSession(session: Doc, score: int, now: int)
    ensures var after := MergeInto(Some(session), ScoreFields(score, now));
      && after[ScoreKey] == Num(score) && after[StatusKey] == Str("completed") && after[EndTimeKey] == Time(now)
      && after.Keys == session.Keys + {ScoreKey, StatusKey, EndTimeKey}
      && forall k :: k in session && k !in {ScoreKey, StatusKey, EndTimeKey} ==> after[k] == session[k]
  {
    var data := ScoreFields(score, now);
    assert data[ScoreKey] == Num(score) && data[StatusKey] == Str("completed") && data[EndTimeKey] == Time(now);
  }

  /** The game-over effect: with a run over and a signed-in player, update the session with the
      final score; only a successful update schedules the redirect to the payout page (2 s later),
      a failed one is only logged and the player stays on the page. */
  method SaveScoreOnGameOver(store: Firestore, gameOver: bool, score: int, user: Option<string>, now: int, outcome: Outcome)
    returns (redirect: Option<Route>)
    modifies store
    ensures redirect.Some? <==> gameOver && user.Some? && outcome.Ok? && user.value in old(store.games)
    ensures redirect.Some? ==> redirect.value == ToPayout
    ensures store.users == old(store.users)
    ensures redirect.Some? ==>
      && store.games == old(store.games)[user.value := MergeInto(Some(old(store.games)[user.value]), ScoreFields(score, now))]
      && store.log == old(store.log) + [Write(Games, user.value, store.games[user.value])]
    ensures redirect.None? ==> store.games == old(store.games) && store.log == old(store.log)
  {
    redirect := None;
    if gameOver && user.Some? {
      var r := store.Update(Games, user.value, ScoreFields(score, now), outcome);
      if r.Ok? {
        redirect := Some(ToPayout);
      }
    }
  }
}
