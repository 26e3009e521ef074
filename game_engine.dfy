/** The dino-runner engine of the `useGame` hook.

    Every length is kept in half-units (twice the source's number), so the 0.5 speed step
    and all positions are whole numbers: the default speed 5 is 10 here, the cap 20 is 40,
    the end of the track (100) is 200, and every rectangle is scaled by 2. Scaling both sides
    of a strict comparison by 2 does not change it, so collisions are exactly the source's. */
module GameEngine {

  // ---------------------------------------------------------------- constants (half-units)

  const DefaultInitialSpeed: int := 10
  const MaxSpeed: int := 40
  const TrackEnd: int := 200

  const DinoX: int := 100
  const DinoWidth: int := 120
  const StandingHeight: int := 120
  const DuckingHeight: int := 60
  const JumpLift: int := 200

  const CactusWidth: int := 60
  const CactusHeight: int := 120
  const BirdWidth: int := 120
  const BirdHeight: int := 80
  const LowAltitude: int := 100
  const HighAltitude: int := 200

  function Max(a: int, b: int): int { if a < b then b else a }
  function Min(a: int, b: int): int { if a < b then a else b }

  // ---------------------------------------------------------------- geometry

  datatype Rect = Rect(x: int, y: int, width: int, height: int)

  /** The unit cell with lower-left corner (p, q) lies inside the box. */
  predicate Covers(r: Rect, p: int, q: int)
  {
    r.x <= p < r.x + r.width && r.y <= q < r.y + r.height
  }

  /** Strict axis-aligned overlap: rectangles that only share an edge do not intersect. For
      boxes of positive size on whole coordinates this is exactly "some unit cell lies inside
      both boxes". */
  predicate Intersects(a: Rect, b: Rect)
    ensures (exists p, q :: Covers(a, p, q) && Covers(b, p, q)) ==> Intersects(a, b)
    ensures a.width > 0 && a.height > 0 && b.width > 0 && b.height > 0 && Intersects(a, b) ==>
      exists p, q :: Covers(a, p, q) && Covers(b, p, q)
  {
    var p, q := Max(a.x, b.x), Max(a.y, b.y);
    assert a.width > 0 && a.height > 0 && b.width > 0 && b.height > 0
           && a.x < b.x + b.width && a.x + a.width > b.x && a.y < b.y + b.height && a.y + a.height > b.y
           ==> Covers(a, p, q) && Covers(b, p, q);
    a.x < b.x + b.width && a.x + a.width > b.x && a.y < b.y + b.height && a.y + a.height > b.y
  }

  /** Overlap is symmetric, and rectangles that touch along an edge do not collide. */
  lemma IntersectsProperties(a: Rect, b: Rect)
    ensures Intersects(a, b) <==> Intersects(b, a)
    ensures a.x + a.width == b.x || b.x + b.width == a.x || a.y + a.height == b.y || b.y + b.height == a.y
            ==> !Intersects(a, b)
  {
  }

  datatype Kind = Cactus | Bird

  /** An obstacle; `altitude` is the bird height the spawner draws (it is drawn for cacti too, and unused). */
  datatype Obstacle = Obstacle(kind: Kind, id: int, position: int, altitude: int)

  /** The dino's box: fixed x and width, lifted while jumping, height 60 or 30 (120 or 60 here). */
  function DinoRect(isJumping: bool, height: int): (r: Rect)
    // the box stays in the same column; only its bottom edge (by the jump) and its height change
    ensures r.x == DinoX && r.width == DinoWidth && r.height == height
    ensures r.y == 0 <==> !isJumping
    ensures isJumping ==> r.y == JumpLift
  {
    Rect(DinoX, if isJumping then JumpLift else 0, DinoWidth, height)
  }

  /** An obstacle's box: it scrolls from the far edge, so its x is the track end minus its position. */
  function ObstacleRect(o: Obstacle): (r: Rect)
    // the left edge comes closer to the dino as the position grows
    ensures r.x == TrackEnd - o.position
    // cacti stand on the ground, birds fly at their altitude
    ensures o.kind == Cactus ==> r.y == 0 && r.width == CactusWidth && r.height == CactusHeight
    ensures o.kind == Bird ==> r.y == o.altitude && r.width == BirdWidth && r.height == BirdHeight
  {
    match o.kind
    case Cactus => Rect(TrackEnd - o.position, 0, CactusWidth, CactusHeight)
    case Bird => Rect(TrackEnd - o.position, o.altitude, BirdWidth, BirdHeight)
  }

  /** `obstacles.some(...)`: the dino box overlaps at least one obstacle box. */
  function Hits(dino: Rect, obs: seq<Obstacle>): (r: bool)
    ensures r <==> exists i :: 0 <= i < |obs| && Intersects(dino, ObstacleRect(obs[i]))
  {
    if obs == [] then false
    else if Intersects(dino, ObstacleRect(obs[0])) then true
    else
      var rest := Hits(dino, obs[1..]);
      assert forall i :: 1 <= i < |obs| ==> obs[i] == obs[1..][i - 1];
      rest
  }

  /** Ducking is what dodges birds: a ducking dino on the ground (height 30, 60 here) is below
      every bird, while a standing one (height 60, 120 here) reaches into the low bird's band. */
  lemma DuckingDinoClearsBirds(o: Obstacle)
    requires o.kind == Bird && (o.altitude == LowAltitude || o.altitude == HighAltitude)
    ensures !Intersects(DinoRect(false, DuckingHeight), ObstacleRect(o))
    ensures o.altitude == LowAltitude && DinoX < TrackEnd - o.position + BirdWidth && DinoX + DinoWidth > TrackEnd - o.position
            ==> Intersects(DinoRect(false, StandingHeight), ObstacleRect(o))
  {
  }

  /** A jumping dino clears every cactus: its lowest edge is at the cactus's top. */
  lemma JumpingDinoClearsCacti(o: Obstacle, height: int)
    requires o.kind == Cactus
    ensures !Intersects(DinoRect(true, height), ObstacleRect(o))
  {
  }

  /** A grounded dino cannot let a cactus pass: every cactus box on the first 80 units of the
      track (160 here) reaches into the dino's column, standing or ducking, so each cactus must
      be jumped, and from the moment it appears. */
  lemma GroundedDinoHitsCactus(o: Obstacle, height: int)
    requires o.kind == Cactus && 0 <= o.position < TrackEnd + CactusWidth - DinoX
    requires height > 0
    ensures Intersects(DinoRect(false, height), ObstacleRect(o))
  {
  }

  // ---------------------------------------------------------------- obstacle movement

  function Moved(o: Obstacle, d: int): Obstacle
  {
    o.(position := o.position + d)
  }

  /** Move every obstacle by `speed` and drop those that reach the track end (`>= 100`). */
  function Advance(obs: seq<Obstacle>, speed: int): (r: seq<Obstacle>)
    ensures |r| <= |obs|
    // every survivor is an input obstacle, moved, and short of the track end
    ensures forall o :: o in r ==> o.position < TrackEnd && Moved(o, -speed) in obs
    // every input obstacle that stays short of the track end survives
    ensures forall o {:trigger Moved(o, speed)} :: o in obs && o.position + speed < TrackEnd ==> Moved(o, speed) in r
  {
    if obs == [] then []
    else
      var rest := Advance(obs[1..], speed);
      var m := Moved(obs[0], speed);
      assert Moved(m, -speed) == obs[0];
      assert forall o :: o in obs ==> o == obs[0] || o in obs[1..];
      if m.position < TrackEnd then [m] + rest else rest
  }

  /** Obstacle ids strictly increase along the list (so they are also unique). */
  predicate IdsIncreasing(obs: seq<Obstacle>)
  {
    forall i, j :: 0 <= i < j < |obs| ==> obs[i].id < obs[j].id
  }

  /** Every obstacle of the list has an id above `bound`. */
  predicate IdsAbove(obs: seq<Obstacle>, bound: int)
  {
    forall o :: o in obs ==> bound < o.id
  }

  lemma TailOfIncreasing(obs: seq<Obstacle>)
    requires obs != [] && IdsIncreasing(obs)
    ensures IdsIncreasing(obs[1..]) && IdsAbove(obs[1..], obs[0].id)
  {
    forall i, j | 0 <= i < j < |obs[1..]| ensures obs[1..][i].id < obs[1..][j].id {
      assert obs[1..][i] == obs[i + 1] && obs[1..][j] == obs[j + 1];
    }
    forall o | o in obs[1..] ensures obs[0].id < o.id {
      var t :| 0 <= t < |obs[1..]| && obs[1..][t] == o;
      assert obs[t + 1] == o;
    }
  }

  lemma ConsIncreasing(m: Obstacle, rest: seq<Obstacle>)
    requires IdsIncreasing(rest) && IdsAbove(rest, m.id)
    ensures IdsIncreasing([m] + rest)
  {
    var r := [m] + rest;
    forall i, j | 0 <= i < j < |r| ensures r[i].id < r[j].id {
      assert r[j] == rest[j - 1];
      assert rest[j - 1] in rest;
      if i > 0 {
        assert r[i] == rest[i - 1];
      }
    }
  }

  lemma AdvanceKeepsBound(obs: seq<Obstacle>, speed: int, bound: int)
    requires IdsAbove(obs, bound)
    ensures IdsAbove(Advance(obs, speed), bound)
  {
    forall o | o in Advance(obs, speed) ensures bound < o.id {
      assert Moved(o, -speed) in obs;
    }
  }

  /** Moving and dropping keeps survivors in their relative order. */
  lemma {:induction false} AdvanceKeepsOrder(obs: seq<Obstacle>, speed: int)
    requires IdsIncreasing(obs)
    ensures IdsIncreasing(Advance(obs, speed))
  {
    if obs != [] {
      TailOfIncreasing(obs);
      AdvanceKeepsOrder(obs[1..], speed);
      AdvanceKeepsBound(obs[1..], speed, obs[0].id);
      var m := Moved(obs[0], speed);
      if m.position < TrackEnd {
        ConsIncreasing(m, Advance(obs[1..], speed));
      }
    }
  }

  /** An obstacle appended before the move ends up last, moved, if it survives. */
  lemma {:induction false} AdvanceAppend(obs: seq<Obstacle>, x: Obstacle, speed: int)
    ensures Advance(obs + [x], speed)
         == Advance(obs, speed) + (if x.position + speed < TrackEnd then [Moved(x, speed)] else [])
  {
    if obs == [] {
      assert [x][1..] == [];
    } else {
      assert (obs + [x])[1..] == obs[1..] + [x];
      AdvanceAppend(obs[1..], x, speed);
    }
  }

  // ---------------------------------------------------------------- speed

  /** One frame's ramp: half a unit more when the score before the frame is a multiple of
      100, never above the cap. */
  function RampSpeed(preScore: int, speed: int): (r: int)
    ensures speed <= MaxSpeed ==> speed <= r <= MaxSpeed
    ensures speed >= 0 ==> r >= 0
    ensures preScore % 100 != 0 ==> r == speed
    ensures preScore % 100 == 0 && speed < MaxSpeed ==> r == speed + 1
  {
    if preScore % 100 == 0 then Min(speed + 1, MaxSpeed) else speed
  }

  /** The speed after `frames` frames of a run that started at `initial` (score 0). */
  function SpeedAfter(frames: nat, initial: int): (r: int)
    ensures initial <= MaxSpeed ==> initial <= r <= MaxSpeed
    ensures initial >= 0 ==> r >= 0
  {
    if frames == 0 then initial else RampSpeed(frames - 1, SpeedAfter(frames - 1, initial))
  }

  lemma CeilingStep(n: nat)
    ensures (n + 100) / 100 == (n + 99) / 100 + (if n % 100 == 0 then 1 else 0)
  {
    var q := n / 100;
    var r := n % 100;
    assert n == 100 * q + r;
    if r == 0 {
      assert (n + 99) / 100 == q;
      assert (n + 100) / 100 == q + 1;
    } else {
      assert (n + 99) / 100 == q + 1;
      assert (n + 100) / 100 == q + 1;
    }
  }

  /** The speed of a run in closed form: one step per multiple of 100 crossed (the frames
      whose pre-frame score is 0, 100, 200, ...), capped. */
  lemma {:induction false} SpeedClosedForm(frames: nat, initial: int)
    requires initial <= MaxSpeed
    ensures SpeedAfter(frames, initial) == Min(initial + (frames + 99) / 100, MaxSpeed)
  {
    if frames > 0 {
      SpeedClosedForm(frames - 1, initial);
      CeilingStep(frames - 1);
    }
  }

  // ---------------------------------------------------------------- the hook's state

  /** Everything `useGame` keeps: the `gameState` record, `speed`, `obstacles`, the two pose
      flags, and the refs (`obstacleIdRef`, `lastObstacleTimeRef`, the dino height in
      `dinoPosition`, and whether `gameLoopRef` holds a requested frame). */
  datatype HookState = HookState(
    isPlaying: bool,
    score: int,
    highScore: int,
    gameOver: bool,
    speed: int,
    obstacles: seq<Obstacle>,
    isJumping: bool,
    isDucking: bool,
    nextId: int,
    lastObstacleTime: int,
    dinoHeight: int,
    frameRequested: bool)

  /** What the three `Math.random()` calls of one frame decide: the spawn gap in ms
      (1500 plus up to 1000), the obstacle kind, and whether a bird flies low. */
  datatype Draws = Draws(spawnGap: int, kind: Kind, lowBird: bool)

  predicate ObstacleOk(o: Obstacle, nextId: int)
  {
    0 <= o.id < nextId && 0 <= o.position < TrackEnd && (o.altitude == LowAltitude || o.altitude == HighAltitude)
  }

  /** The invariant every transition keeps. */
  predicate Inv(s: HookState, initialSpeed: int)
  {
    && initialSpeed >= 0
    && 0 <= s.score && 0 <= s.highScore
    && !(s.isPlaying && s.gameOver)
    && (s.frameRequested ==> s.isPlaying)
    && s.speed == SpeedAfter(s.score, initialSpeed)
    && (s.dinoHeight == DuckingHeight || s.dinoHeight == StandingHeight)
    && (s.dinoHeight == DuckingHeight <==> s.isDucking)
    && 0 <= s.nextId
    && IdsIncreasing(s.obstacles)
    && forall o :: o in s.obstacles ==> ObstacleOk(o, s.nextId)
  }

  function InitialState(initialSpeed: int): HookState
  {
    HookState(false, 0, 0, false, initialSpeed, [], false, false, 0, 0, StandingHeight, false)
  }

  /** `startGame`: playing again from score 0 at the initial speed with an empty track;
      the high score and the pose are kept. */
  function StartStep(s: HookState, initialSpeed: int): (r: HookState)
    ensures r.isPlaying && !r.gameOver && r.score == 0 && r.speed == initialSpeed
    ensures r.obstacles == [] && r.nextId == 0 && r.lastObstacleTime == 0
    ensures r.highScore == s.highScore && r.frameRequested
    // the pose is kept: a run restarted while ducking stays ducked
    ensures r.isJumping == s.isJumping && r.isDucking == s.isDucking && r.dinoHeight == s.dinoHeight
    ensures Inv(s, initialSpeed) ==> Inv(r, initialSpeed)
  {
    s.(isPlaying := true, score := 0, gameOver := false, speed := initialSpeed,
       obstacles := [], nextId := 0, lastObstacleTime := 0, frameRequested := true)
  }

  /** `endGame`: the run is over and the high score becomes the running maximum. */
  function EndStep(s: HookState): (r: HookState)
    ensures !r.isPlaying && r.gameOver && !r.frameRequested
    ensures r.highScore >= s.highScore && r.highScore >= s.score
    ensures r.highScore == s.highScore || r.highScore == s.score
    ensures r.score == s.score && r.obstacles == s.obstacles && r.speed == s.speed
    ensures r.isJumping == s.isJumping && r.isDucking == s.isDucking && r.dinoHeight == s.dinoHeight
  {
    s.(isPlaying := false, gameOver := true, highScore := Max(s.score, s.highScore), frameRequested := false)
  }

  predicate CanJump(s: HookState) { s.isPlaying && !s.isJumping && !s.isDucking }
  predicate CanDuck(s: HookState) { s.isPlaying && !s.isDucking }

  /** `jump`: only while playing, not already airborne and not ducking; otherwise nothing. */
  function JumpStep(s: HookState): (r: HookState)
    // the dino is airborne afterwards exactly when it was, or when a jump was allowed
    ensures r.isJumping <==> s.isJumping || CanJump(s)
    // nothing but the airborne flag changes
    ensures r.(isJumping := s.isJumping) == s
  {
    if CanJump(s) then s.(isJumping := true) else s
  }

  /** The jump timer firing 500 ms later: the dino is on the ground again. */
  function LandStep(s: HookState): (r: HookState)
    ensures !r.isJumping
    // nothing but the airborne flag changes
    ensures r.(isJumping := s.isJumping) == s
  {
    s.(isJumping := false)
  }

  /** `duck`: only while playing and not already ducking; the dino shrinks to height 30. */
  function DuckStep(s: HookState): (r: HookState)
    // the dino ducks afterwards exactly when it did, or when the run is on
    ensures r.isDucking <==> s.isDucking || s.isPlaying
    ensures CanDuck(s) ==> r.dinoHeight == DuckingHeight
    // nothing but the pose and the box height changes
    ensures r.(isDucking := s.isDucking, dinoHeight := s.dinoHeight) == s
    ensures !CanDuck(s) ==> r.dinoHeight == s.dinoHeight
  {
    if CanDuck(s) then s.(isDucking := true, dinoHeight := DuckingHeight) else s
  }

  /** `stopDucking`: only while ducking; the dino is back to height 60. */
  function StopDuckStep(s: HookState): (r: HookState)
    ensures !r.isDucking
    ensures s.isDucking ==> r.dinoHeight == StandingHeight
    ensures !s.isDucking ==> r.dinoHeight == s.dinoHeight
    // nothing but the pose and the box height changes
    ensures r.(isDucking := s.isDucking, dinoHeight := s.dinoHeight) == s
  {
    if s.isDucking then s.(isDucking := false, dinoHeight := StandingHeight) else s
  }

  /** The pose transitions keep the invariant. The guards are one-sided: a ducking dino
      cannot jump, but `duck` does not look at the jump flag, so a dino in the air can duck
      and is then both airborne and ducking (with the short box). */
  lemma PoseStepsKeepInv(s: HookState, initialSpeed: int)
    requires Inv(s, initialSpeed)
    ensures Inv(JumpStep(s), initialSpeed) && Inv(LandStep(s), initialSpeed)
    ensures Inv(DuckStep(s), initialSpeed) && Inv(StopDuckStep(s), initialSpeed)
    ensures Inv(EndStep(s), initialSpeed)
    ensures s.isDucking ==> JumpStep(s) == s
    ensures s.isPlaying && s.isJumping ==>
      DuckStep(s).isJumping && DuckStep(s).isDucking && DuckStep(s).dinoHeight == DuckingHeight
  {
  }

  // ---------------------------------------------------------------- keyboard

  datatype Key = Space | ArrowUp | ArrowDown | Enter | OtherKey
  datatype Intent = JumpIntent | DuckIntent | StartIntent | NoIntent

  /** `handleKeyDown`: Space or ArrowUp jump and ArrowDown ducks while playing; Enter starts when not playing. */
  function KeyDownIntent(key: Key, isPlaying: bool): (i: Intent)
    ensures i == JumpIntent <==> (key == Space || key == ArrowUp) && isPlaying
    ensures i == DuckIntent <==> key == ArrowDown && isPlaying
    ensures i == StartIntent <==> key == Enter && !isPlaying
  {
    if (key == Space || key == ArrowUp) && isPlaying then JumpIntent
    else if key == ArrowDown && isPlaying then DuckIntent
    else if key == Enter && !isPlaying then StartIntent
    else NoIntent
  }

  function KeyDownStep(s: HookState, key: Key, initialSpeed: int): HookState
  {
    match KeyDownIntent(key, s.isPlaying)
    case JumpIntent => JumpStep(s)
    case DuckIntent => DuckStep(s)
    case StartIntent => StartStep(s, initialSpeed)
    case NoIntent => s
  }

  /** `handleKeyUp`: releasing ArrowDown stops ducking. */
  function KeyUpStep(s: HookState, key: Key): HookState
  {
    if key == ArrowDown then StopDuckStep(s) else s
  }

  // ---------------------------------------------------------------- one frame

  /** The collision test of a frame: the dino box as posed when the frame was scheduled,
      against the obstacle list as it was before this frame spawned or moved anything. */
  predicate Collision(s: HookState)
  {
    Hits(DinoRect(s.isJumping, s.dinoHeight), s.obstacles)
  }

  predicate SpawnDue(s: HookState, now: int, draws: Draws)
  {
    now - s.lastObstacleTime > draws.spawnGap
  }

  function NewObstacle(draws: Draws, id: int): (o: Obstacle)
    // a new obstacle enters at the far edge with the counter's id, at one of the two altitudes
    ensures o.position == 0 && o.id == id && o.kind == draws.kind
    ensures o.altitude == LowAltitude || o.altitude == HighAltitude
    ensures o.altitude == LowAltitude <==> draws.lowBird
  {
    Obstacle(draws.kind, id, 0, if draws.lowBird then LowAltitude else HighAltitude)
  }

  /** The track after a frame's spawn and move. The move uses the speed from before this
      frame's ramp, and a spawned obstacle is moved in the same frame. */
  function FrameObstacles(s: HookState, now: int, draws: Draws): seq<Obstacle>
  {
    Advance(if SpawnDue(s, now, draws) then s.obstacles + [NewObstacle(draws, s.nextId)] else s.obstacles, s.speed)
  }

  /** A frame's score, speed and track updates, before the collision decides how it ends. */
  function Advanced(s: HookState, now: int, draws: Draws): HookState
  {
    var spawn := SpawnDue(s, now, draws);
    s.(score := s.score + 1,
       speed := RampSpeed(s.score, s.speed),
       obstacles := FrameObstacles(s, now, draws),
       nextId := if spawn then s.nextId + 1 else s.nextId,
       lastObstacleTime := if spawn then now else s.lastObstacleTime)
  }

  /** One iteration of `gameLoop` (it runs only while playing). */
  function FrameStep(s: HookState, now: int, draws: Draws): (r: HookState)
    ensures !s.isPlaying ==> r == s
    // score goes up by exactly one per frame, speed ramps, and the list grows by at most the spawn
    ensures s.isPlaying ==> r.score == s.score + 1 && r.speed == RampSpeed(s.score, s.speed)
    ensures s.isPlaying ==> |r.obstacles| <= |s.obstacles| + 1
    ensures s.isPlaying ==> r.obstacles == FrameObstacles(s, now, draws)
    // a spawn takes the next id and the current time
    ensures s.isPlaying && SpawnDue(s, now, draws) ==> r.nextId == s.nextId + 1 && r.lastObstacleTime == now
    ensures s.isPlaying && !SpawnDue(s, now, draws) ==> r.nextId == s.nextId && r.lastObstacleTime == s.lastObstacleTime
    // a collision ends the run and requests no further frame; otherwise the next frame is requested
    ensures s.isPlaying ==> (r.isPlaying <==> !Collision(s))
    ensures s.isPlaying && Collision(s) ==> r.gameOver && !r.frameRequested && r.highScore == Max(s.score + 1, s.highScore)
    ensures s.isPlaying && !Collision(s) ==> r.frameRequested && r.highScore == s.highScore && r.gameOver == s.gameOver
    // the pose is untouched
    ensures r.isJumping == s.isJumping && r.isDucking == s.isDucking && r.dinoHeight == s.dinoHeight
  {
    if !s.isPlaying then s
    else if Collision(s) then EndStep(Advanced(s, now, draws))
    else Advanced(s, now, draws).(frameRequested := true)
  }

  /** A spawned obstacle enters at position 0 with the counter's id and, moved once, is the
      last obstacle of the track (unless the move already carries it off). */
  lemma {:induction false} SpawnedObstacleIsLast(s: HookState, now: int, draws: Draws)
    requires s.isPlaying && SpawnDue(s, now, draws) && 0 <= s.speed < TrackEnd
    ensures var r := FrameStep(s, now, draws);
      |r.obstacles| > 0 && r.obstacles[|r.obstacles| - 1] == Moved(NewObstacle(draws, s.nextId), s.speed)
  {
    AdvanceAppend(s.obstacles, NewObstacle(draws, s.nextId), s.speed);
  }

  /** Appending the spawned obstacle keeps ids increasing and below the advanced counter. */
  lemma SpawnKeepsTrack(obs: seq<Obstacle>, x: Obstacle, nextId: int)
    requires IdsIncreasing(obs) && (forall o :: o in obs ==> ObstacleOk(o, nextId))
    requires 0 <= nextId && x.id == nextId && 0 <= x.position < TrackEnd && (x.altitude == LowAltitude || x.altitude == HighAltitude)
    ensures IdsIncreasing(obs + [x]) && forall o :: o in obs + [x] ==> ObstacleOk(o, nextId + 1)
  {
    var list := obs + [x];
    forall i, j | 0 <= i < j < |list| ensures list[i].id < list[j].id {
      assert list[i] == obs[i];
      assert obs[i] in obs;
      if j < |obs| {
        assert list[j] == obs[j];
      }
    }
    forall o | o in list ensures ObstacleOk(o, nextId + 1) {
      if o != x {
        assert o in obs;
      }
    }
  }

  /** Moving by a non-negative speed keeps every survivor well-formed. */
  lemma AdvanceKeepsOk(obs: seq<Obstacle>, speed: int, nextId: int)
    requires speed >= 0 && forall o :: o in obs ==> ObstacleOk(o, nextId)
    ensures forall o :: o in Advance(obs, speed) ==> ObstacleOk(o, nextId)
  {
    forall o | o in Advance(obs, speed) ensures ObstacleOk(o, nextId) {
      assert ObstacleOk(Moved(o, -speed), nextId);
    }
  }

  /** A frame keeps the invariant: ids stay below the counter and increasing, positions stay
      on the track, and the speed is still the ramp of the score. */
  lemma {:induction false} FrameKeepsInv(s: HookState, now: int, draws: Draws, initialSpeed: int)
    requires Inv(s, initialSpeed)
    ensures Inv(FrameStep(s, now, draws), initialSpeed)
  {
    if s.isPlaying {
      var spawn := SpawnDue(s, now, draws);
      var nextId := if spawn then s.nextId + 1 else s.nextId;
      var list := if spawn then s.obstacles + [NewObstacle(draws, s.nextId)] else s.obstacles;
      if spawn {
        SpawnKeepsTrack(s.obstacles, NewObstacle(draws, s.nextId), s.nextId);
      } else {
        assert forall o :: o in list ==> ObstacleOk(o, nextId);
      }
      AdvanceKeepsOrder(list, s.speed);
      AdvanceKeepsOk(list, s.speed, nextId);
    }
  }

  /** What the geometry means for play: if the first frame of a run spawns a cactus and the
      dino does not jump, the second frame ends the run, at score 2. */
  lemma {:induction false} UnjumpedCactusEndsRun(s: HookState, initialSpeed: int, now1: int, draws1: Draws, now2: int, draws2: Draws)
    requires Inv(s, initialSpeed) && !s.isJumping && initialSpeed <= MaxSpeed
    requires SpawnDue(StartStep(s, initialSpeed), now1, draws1) && draws1.kind == Cactus
    ensures var first := FrameStep(StartStep(s, initialSpeed), now1, draws1);
      && first.isPlaying && |first.obstacles| == 1
      && var second := FrameStep(first, now2, draws2);
      && !second.isPlaying && second.gameOver && second.score == 2
  {
    var start := StartStep(s, initialSpeed);
    var cactus := NewObstacle(draws1, 0);
    assert start.obstacles + [cactus] == [cactus];
    AdvanceAppend([], cactus, initialSpeed);
    var first := FrameStep(start, now1, draws1);
    assert first.obstacles == [Moved(cactus, initialSpeed)];
    GroundedDinoHitsCactus(Moved(cactus, initialSpeed), first.dinoHeight);
    assert Collision(first);
  }

  /** The high score never decreases, whatever the step. */
  lemma HighScoreNeverDecreases(s: HookState, now: int, draws: Draws, key: Key, initialSpeed: int)
    ensures FrameStep(s, now, draws).highScore >= s.highScore
    ensures KeyDownStep(s, key, initialSpeed).highScore == s.highScore
    ensures KeyUpStep(s, key).highScore == s.highScore
    ensures LandStep(s).highScore == s.highScore
  {
  }

  // ---------------------------------------------------------------- the hook as an object

  /** The hook's state as mutable fields; each method performs one transition in place. */
  class Game {
    const initialSpeed: int
    var isPlaying: bool
    var score: int
    var highScore: int
    var gameOver: bool
    var speed: int
    var obstacles: seq<Obstacle>
    var isJumping: bool
    var isDucking: bool
    var nextId: int
    var lastObstacleTime: int
    var dinoHeight: int
    var frameRequested: bool

    function State(): HookState
      reads this
    {
      HookState(isPlaying, score, highScore, gameOver, speed, obstacles, isJumping, isDucking,
                nextId, lastObstacleTime, dinoHeight, frameRequested)
    }

    ghost predicate Valid()
      reads this
    {
      Inv(State(), initialSpeed)
    }

    /** `useGame(initialSpeed)`, speed in half-units. */
    constructor (initialSpeed: nat)
      ensures Valid() && this.initialSpeed == initialSpeed
      ensures State() == InitialState(initialSpeed)
    {
      this.initialSpeed := initialSpeed;
      isPlaying, score, highScore, gameOver := false, 0, 0, false;
      speed, obstacles := initialSpeed, [];
      isJumping, isDucking := false, false;
      nextId, lastObstacleTime := 0, 0;
      dinoHeight, frameRequested := StandingHeight, false;
    }

    method StartGame()
      requires Valid()
      modifies this
      ensures Valid()
      ensures State() == StartStep(old(State()), initialSpeed)
    {
      isPlaying := true;
      score := 0;
      gameOver := false;
      speed := initialSpeed;
      obstacles := [];
      nextId := 0;
      lastObstacleTime := 0;
      frameRequested := true;
    }

    method EndGame()
      modifies this
      ensures old(Valid()) ==> Valid()
      ensures State() == EndStep(old(State()))
    {
      frameRequested := false;
      isPlaying := false;
      gameOver := true;
      highScore := Max(score, highScore);
    }

    method Jump()
      requires Valid()
      modifies this
      ensures Valid()
      ensures State() == JumpStep(old(State()))
    {
      if !isJumping && !isDucking && isPlaying {
        isJumping := true;
      }
    }

    /** The 500 ms jump timer firing. */
    method Land()
      requires Valid()
      modifies this
      ensures Valid()
      ensures State() == LandStep(old(State()))
    {
      isJumping := false;
    }

    method Duck()
      requires Valid()
      modifies this
      ensures Valid()
      ensures State() == DuckStep(old(State()))
    {
      if !isDucking && isPlaying {
        isDucking := true;
        dinoHeight := DuckingHeight;
      }
    }

    method StopDucking()
      requires Valid()
      modifies this
      ensures Valid()
      ensures State() == StopDuckStep(old(State()))
    {
      if isDucking {
        isDucking := false;
        dinoHeight := StandingHeight;
      }
    }

    method KeyDown(key: Key)
      requires Valid()
      modifies this
      ensures Valid()
      ensures State() == KeyDownStep(old(State()), key, initialSpeed)
    {
      if (key == Space || key == ArrowUp) && isPlaying {
        Jump();
      } else if key == ArrowDown && isPlaying {
        Duck();
      } else if key == Enter && !isPlaying {
        StartGame();
      }
    }

    method KeyUp(key: Key)
      requires Valid()
      modifies this
      ensures Valid()
      ensures State() == KeyUpStep(old(State()), key)
    {
      if key == ArrowDown {
        StopDucking();
      }
    }

    /** The part of a frame before the collision test: score, speed, spawn and movement. */
    method Tick(now: int, draws: Draws)
      modifies this
      ensures State() == Advanced(old(State()), now, draws)
    {
      var spawn := now - lastObstacleTime > draws.spawnGap;
      var track := if spawn then obstacles + [NewObstacle(draws, nextId)] else obstacles;
      var moved := Advance(track, speed);
      if spawn {
        score, speed, obstacles, nextId, lastObstacleTime := score + 1, RampSpeed(score, speed), moved, nextId + 1, now;
      } else {
        score, speed, obstacles := score + 1, RampSpeed(score, speed), moved;
      }
    }

    /** One animation frame; reports whether it ended the run. The collision is tested
        against the obstacles and the pose as they were when the frame began. */
    method Frame(now: int, draws: Draws) returns (collided: bool)
      requires Valid()
      modifies this
      ensures Valid()
      ensures State() == FrameStep(old(State()), now, draws)
      ensures collided <==> old(isPlaying) && Collision(old(State()))
    {
      if !isPlaying {
        return false;
      }
      ghost var before := State();
      FrameKeepsInv(before, now, draws, initialSpeed);
      var seen := obstacles;
      var pose := DinoRect(isJumping, dinoHeight);
      Tick(now, draws);
      collided := Hits(pose, seen);
      if collided {
        EndGame();
      } else {
        frameRequested := true;
      }
    }
  }
}
