/**
 * The crate spawner: a regular spawn on a shrinking interval, an "aimed" spawn on a
 * random interval, and a difficulty ratchet every DIFFICULTY_INCREASE_INTERVAL
 * milliseconds that makes crates come faster and more often.
 */
module ObstacleManagement {

  import opened GameTypes
  import opened Constants
  import opened PhaserMath
  import opened JsArray
  import opened ObstacleEntity

  /** Crates enter this far right of the screen. */
  const OBSTACLE_ENTRY_OFFSET: real := 50.0
  /** Bounds of the random threshold an aimed spawn waits for. */
  const AIMED_MIN_INTERVAL: real := 500.0
  const AIMED_MAX_INTERVAL: real := 2000.0
  /** Level from which regular crates may move, and the chance that they do. */
  const MOVING_MIN_LEVEL: int := 2
  const MOVING_CHANCE: real := 0.4
  /** The chance that a regular crate is placed in the central band. */
  const CENTRE_CHANCE: real := 0.3

  /** The random draws behind one crate: its size, placement, kind and launch. */
  datatype SpawnDraws = SpawnDraws(size: real, path: real, y: real, kind: real, drift: real,
                                   launchVx: real, launchVy: real)
  {
    predicate Valid() {
      IsUniform(size) && IsUniform(path) && IsUniform(y) && IsUniform(kind) && IsUniform(drift)
    }
  }

  /** The random draws of one update: a regular spawn, the aimed threshold, an aimed spawn, bounces. */
  datatype FrameDraws = FrameDraws(regular: SpawnDraws, aimedInterval: real, aimed: SpawnDraws,
                                   bounce: seq<real>)
  {
    predicate Valid() {
      regular.Valid() && IsUniform(aimedInterval) && aimed.Valid() &&
      forall k :: 0 <= k < |bounce| ==> IsUniform(bounce[k])
    }
  }

  /**
   * The spawn interval after `level` difficulty increases: 50 ms less per level, but
   * never below OBSTACLE_MIN_SPAWN_INTERVAL.
   */
  function SpawnIntervalAfter(level: nat): (interval: real)
    ensures OBSTACLE_MIN_SPAWN_INTERVAL <= interval <= OBSTACLE_SPAWN_INTERVAL
  {
    if level == 0 then OBSTACLE_SPAWN_INTERVAL
    else Max(OBSTACLE_MIN_SPAWN_INTERVAL, SpawnIntervalAfter(level - 1) - OBSTACLE_SPAWN_DECREASE)
  }

  /** Up to level 24 the floor is not reached: each level takes off exactly 50 ms. */
  lemma {:induction false} SpawnIntervalLinear(level: nat)
    requires level <= 24
    ensures SpawnIntervalAfter(level) == OBSTACLE_SPAWN_INTERVAL - level as real * OBSTACLE_SPAWN_DECREASE
  {
    if level > 0 {
      SpawnIntervalLinear(level - 1);
    }
  }

  /** At the highest difficulty the interval is 1500 ms, well above the 800 ms floor. */
  lemma MaxLevelInterval()
    ensures SpawnIntervalAfter(MAX_DIFFICULTY_LEVEL as nat) == 1500.0
    ensures SpawnIntervalAfter(MAX_DIFFICULTY_LEVEL as nat) > OBSTACLE_MIN_SPAWN_INTERVAL
  {
    SpawnIntervalLinear(MAX_DIFFICULTY_LEVEL as nat);
  }

  /** The crate speed at a difficulty level. */
  function SpeedAt(level: int): (speed: real)
    ensures level >= 0 ==> speed >= OBSTACLE_START_SPEED
    ensures level == 0 ==> speed == OBSTACLE_START_SPEED
  {
    OBSTACLE_START_SPEED + level as real * OBSTACLE_SPEED_INCREASE
  }

  /** Each level adds OBSTACLE_SPEED_INCREASE to the crate speed. */
  lemma SpeedAtStep(level: int)
    ensures SpeedAt(level + 1) == SpeedAt(level) + OBSTACLE_SPEED_INCREASE
  {
  }

  /** The size of a crate: Between(30, 80). */
  function CrateSize(u: real): (size: int)
    requires IsUniform(u)
    ensures OBSTACLE_MIN_SIZE <= size <= OBSTACLE_MAX_SIZE
  {
    BetweenWhole(OBSTACLE_MIN_SIZE, OBSTACLE_MAX_SIZE, u);
    Between(OBSTACLE_MIN_SIZE as real, OBSTACLE_MAX_SIZE as real, u)
  }

  /**
   * The height of a regular crate: with a 30% draw in the central band
   * Between(0.3 * height, 0.7 * height), otherwise anywhere it fits, Between(size, height - size).
   */
  function RegularY(size: int, pathDraw: real, yDraw: real): (y: int)
    requires IsUniform(pathDraw) && IsUniform(yDraw)
    requires OBSTACLE_MIN_SIZE <= size <= OBSTACLE_MAX_SIZE
    ensures pathDraw < CENTRE_CHANCE ==> 230 <= y <= 538
    ensures pathDraw >= CENTRE_CHANCE ==> size <= y <= GAME_HEIGHT.Floor - size
  {
    if pathDraw < CENTRE_CHANCE then
      Between(GAME_HEIGHT * 0.3, GAME_HEIGHT * 0.7, yDraw)
    else
      BetweenWhole(size, GAME_HEIGHT.Floor - size, yDraw);
      Between(size as real, GAME_HEIGHT - size as real, yDraw)
  }

  /** The kind of a regular crate: it moves only from level 2, with a 40% draw. */
  function RegularKind(level: int, kindDraw: real): (kind: ObstacleType)
    ensures kind == MovingVertical <==> level >= MOVING_MIN_LEVEL && kindDraw < MOVING_CHANCE
    ensures kind != MovingHorizontal
  {
    if level >= MOVING_MIN_LEVEL && kindDraw < MOVING_CHANCE then MovingVertical else Static
  }

  /** The height of an aimed crate: the stored player height, or mid-screen while it is 0. */
  function AimedY(playerY: real): (y: real)
    ensures playerY != 0.0 ==> y == playerY
    ensures playerY == 0.0 ==> y == GAME_HEIGHT / 2.0
  {
    if playerY != 0.0 then playerY else GAME_HEIGHT / 2.0
  }

  function Live(os: seq<Obstacle>): set<Obstacle>
    reads set o | o in os
  {
    set o | o in os && !o.isDead
  }

  /** The crates of a list that are newly past the airplane. */
  function NewlyPassed(os: seq<Obstacle>, marked: set<Obstacle>, airplaneX: real): set<Obstacle>
    reads set o | o in os
  {
    set o | o in os && o !in marked && o.HasPassed(airplaneX)
  }

  /** `forEach(o => o.update())`: every crate runs its update once, crate k with bounce draw k. */
  method UpdateAll(os: seq<Obstacle>, bounce: seq<real>)
    requires Distinct(os)
    requires |bounce| >= |os| && forall k :: 0 <= k < |bounce| ==> IsUniform(bounce[k])
    modifies set o | o in os
    ensures forall o :: o in os ==> o.x == old(o.x) && o.y == old(o.y) && o.vx == old(o.vx)
    ensures forall o :: o in os ==> o.isDead == (old(o.isDead) || o.IsOffScreen())
    ensures forall k :: 0 <= k < |os| && !old(os[k].isDead) && os[k].kind == MovingVertical ==>
      os[k].vy == BounceVelocity(os[k].y, old(os[k].vy), os[k].minY, os[k].maxY, BounceFactor(bounce[k]))
    ensures forall k :: 0 <= k < |os| && (old(os[k].isDead) || os[k].kind != MovingVertical) ==>
      os[k].vy == old(os[k].vy)
  {
    for i := 0 to |os|
      invariant forall o :: o in os ==> o.x == old(o.x) && o.y == old(o.y) && o.vx == old(o.vx)
      invariant forall k :: 0 <= k < i ==> os[k].isDead == (old(os[k].isDead) || os[k].IsOffScreen())
      invariant forall k :: 0 <= k < i && !old(os[k].isDead) && os[k].kind == MovingVertical ==>
        os[k].vy == BounceVelocity(os[k].y, old(os[k].vy), os[k].minY, os[k].maxY, BounceFactor(bounce[k]))
      invariant forall k :: 0 <= k < i && (old(os[k].isDead) || os[k].kind != MovingVertical) ==>
        os[k].vy == old(os[k].vy)
      invariant forall k :: i <= k < |os| ==> os[k].isDead == old(os[k].isDead) && os[k].vy == old(os[k].vy)
    {
      os[i].Update(bounce[i]);
    }
    forall o | o in os
      ensures o.isDead == (old(o.isDead) || o.IsOffScreen())
    {
      var k :| 0 <= k < |os| && os[k] == o;
    }
  }

  /** `forEach(o => o.destroy())`: every crate in the list is dead. */
  method DestroyAll(os: seq<Obstacle>)
    modifies set o | o in os
    ensures forall o :: o in os ==> o.isDead
  {
    for i := 0 to |os|
      invariant forall o :: o in os[..i] ==> o.isDead
    {
      assert os[..i + 1] == os[..i] + [os[i]];
      os[i].Destroy();
    }
    assert os[..|os|] == os;
  }

  class ObstacleManager {
    var obstacles: seq<Obstacle>
    var spawnTimer: real
    var aimedSpawnTimer: real
    var currentSpawnInterval: real
    var currentSpeed: real
    var difficultyLevel: int
    var difficultyTimer: real
    /** The crates already counted as passed. */
    var marked: set<Obstacle>
    var playerY: real
    /** The size of a crate's physics body, which the engine decides. */
    const bodyWidth: real
    const bodyHeight: real

    /** The level stays in [0, 10], and interval and speed are those of the level. */
    ghost predicate Valid()
      reads this
    {
      && 0 <= difficultyLevel <= MAX_DIFFICULTY_LEVEL
      && currentSpawnInterval == SpawnIntervalAfter(difficultyLevel)
      && currentSpeed == SpeedAt(difficultyLevel)
      && Distinct(obstacles)
    }

    predicate Initial()
      reads this
    {
      && obstacles == [] && spawnTimer == 0.0 && aimedSpawnTimer == 0.0
      && currentSpawnInterval == OBSTACLE_SPAWN_INTERVAL && currentSpeed == OBSTACLE_START_SPEED
      && difficultyLevel == 0 && difficultyTimer == 0.0 && marked == {} && playerY == 0.0
    }

    constructor (bodyWidth: real, bodyHeight: real)
      ensures Valid() && Initial()
      ensures this.bodyWidth == bodyWidth && this.bodyHeight == bodyHeight
    {
      obstacles := [];
      spawnTimer := 0.0;
      aimedSpawnTimer := 0.0;
      currentSpawnInterval := OBSTACLE_SPAWN_INTERVAL;
      currentSpeed := OBSTACLE_START_SPEED;
      difficultyLevel := 0;
      difficultyTimer := 0.0;
      marked := {};
      playerY := 0.0;
      this.bodyWidth := bodyWidth;
      this.bodyHeight := bodyHeight;
    }

    /**
     * update: remember the player's height when one is given; run the regular spawn
     * timer, the aimed spawn timer against a fresh random threshold and the difficulty
     * timer; then update every crate and drop the dead ones. `regular` and `aimed` are
     * the crates spawned by this update.
     */
    method Update(delta: real, playerY: Option<real>, draws: FrameDraws)
      returns (ghost regular: seq<Obstacle>, ghost aimed: seq<Obstacle>)
      requires Valid() && draws.Valid()
      requires |draws.bounce| >= |obstacles| + 2
      modifies this, set o | o in obstacles
      ensures Valid()
      ensures this.playerY == if playerY.Some? then playerY.value else old(this.playerY)
      ensures |regular| == (if old(spawnTimer) + delta >= old(currentSpawnInterval) then 1 else 0)
      ensures spawnTimer == if |regular| == 1 then 0.0 else old(spawnTimer) + delta
      ensures forall o :: o in regular ==>
        && fresh(o) && o.x == GAME_WIDTH + OBSTACLE_ENTRY_OFFSET
        && o.kind == RegularKind(old(difficultyLevel), draws.regular.kind)
      ensures |aimed| == (if old(aimedSpawnTimer) + delta >= Between(AIMED_MIN_INTERVAL, AIMED_MAX_INTERVAL, draws.aimedInterval) as real then 1 else 0)
      ensures aimedSpawnTimer == if |aimed| == 1 then 0.0 else old(aimedSpawnTimer) + delta
      ensures forall o :: o in aimed ==>
        && fresh(o) && o.x == GAME_WIDTH + OBSTACLE_ENTRY_OFFSET
        && o.kind == Static && o.y == AimedY(this.playerY)
      ensures old(difficultyTimer) + delta >= DIFFICULTY_INCREASE_INTERVAL && old(difficultyLevel) < MAX_DIFFICULTY_LEVEL ==>
        difficultyLevel == old(difficultyLevel) + 1 && difficultyTimer == 0.0
      ensures !(old(difficultyTimer) + delta >= DIFFICULTY_INCREASE_INTERVAL && old(difficultyLevel) < MAX_DIFFICULTY_LEVEL) ==>
        difficultyLevel == old(difficultyLevel) && difficultyTimer == old(difficultyTimer) + delta
      ensures forall o :: o in regular ==>
        o.size == CrateSize(draws.regular.size) && o.y == RegularY(o.size, draws.regular.path, draws.regular.y) as real
      ensures forall o :: o in aimed ==> o.size == CrateSize(draws.aimed.size)
      ensures forall o :: o in regular && o.kind != MovingVertical ==> o.vx == -old(currentSpeed)
      ensures forall o :: o in aimed ==> o.vx == -old(currentSpeed)
      ensures forall o :: o in old(obstacles) ==> o.isDead == (old(o.isDead) || o.IsOffScreen())
      ensures forall o :: o in old(obstacles) ==> o.x == old(o.x) && o.y == old(o.y) && o.vx == old(o.vx)
      ensures forall k :: 0 <= k < old(|obstacles|) && !old(obstacles[k].isDead) && old(obstacles)[k].kind == MovingVertical ==>
        old(obstacles)[k].vy == BounceVelocity(old(obstacles[k].y), old(obstacles[k].vy), old(obstacles)[k].minY,
                                               old(obstacles)[k].maxY, BounceFactor(draws.bounce[k]))
      ensures forall k :: 0 <= k < old(|obstacles|) && (old(obstacles[k].isDead) || old(obstacles)[k].kind != MovingVertical) ==>
        old(obstacles)[k].vy == old(obstacles[k].vy)
      ensures obstacles == Filter(old(obstacles) + regular + aimed, Live(old(obstacles) + regular + aimed))
      ensures forall o :: o in obstacles ==> !o.isDead
      ensures marked == old(marked)
    {
      if playerY.Some? {
        this.playerY := playerY.value;
      }
      regular, aimed := RunTimers(delta, draws);
      RefreshObstacles(draws.bounce);
    }

    /** The timers of update, in order: the two spawn timers, then the difficulty timer. */
    method RunTimers(delta: real, draws: FrameDraws) returns (regular: seq<Obstacle>, aimed: seq<Obstacle>)
      requires Valid() && draws.Valid()
      modifies this
      ensures Valid()
      ensures |regular| == (if old(spawnTimer) + delta >= old(currentSpawnInterval) then 1 else 0)
      ensures spawnTimer == if |regular| == 1 then 0.0 else old(spawnTimer) + delta
      ensures forall o :: o in regular ==>
        && fresh(o) && !o.isDead && o.x == GAME_WIDTH + OBSTACLE_ENTRY_OFFSET
        && o.kind == RegularKind(old(difficultyLevel), draws.regular.kind)
        && o.size == CrateSize(draws.regular.size) && o.y == RegularY(o.size, draws.regular.path, draws.regular.y) as real
        && (o.kind != MovingVertical ==> o.vx == -old(currentSpeed))
      ensures |aimed| == (if old(aimedSpawnTimer) + delta >= Between(AIMED_MIN_INTERVAL, AIMED_MAX_INTERVAL, draws.aimedInterval) as real then 1 else 0)
      ensures aimedSpawnTimer == if |aimed| == 1 then 0.0 else old(aimedSpawnTimer) + delta
      ensures forall o :: o in aimed ==>
        && fresh(o) && !o.isDead && o.x == GAME_WIDTH + OBSTACLE_ENTRY_OFFSET
        && o.kind == Static && o.y == AimedY(playerY) && o.size == CrateSize(draws.aimed.size)
        && o.vx == -old(currentSpeed)
      ensures old(difficultyTimer) + delta >= DIFFICULTY_INCREASE_INTERVAL && old(difficultyLevel) < MAX_DIFFICULTY_LEVEL ==>
        difficultyLevel == old(difficultyLevel) + 1 && difficultyTimer == 0.0
      ensures !(old(difficultyTimer) + delta >= DIFFICULTY_INCREASE_INTERVAL && old(difficultyLevel) < MAX_DIFFICULTY_LEVEL) ==>
        difficultyLevel == old(difficultyLevel) && difficultyTimer == old(difficultyTimer) + delta
      ensures obstacles == old(obstacles) + regular + aimed
      ensures marked == old(marked) && playerY == old(playerY)
    {
      regular, aimed := RunSpawnTimers(delta, draws);
      RunDifficultyTimer(delta);
    }

    /** The end of update: every crate runs its update, crate k with bounce draw k, and the dead ones are dropped. */
    method RefreshObstacles(bounce: seq<real>)
      requires Valid()
      requires |bounce| >= |obstacles| && forall k :: 0 <= k < |bounce| ==> IsUniform(bounce[k])
      modifies this, set o | o in obstacles
      ensures Valid()
      ensures forall o :: o in old(obstacles) ==> o.isDead == (old(o.isDead) || o.IsOffScreen())
      ensures forall o :: o in old(obstacles) ==> o.x == old(o.x) && o.y == old(o.y) && o.vx == old(o.vx)
      ensures forall k :: 0 <= k < old(|obstacles|) && !old(obstacles[k].isDead) && old(obstacles)[k].kind == MovingVertical ==>
        old(obstacles)[k].vy == BounceVelocity(old(obstacles[k].y), old(obstacles[k].vy), old(obstacles)[k].minY,
                                               old(obstacles)[k].maxY, BounceFactor(bounce[k]))
      ensures forall k :: 0 <= k < old(|obstacles|) && (old(obstacles[k].isDead) || old(obstacles)[k].kind != MovingVertical) ==>
        old(obstacles)[k].vy == old(obstacles[k].vy)
      ensures obstacles == Filter(old(obstacles), Live(old(obstacles)))
      ensures forall o :: o in obstacles ==> !o.isDead
      ensures spawnTimer == old(spawnTimer) && aimedSpawnTimer == old(aimedSpawnTimer)
      ensures difficultyLevel == old(difficultyLevel) && difficultyTimer == old(difficultyTimer)
      ensures marked == old(marked) && playerY == old(playerY)
    {
      var all := obstacles;
      UpdateAll(all, bounce);
      FilterDistinct(all, Live(all));
      obstacles := Filter(all, Live(all));
    }

    /** The two spawn timers of update: the regular one, then the aimed one. */
    method RunSpawnTimers(delta: real, draws: FrameDraws) returns (regular: seq<Obstacle>, aimed: seq<Obstacle>)
      requires Valid() && draws.Valid()
      modifies this
      ensures Valid()
      ensures |regular| == (if old(spawnTimer) + delta >= currentSpawnInterval then 1 else 0)
      ensures spawnTimer == if |regular| == 1 then 0.0 else old(spawnTimer) + delta
      ensures forall o :: o in regular ==>
        && fresh(o) && !o.isDead && o.x == GAME_WIDTH + OBSTACLE_ENTRY_OFFSET
        && o.kind == RegularKind(difficultyLevel, draws.regular.kind)
        && o.size == CrateSize(draws.regular.size) && o.y == RegularY(o.size, draws.regular.path, draws.regular.y) as real
        && (o.kind != MovingVertical ==> o.vx == -currentSpeed)
      ensures |aimed| == (if old(aimedSpawnTimer) + delta >= Between(AIMED_MIN_INTERVAL, AIMED_MAX_INTERVAL, draws.aimedInterval) as real then 1 else 0)
      ensures aimedSpawnTimer == if |aimed| == 1 then 0.0 else old(aimedSpawnTimer) + delta
      ensures forall o :: o in aimed ==>
        && fresh(o) && !o.isDead && o.x == GAME_WIDTH + OBSTACLE_ENTRY_OFFSET
        && o.kind == Static && o.y == AimedY(playerY) && o.size == CrateSize(draws.aimed.size)
        && o.vx == -currentSpeed
      ensures obstacles == old(obstacles) + regular + aimed
      ensures difficultyLevel == old(difficultyLevel) && difficultyTimer == old(difficultyTimer)
      ensures currentSpawnInterval == old(currentSpawnInterval) && currentSpeed == old(currentSpeed)
      ensures marked == old(marked) && playerY == old(playerY)
    {
      spawnTimer := spawnTimer + delta;
      regular := [];
      if spawnTimer >= currentSpawnInterval {
        var o := SpawnObstacle(draws.regular);
        regular := [o];
        spawnTimer := 0.0;
      }

      aimedSpawnTimer := aimedSpawnTimer + delta;
      var aimedInterval := Between(AIMED_MIN_INTERVAL, AIMED_MAX_INTERVAL, draws.aimedInterval);
      aimed := [];
      if aimedSpawnTimer >= aimedInterval as real {
        var o := SpawnAimedObstacle(draws.aimed);
        aimed := [o];
        aimedSpawnTimer := 0.0;
      }
    }

    /** The difficulty timer of update: a level up once it reaches the interval, below the cap. */
    method RunDifficultyTimer(delta: real)
      requires Valid()
      modifies this
      ensures Valid()
      ensures old(difficultyTimer) + delta >= DIFFICULTY_INCREASE_INTERVAL && old(difficultyLevel) < MAX_DIFFICULTY_LEVEL ==>
        difficultyLevel == old(difficultyLevel) + 1 && difficultyTimer == 0.0
      ensures !(old(difficultyTimer) + delta >= DIFFICULTY_INCREASE_INTERVAL && old(difficultyLevel) < MAX_DIFFICULTY_LEVEL) ==>
        difficultyLevel == old(difficultyLevel) && difficultyTimer == old(difficultyTimer) + delta
      ensures obstacles == old(obstacles) && marked == old(marked) && playerY == old(playerY)
      ensures spawnTimer == old(spawnTimer) && aimedSpawnTimer == old(aimedSpawnTimer)
    {
      difficultyTimer := difficultyTimer + delta;
      if difficultyTimer >= DIFFICULTY_INCREASE_INTERVAL && difficultyLevel < MAX_DIFFICULTY_LEVEL {
        IncreaseDifficulty();
        difficultyTimer := 0.0;
      }
    }

    /**
     * spawnObstacle: one crate at the right edge with a random size in [30, 80], a
     * random height, and a kind that depends on the difficulty.
     */
    method SpawnObstacle(d: SpawnDraws) returns (o: Obstacle)
      requires Valid() && d.Valid()
      modifies this
      ensures Valid()
      ensures fresh(o) && !o.isDead
      ensures o.x == GAME_WIDTH + OBSTACLE_ENTRY_OFFSET
      ensures o.size == CrateSize(d.size) && OBSTACLE_MIN_SIZE <= o.size <= OBSTACLE_MAX_SIZE
      ensures o.y == RegularY(o.size, d.path, d.y) as real
      ensures o.kind == RegularKind(difficultyLevel, d.kind)
      ensures o.kind != MovingVertical ==> o.vx == -currentSpeed
      ensures o.bodyWidth == bodyWidth && o.bodyHeight == bodyHeight
      ensures obstacles == old(obstacles) + [o] && currentSpeed == old(currentSpeed)
      ensures spawnTimer == old(spawnTimer) && aimedSpawnTimer == old(aimedSpawnTimer)
      ensures difficultyLevel == old(difficultyLevel) && difficultyTimer == old(difficultyTimer)
      ensures marked == old(marked) && playerY == old(playerY)
    {
      var x := GAME_WIDTH + OBSTACLE_ENTRY_OFFSET;
      var size := CrateSize(d.size);
      var y := RegularY(size, d.path, d.y);
      var kind := RegularKind(difficultyLevel, d.kind);
      o := new Obstacle(x, y as real, kind, currentSpeed, size, d.launchVx, d.launchVy, d.drift, bodyWidth, bodyHeight);
      obstacles := obstacles + [o];
    }

    /** spawnAimedObstacle: one static crate at the right edge at the aimed height. */
    method SpawnAimedObstacle(d: SpawnDraws) returns (o: Obstacle)
      requires Valid() && d.Valid()
      modifies this
      ensures Valid()
      ensures fresh(o) && !o.isDead
      ensures o.x == GAME_WIDTH + OBSTACLE_ENTRY_OFFSET && o.y == AimedY(playerY) && o.kind == Static
      ensures o.size == CrateSize(d.size) && o.vx == -currentSpeed
      ensures o.bodyWidth == bodyWidth && o.bodyHeight == bodyHeight
      ensures obstacles == old(obstacles) + [o] && currentSpeed == old(currentSpeed)
      ensures spawnTimer == old(spawnTimer) && aimedSpawnTimer == old(aimedSpawnTimer)
      ensures difficultyLevel == old(difficultyLevel) && difficultyTimer == old(difficultyTimer)
      ensures marked == old(marked) && playerY == old(playerY)
    {
      var x := GAME_WIDTH + OBSTACLE_ENTRY_OFFSET;
      var size := CrateSize(d.size);
      var y := AimedY(playerY);
      o := new Obstacle(x, y, Static, currentSpeed, size, d.launchVx, d.launchVy, d.drift, bodyWidth, bodyHeight);
      obstacles := obstacles + [o];
    }

    /** increaseDifficulty: one level up, a shorter interval (floored) and faster crates. */
    method IncreaseDifficulty()
      requires Valid() && difficultyLevel < MAX_DIFFICULTY_LEVEL
      modifies this
      ensures Valid()
      ensures difficultyLevel == old(difficultyLevel) + 1
      ensures currentSpawnInterval == Max(OBSTACLE_MIN_SPAWN_INTERVAL, old(currentSpawnInterval) - OBSTACLE_SPAWN_DECREASE)
      ensures currentSpawnInterval < old(currentSpawnInterval)
      ensures currentSpeed == old(currentSpeed) + OBSTACLE_SPEED_INCREASE
      ensures obstacles == old(obstacles) && marked == old(marked) && playerY == old(playerY)
      ensures spawnTimer == old(spawnTimer) && aimedSpawnTimer == old(aimedSpawnTimer)
      ensures difficultyTimer == old(difficultyTimer)
    {
      SpawnIntervalLinear(difficultyLevel + 1);
      SpawnIntervalLinear(difficultyLevel);
      difficultyLevel := difficultyLevel + 1;
      currentSpawnInterval := Max(OBSTACLE_MIN_SPAWN_INTERVAL, currentSpawnInterval - OBSTACLE_SPAWN_DECREASE);
      currentSpeed := currentSpeed + OBSTACLE_SPEED_INCREASE;
    }

    /** removeObstacle: drop the first occurrence; nothing happens if it is not listed. */
    method RemoveObstacle(o: Obstacle)
      requires Valid()
      modifies this
      ensures Valid()
      ensures obstacles == RemoveFirst(old(obstacles), o)
      ensures o !in obstacles
      ensures spawnTimer == old(spawnTimer) && aimedSpawnTimer == old(aimedSpawnTimer)
      ensures difficultyLevel == old(difficultyLevel) && difficultyTimer == old(difficultyTimer)
      ensures marked == old(marked) && playerY == old(playerY)
    {
      RemoveFirstSubset(obstacles, o);
      var index := IndexOf(obstacles, o);
      if index != -1 {
        obstacles := obstacles[..index] + obstacles[index + 1..];
      }
    }

    /**
     * checkPassedObstacles: the listed crates that are past the airplane and not yet
     * marked, in list order; they are marked, so no later call returns them again.
     */
    method CheckPassedObstacles(airplaneX: real) returns (passed: seq<Obstacle>)
      requires Valid()
      modifies this
      ensures Valid()
      ensures passed == Filter(obstacles, NewlyPassed(obstacles, old(marked), airplaneX))
      ensures marked == old(marked) + NewlyPassed(obstacles, old(marked), airplaneX)
      ensures forall o :: o in passed ==> o !in old(marked) && o in marked
      ensures obstacles == old(obstacles)
      ensures spawnTimer == old(spawnTimer) && aimedSpawnTimer == old(aimedSpawnTimer)
      ensures difficultyLevel == old(difficultyLevel) && difficultyTimer == old(difficultyTimer)
      ensures playerY == old(playerY)
    {
      ghost var keep := NewlyPassed(obstacles, marked, airplaneX);
      var os := obstacles;
      var seen := marked;
      passed := [];
      for i := 0 to |os|
        invariant passed == Filter(os[..i], keep)
        invariant seen == old(marked) + (set o | o in os[..i] && o in keep)
        invariant unchanged(this)
      {
        var o := os[i];
        assert os[..i + 1] == os[..i] + [o];
        FilterAppend(os[..i], [o], keep);
        assert o !in os[..i];
        if o !in seen && o.HasPassed(airplaneX) {
          seen := seen + {o};
          passed := passed + [o];
        }
      }
      assert os[..|os|] == os;
      FilterMembers(os, keep);
      marked := seen;
    }

    /** reset: destroy every crate and restore every counter to its initial value. */
    method Reset()
      modifies this, set o | o in obstacles
      ensures Valid() && Initial()
      ensures forall o :: o in old(obstacles) ==> o.isDead
    {
      DestroyAll(obstacles);
      obstacles := [];
      spawnTimer := 0.0;
      aimedSpawnTimer := 0.0;
      currentSpawnInterval := OBSTACLE_SPAWN_INTERVAL;
      currentSpeed := OBSTACLE_START_SPEED;
      difficultyLevel := 0;
      difficultyTimer := 0.0;
      marked := {};
      playerY := 0.0;
    }
  }
}
