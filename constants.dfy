/**
 * The game's tuning constants. Lengths and times are reals (pixels, milliseconds),
 * score, lives and difficulty levels are integers.
 */
module Constants {

  import opened GameTypes

  const GAME_WIDTH: real := 1024.0
  const GAME_HEIGHT: real := 768.0

  // Airplane
  const AIRPLANE_START_X: real := 150.0
  const AIRPLANE_START_Y: real := GAME_HEIGHT / 2.0
  const AIRPLANE_SPEED: real := 300.0        // pixels per second
  const AIRPLANE_SIZE: real := 50.0

  // Obstacles
  const OBSTACLE_START_SPEED: real := 200.0
  const OBSTACLE_SPAWN_INTERVAL: real := 2000.0
  const OBSTACLE_MIN_SPAWN_INTERVAL: real := 800.0
  const OBSTACLE_SPAWN_DECREASE: real := 50.0  // per level
  const OBSTACLE_SPEED_INCREASE: real := 10.0  // per level
  const OBSTACLE_MIN_SIZE: int := 30
  const OBSTACLE_MAX_SIZE: int := 80

  // Difficulty
  const DIFFICULTY_INCREASE_INTERVAL: real := 10000.0
  const MAX_DIFFICULTY_LEVEL: int := 10

  // Power-ups
  const POWERUP_DURATION: real := 5000.0
  const POWERUP_SPAWN_CHANCE: real := 0.15
  const POWERUP_SPAWN_INTERVAL: real := 15000.0
  const BULLET_FIRE_RATE: real := 200.0
  const ROCKET_FIRE_RATE: real := 500.0
  const LASER_FIRE_RATE: real := 100.0
  const PROJECTILE_SPEED: real := 600.0
  const LASER_LENGTH: real := 200.0

  // Scoring
  const SCORE_PER_SECOND: int := 10
  const SCORE_PER_OBSTACLE_PASSED: int := 50
  const SCORE_PER_OBSTACLE_DESTROYED: int := 100

  // Lives
  const STARTING_LIVES: int := 3

  /**
   * The enemy-plane constants are imported by the enemy code but are not defined in the
   * constants file, so the model leaves them open: any values satisfying Valid().
   */
  datatype EnemyPlaneConstants = EnemyPlaneConstants(
    startDifficulty: int,   // ENEMY_PLANE_START_DIFFICULTY
    speed: real,            // ENEMY_PLANE_SPEED
    spawnInterval: real,    // ENEMY_PLANE_SPAWN_INTERVAL
    size: real              // ENEMY_PLANE_SIZE
  ) {
    predicate Valid() {
      startDifficulty > 0 && speed > 0.0 && spawnInterval > 0.0 && size > 0.0
    }
  }

  /** The minimum time between two shots of the given power-up type. */
  function FireRateOf(t: PowerUpType): (rate: real)
    ensures rate > 0.0
    ensures rate == LASER_FIRE_RATE || rate == BULLET_FIRE_RATE || rate == ROCKET_FIRE_RATE
  {
    match t
    case Bullet => BULLET_FIRE_RATE
    case Rocket => ROCKET_FIRE_RATE
    case Laser => LASER_FIRE_RATE
  }

  lemma FireRatesOrdered()
    ensures 0.0 < LASER_FIRE_RATE < BULLET_FIRE_RATE < ROCKET_FIRE_RATE
    ensures FireRateOf(Laser) < FireRateOf(Bullet) < FireRateOf(Rocket)
  {
  }

  lemma PassBonusBelowDestroyBonus()
    ensures 0 < SCORE_PER_OBSTACLE_PASSED < SCORE_PER_OBSTACLE_DESTROYED
  {
  }

  lemma SpawnIntervalBounds()
    ensures 0.0 < OBSTACLE_MIN_SPAWN_INTERVAL <= OBSTACLE_SPAWN_INTERVAL
    ensures OBSTACLE_SPAWN_DECREASE > 0.0
    ensures OBSTACLE_MIN_SIZE <= OBSTACLE_MAX_SIZE
    ensures STARTING_LIVES == 3
  {
  }

  lemma AirplaneStartInsideClamp()
    ensures AIRPLANE_SIZE / 2.0 <= AIRPLANE_START_Y <= GAME_HEIGHT - AIRPLANE_SIZE / 2.0
    ensures AIRPLANE_START_Y == 384.0
  {
  }
}
