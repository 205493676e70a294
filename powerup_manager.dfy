/**
 * The power-up manager: it spawns pickups on a timer with a small chance, keeps the
 * active power-up and its remaining time, and fires projectiles at the active type's
 * rate.
 */
module PowerUpManagement {

  import opened GameTypes
  import opened Constants
  import opened PhaserMath
  import opened JsArray
  import opened PowerUpEntities

  /**
   * The manager's own fire rate when no power-up is active. The fire controller has
   * a different one (FireControl.NO_POWERUP_FIRE_RATE); the two are separate code.
   */
  const IDLE_FIRE_RATE: real := 1000.0
  /** Pickups enter this far right of the screen. */
  const POWERUP_ENTRY_OFFSET: real := 30.0
  /** Pickups keep this distance from the top and bottom edges. */
  const POWERUP_EDGE_MARGIN: real := 50.0

  /** The active power-up, the time it has left and the time since the last shot. */
  datatype ActiveState = ActiveState(current: Option<PowerUpType>, remaining: real, fireTimer: real)

  /** The random draws of one update: whether a pickup appears, its type, its height. */
  datatype PowerUpDraws = PowerUpDraws(chance: real, kind: real, y: real)
  {
    predicate Valid() {
      IsUniform(chance) && IsUniform(kind) && IsUniform(y)
    }
  }

  /** `types[Math.floor(Math.random() * 3)]` over [BULLET, ROCKET, LASER]: each a third of the draws. */
  function KindOf(u: real): (kind: PowerUpType)
    requires IsUniform(u)
    ensures kind == Bullet <==> u < 1.0 / 3.0
    ensures kind == Rocket <==> 1.0 / 3.0 <= u < 2.0 / 3.0
    ensures kind == Laser <==> 2.0 / 3.0 <= u
  {
    var index := (u * 3.0).Floor;
    if index == 0 then Bullet else if index == 1 then Rocket else Laser
  }

  function LivePickups(ps: seq<PowerUp>): set<PowerUp>
    reads set p | p in ps
  {
    set p | p in ps && !p.isCollected
  }

  function LiveProjectiles(ps: seq<Projectile>): set<Projectile>
    reads set p | p in ps
  {
    set p | p in ps && !p.isDead
  }

  /** `powerUps.forEach(p => p.update())`. */
  method UpdatePickups(ps: seq<PowerUp>)
    modifies set p | p in ps
    ensures forall p :: p in ps ==> p.isCollected == (old(p.isCollected) || p.x < POWERUP_EXIT_X)
    ensures forall p :: p in ps ==> p.x == old(p.x) && p.y == old(p.y)
  {
    for i := 0 to |ps|
      invariant forall p :: p in ps[..i] ==> p.isCollected == (old(p.isCollected) || p.x < POWERUP_EXIT_X)
      invariant forall p :: p in ps && p !in ps[..i] ==> p.isCollected == old(p.isCollected)
      invariant forall p :: p in ps ==> p.x == old(p.x) && p.y == old(p.y)
    {
      assert ps[..i + 1] == ps[..i] + [ps[i]];
      ps[i].Update();
    }
    assert ps[..|ps|] == ps;
  }

  /**
   * `projectiles.forEach(p => p.update())` for projectiles without a homing target:
   * the steering velocity is never used, and each projectile dies once it is beyond
   * the margin.
   */
  method UpdateProjectiles(ps: seq<Projectile>)
    requires forall p :: p in ps ==> p.target == null
    modifies set p | p in ps
    ensures forall p :: p in ps ==> p.isDead == (old(p.isDead) || OutsideMargin(p.x, p.y))
    ensures forall p :: p in ps ==> p.x == old(p.x) && p.y == old(p.y) && p.vx == old(p.vx) && p.vy == old(p.vy)
  {
    for i := 0 to |ps|
      invariant forall p :: p in ps[..i] ==> p.isDead == (old(p.isDead) || OutsideMargin(p.x, p.y))
      invariant forall p :: p in ps && p !in ps[..i] ==> p.isDead == old(p.isDead)
      invariant forall p :: p in ps ==> p.x == old(p.x) && p.y == old(p.y) && p.vx == old(p.vx) && p.vy == old(p.vy)
    {
      assert ps[..i + 1] == ps[..i] + [ps[i]];
      ps[i].Update(0.0, 0.0);
    }
    assert ps[..|ps|] == ps;
  }

  method DestroyPickups(ps: seq<PowerUp>)
    modifies set p | p in ps
    ensures forall p :: p in ps ==> p.isCollected
  {
    for i := 0 to |ps|
      invariant forall p :: p in ps[..i] ==> p.isCollected
    {
      assert ps[..i + 1] == ps[..i] + [ps[i]];
      ps[i].Destroy();
    }
    assert ps[..|ps|] == ps;
  }

  method DestroyProjectiles(ps: seq<Projectile>)
    modifies set p | p in ps
    ensures forall p :: p in ps ==> p.isDead
  {
    for i := 0 to |ps|
      invariant forall p :: p in ps[..i] ==> p.isDead
    {
      assert ps[..i + 1] == ps[..i] + [ps[i]];
      ps[i].Destroy();
    }
    assert ps[..|ps|] == ps;
  }

  class PowerUpManager {
    var powerUps: seq<PowerUp>
    var projectiles: seq<Projectile>
    var spawnTimer: real
    var currentPowerUp: Option<PowerUpType>
    var powerUpTimeRemaining: real
    var fireTimer: real
    /** The size of a pickup's bounding box, which the engine computes from its sprite. */
    const pickupWidth: real
    const pickupHeight: real

    /**
     * The lists hold no duplicates; a power-up is active exactly while it has time left;
     * and no projectile has a homing target, because fireProjectile never passes one.
     */
    ghost predicate Valid()
      reads this
    {
      && Distinct(powerUps) && Distinct(projectiles)
      && (currentPowerUp.None? ==> powerUpTimeRemaining == 0.0)
      && (currentPowerUp.Some? ==> powerUpTimeRemaining > 0.0)
      && (forall p :: p in projectiles ==> p.target == null)
    }

    predicate Initial()
      reads this
    {
      && powerUps == [] && projectiles == [] && spawnTimer == 0.0
      && currentPowerUp == None && powerUpTimeRemaining == 0.0 && fireTimer == 0.0
    }

    constructor (pickupWidth: real, pickupHeight: real)
      ensures Valid() && Initial()
      ensures this.pickupWidth == pickupWidth && this.pickupHeight == pickupHeight
    {
      powerUps := [];
      projectiles := [];
      spawnTimer := 0.0;
      currentPowerUp := None;
      powerUpTimeRemaining := 0.0;
      fireTimer := 0.0;
      this.pickupWidth := pickupWidth;
      this.pickupHeight := pickupHeight;
    }

    function Active(): (s: ActiveState)
      reads this
      ensures s.current == currentPowerUp && s.remaining == powerUpTimeRemaining && s.fireTimer == fireTimer
    {
      ActiveState(currentPowerUp, powerUpTimeRemaining, fireTimer)
    }

    /** getFireRate: the active type's rate, or 1000 ms when none is active. */
    function GetFireRate(): (rate: real)
      reads this
      ensures rate > 0.0
      ensures currentPowerUp.Some? ==> rate == FireRateOf(currentPowerUp.value)
      ensures currentPowerUp.None? ==> rate == IDLE_FIRE_RATE
    {
      match currentPowerUp
      case Some(kind) => FireRateOf(kind)
      case None => IDLE_FIRE_RATE
    }

    /** canFire: a power-up is active and its fire rate has passed since the last shot. */
    function CanFire(): (ok: bool)
      reads this
      ensures ok <==> currentPowerUp.Some? && fireTimer >= FireRateOf(currentPowerUp.value)
    {
      if currentPowerUp.None? then false else fireTimer >= GetFireRate()
    }

    /**
     * update: run the spawn timer (a pickup appears with a 15% draw when it reaches the
     * interval, and the timer restarts either way); update the pickups and projectiles
     * and drop the collected and dead ones; then run down the active power-up.
     */
    method Update(delta: real, draws: PowerUpDraws) returns (ghost spawned: seq<PowerUp>)
      requires Valid() && draws.Valid()
      modifies this, set p | p in powerUps, set p | p in projectiles
      ensures Valid()
      ensures old(spawnTimer) + delta >= POWERUP_SPAWN_INTERVAL ==>
        spawnTimer == 0.0 && |spawned| == (if draws.chance < POWERUP_SPAWN_CHANCE then 1 else 0)
      ensures old(spawnTimer) + delta < POWERUP_SPAWN_INTERVAL ==>
        spawnTimer == old(spawnTimer) + delta && spawned == []
      ensures forall p :: p in spawned ==> fresh(p) && p.kind == KindOf(draws.kind)
      ensures forall p :: p in old(powerUps) ==> p.isCollected == (old(p.isCollected) || p.x < POWERUP_EXIT_X)
      ensures powerUps == Filter(old(powerUps) + spawned, LivePickups(old(powerUps) + spawned))
      ensures forall p :: p in old(projectiles) ==> p.isDead == (old(p.isDead) || OutsideMargin(p.x, p.y))
      ensures projectiles == Filter(old(projectiles), LiveProjectiles(old(projectiles)))
      ensures forall p :: p in powerUps ==> !p.isCollected
      ensures forall p :: p in projectiles ==> !p.isDead
      ensures old(currentPowerUp).None? ==>
        currentPowerUp == None && powerUpTimeRemaining == 0.0 && fireTimer == old(fireTimer)
      ensures old(currentPowerUp).Some? ==> fireTimer == old(fireTimer) + delta
      ensures old(currentPowerUp).Some? && old(powerUpTimeRemaining) - delta > 0.0 ==>
        currentPowerUp == old(currentPowerUp) && powerUpTimeRemaining == old(powerUpTimeRemaining) - delta
      ensures old(currentPowerUp).Some? && old(powerUpTimeRemaining) - delta <= 0.0 ==>
        currentPowerUp == None && powerUpTimeRemaining == 0.0
    {
      spawned := RunSpawnTimer(delta, draws);
      RefreshPickups();
      RefreshProjectiles();
      RunPowerUpTimer(delta);
    }

    /** The spawn-timer part of update. */
    method RunSpawnTimer(delta: real, draws: PowerUpDraws) returns (ghost spawned: seq<PowerUp>)
      requires Valid() && draws.Valid()
      modifies this
      ensures Valid()
      ensures old(spawnTimer) + delta >= POWERUP_SPAWN_INTERVAL ==>
        spawnTimer == 0.0 && |spawned| == (if draws.chance < POWERUP_SPAWN_CHANCE then 1 else 0)
      ensures old(spawnTimer) + delta < POWERUP_SPAWN_INTERVAL ==>
        spawnTimer == old(spawnTimer) + delta && spawned == []
      ensures forall p :: p in spawned ==> fresh(p) && !p.isCollected && p.kind == KindOf(draws.kind)
      ensures powerUps == old(powerUps) + spawned
      ensures projectiles == old(projectiles)
      ensures currentPowerUp == old(currentPowerUp) && powerUpTimeRemaining == old(powerUpTimeRemaining)
      ensures fireTimer == old(fireTimer)
    {
      spawnTimer := spawnTimer + delta;
      spawned := [];
      if spawnTimer >= POWERUP_SPAWN_INTERVAL {
        if draws.chance < POWERUP_SPAWN_CHANCE {
          var p := SpawnPowerUp(draws.kind, draws.y);
          spawned := [p];
        }
        spawnTimer := 0.0;
      }
    }

    /** Update every pickup and keep the ones not collected. */
    method RefreshPickups()
      requires Valid()
      modifies this, set p | p in powerUps
      ensures Valid()
      ensures forall p :: p in old(powerUps) ==> p.isCollected == (old(p.isCollected) || p.x < POWERUP_EXIT_X)
      ensures powerUps == Filter(old(powerUps), LivePickups(old(powerUps)))
      ensures forall p :: p in powerUps ==> !p.isCollected
      ensures projectiles == old(projectiles) && spawnTimer == old(spawnTimer)
      ensures currentPowerUp == old(currentPowerUp) && powerUpTimeRemaining == old(powerUpTimeRemaining)
      ensures fireTimer == old(fireTimer)
    {
      var pickups := powerUps;
      UpdatePickups(pickups);
      FilterDistinct(pickups, LivePickups(pickups));
      powerUps := Filter(pickups, LivePickups(pickups));
    }

    /** Update every projectile and keep the live ones. */
    method RefreshProjectiles()
      requires Valid()
      modifies this, set p | p in projectiles
      ensures Valid()
      ensures forall p :: p in old(projectiles) ==> p.isDead == (old(p.isDead) || OutsideMargin(p.x, p.y))
      ensures projectiles == Filter(old(projectiles), LiveProjectiles(old(projectiles)))
      ensures forall p :: p in projectiles ==> !p.isDead
      ensures powerUps == old(powerUps) && spawnTimer == old(spawnTimer)
      ensures currentPowerUp == old(currentPowerUp) && powerUpTimeRemaining == old(powerUpTimeRemaining)
      ensures fireTimer == old(fireTimer)
    {
      var shots := projectiles;
      UpdateProjectiles(shots);
      FilterDistinct(shots, LiveProjectiles(shots));
      projectiles := Filter(shots, LiveProjectiles(shots));
    }

    /** The active-duration part of update: the same logic as the stand-alone fire controller. */
    method RunPowerUpTimer(delta: real)
      requires Valid()
      modifies this
      ensures Valid()
      ensures old(currentPowerUp).None? ==>
        currentPowerUp == None && powerUpTimeRemaining == 0.0 && fireTimer == old(fireTimer)
      ensures old(currentPowerUp).Some? ==> fireTimer == old(fireTimer) + delta
      ensures old(currentPowerUp).Some? && old(powerUpTimeRemaining) - delta > 0.0 ==>
        currentPowerUp == old(currentPowerUp) && powerUpTimeRemaining == old(powerUpTimeRemaining) - delta
      ensures old(currentPowerUp).Some? && old(powerUpTimeRemaining) - delta <= 0.0 ==>
        currentPowerUp == None && powerUpTimeRemaining == 0.0
      ensures powerUps == old(powerUps) && projectiles == old(projectiles) && spawnTimer == old(spawnTimer)
    {
      if currentPowerUp.Some? {
        powerUpTimeRemaining := powerUpTimeRemaining - delta;
        fireTimer := fireTimer + delta;
        if powerUpTimeRemaining <= 0.0 {
          currentPowerUp := None;
          powerUpTimeRemaining := 0.0;
        }
      }
    }

    /**
     * spawnPowerUp: one pickup of a random type at the right edge, at a random height in
     * [50, height - 50], drifting left at the obstacles' start speed.
     */
    method SpawnPowerUp(kindDraw: real, yDraw: real) returns (p: PowerUp)
      requires Valid() && IsUniform(kindDraw) && IsUniform(yDraw)
      modifies this
      ensures Valid()
      ensures fresh(p) && !p.isCollected && p.kind == KindOf(kindDraw)
      ensures p.x == GAME_WIDTH + POWERUP_ENTRY_OFFSET
      ensures POWERUP_EDGE_MARGIN <= p.y <= GAME_HEIGHT - POWERUP_EDGE_MARGIN
      ensures p.vx == -OBSTACLE_START_SPEED
      ensures powerUps == old(powerUps) + [p]
      ensures projectiles == old(projectiles) && spawnTimer == old(spawnTimer)
      ensures currentPowerUp == old(currentPowerUp) && powerUpTimeRemaining == old(powerUpTimeRemaining)
      ensures fireTimer == old(fireTimer)
    {
      var kind := KindOf(kindDraw);
      var x := GAME_WIDTH + POWERUP_ENTRY_OFFSET;
      BetweenWhole(50, 718, yDraw);
      var y := Between(POWERUP_EDGE_MARGIN, GAME_HEIGHT - POWERUP_EDGE_MARGIN, yDraw);
      p := new PowerUp(x, y as real, kind, OBSTACLE_START_SPEED, pickupWidth, pickupHeight);
      powerUps := powerUps + [p];
    }

    /** activatePowerUp: the new type replaces any active one with a full duration and a fresh fire timer. */
    method ActivatePowerUp(kind: PowerUpType)
      requires Valid()
      modifies this
      ensures Valid()
      ensures currentPowerUp == Some(kind) && powerUpTimeRemaining == POWERUP_DURATION && fireTimer == 0.0
      ensures powerUps == old(powerUps) && projectiles == old(projectiles) && spawnTimer == old(spawnTimer)
    {
      currentPowerUp := Some(kind);
      powerUpTimeRemaining := POWERUP_DURATION;
      fireTimer := 0.0;
    }

    /**
     * fireProjectile: when the active power-up may fire, append one projectile of its
     * type at (x, y), without a homing target, and restart the fire timer; otherwise
     * return null and change nothing.
     */
    method FireProjectile(x: real, y: real) returns (p: Projectile?)
      requires Valid()
      modifies this
      ensures Valid()
      ensures !old(CanFire()) ==> p == null && unchanged(this)
      ensures old(CanFire()) ==>
        && p != null && fresh(p) && !p.isDead
        && currentPowerUp.Some? && p.kind == currentPowerUp.value && p.x == x && p.y == y && p.target == null
        && projectiles == old(projectiles) + [p] && fireTimer == 0.0
      ensures currentPowerUp == old(currentPowerUp) && powerUpTimeRemaining == old(powerUpTimeRemaining)
      ensures powerUps == old(powerUps) && spawnTimer == old(spawnTimer)
    {
      if !CanFire() || currentPowerUp.None? {
        return null;
      }
      p := new Projectile(x, y, currentPowerUp.value, null);
      projectiles := projectiles + [p];
      fireTimer := 0.0;
    }

    /** removeProjectile: destroy and drop the first occurrence; nothing happens if it is not listed. */
    method RemoveProjectile(p: Projectile)
      requires Valid()
      modifies this, p
      ensures Valid()
      ensures projectiles == RemoveFirst(old(projectiles), p)
      ensures p !in projectiles
      ensures p in old(projectiles) ==> p.isDead
      ensures p !in old(projectiles) ==> p.isDead == old(p.isDead)
      ensures p.x == old(p.x) && p.y == old(p.y)
      ensures powerUps == old(powerUps) && spawnTimer == old(spawnTimer)
      ensures currentPowerUp == old(currentPowerUp) && powerUpTimeRemaining == old(powerUpTimeRemaining)
      ensures fireTimer == old(fireTimer)
    {
      RemoveFirstSubset(projectiles, p);
      var index := IndexOf(projectiles, p);
      if index != -1 {
        p.Destroy();
        projectiles := projectiles[..index] + projectiles[index + 1..];
      }
    }

    /** reset: destroy every pickup and projectile and restore the initial state. */
    method Reset()
      modifies this, set p | p in powerUps, set p | p in projectiles
      ensures Valid() && Initial()
      ensures forall p :: p in old(powerUps) ==> p.isCollected
      ensures forall p :: p in old(projectiles) ==> p.isDead
    {
      DestroyPickups(powerUps);
      DestroyProjectiles(projectiles);
      powerUps := [];
      projectiles := [];
      spawnTimer := 0.0;
      currentPowerUp := None;
      powerUpTimeRemaining := 0.0;
      fireTimer := 0.0;
    }
  }

  /**
   * Without an active power-up nothing fires; right after activation nothing fires
   * either, because the fire timer starts at 0.
   */
  method NoShotWithoutFireTime(kind: PowerUpType, x: real, y: real) returns (idle: Projectile?, early: Projectile?)
    ensures idle == null && early == null
  {
    var m := new PowerUpManager(32.0, 32.0);
    idle := m.FireProjectile(x, y);
    m.ActivatePowerUp(kind);
    early := m.FireProjectile(x, y);
  }
}
