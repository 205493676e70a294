/**
 * Power-up pickups drifting left across the screen, and the projectiles the airplane
 * fires while a power-up is active.
 */
module PowerUpEntities {

  import opened GameTypes
  import opened Constants
  import opened EnemyPlaneEntity

  /** Projectiles beyond this margin around the screen are destroyed. */
  const OFFSCREEN_MARGIN: real := 100.0
  /** Pickups whose centre is left of this x are retired. */
  const POWERUP_EXIT_X: real := -30.0

  class PowerUp {
    var x: real
    var y: real
    const vx: real
    const kind: PowerUpType
    /** The size of the pickup's bounding box, which the engine computes from its sprite. */
    const boundsWidth: real
    const boundsHeight: real
    var isCollected: bool

    /** A pickup drifts left at the given speed. */
    constructor (x: real, y: real, kind: PowerUpType, speed: real, boundsWidth: real, boundsHeight: real)
      ensures this.x == x && this.y == y && this.kind == kind && vx == -speed
      ensures this.boundsWidth == boundsWidth && this.boundsHeight == boundsHeight
      ensures !isCollected
    {
      this.x := x;
      this.y := y;
      this.kind := kind;
      vx := -speed;
      this.boundsWidth := boundsWidth;
      this.boundsHeight := boundsHeight;
      isCollected := false;
    }

    /** update: a pickup that has left the screen is retired (marked collected). */
    method Update()
      modifies this
      ensures isCollected == (old(isCollected) || x < POWERUP_EXIT_X)
      ensures x == old(x) && y == old(y)
    {
      if x < POWERUP_EXIT_X {
        Destroy();
      }
    }

    /** collect: mark collected; a second call changes nothing. */
    method Collect()
      modifies this
      ensures isCollected && x == old(x) && y == old(y)
    {
      if isCollected {
        return;
      }
      isCollected := true;
    }

    /** destroy: mark collected; a second call changes nothing. */
    method Destroy()
      modifies this
      ensures isCollected && x == old(x) && y == old(y)
    {
      if !isCollected {
        isCollected := true;
      }
    }
  }

  /** The projectile's body size: a laser beam, or a rectangle twice as wide as tall. */
  function ProjectileSize(kind: PowerUpType): (size: (real, real))
    ensures kind == Laser ==> size == (LASER_LENGTH, 4.0)
    ensures kind != Laser ==> size.0 == 2.0 * size.1
    ensures kind == Rocket ==> size.1 == 12.0
    ensures kind == Bullet ==> size.1 == 6.0
  {
    match kind
    case Laser => (LASER_LENGTH, 4.0)
    case Rocket => (24.0, 12.0)
    case Bullet => (12.0, 6.0)
  }

  /** A projectile outside the screen by more than the margin on any side. */
  predicate OutsideMargin(x: real, y: real) {
    x > GAME_WIDTH + OFFSCREEN_MARGIN || x < -OFFSCREEN_MARGIN ||
    y > GAME_HEIGHT + OFFSCREEN_MARGIN || y < -OFFSCREEN_MARGIN
  }

  class Projectile {
    var x: real
    var y: real
    var vx: real
    var vy: real
    const kind: PowerUpType
    const width: real
    const height: real
    /** The enemy a rocket homes on, if one was given. */
    const target: EnemyPlane?
    var isDead: bool

    /**
     * A laser is a still beam; bullets and rockets fly right at PROJECTILE_SPEED.
     * The laser's fade-out, which ends its life, is not modelled.
     */
    constructor (x: real, y: real, kind: PowerUpType, target: EnemyPlane?)
      ensures this.x == x && this.y == y && this.kind == kind && this.target == target
      ensures (width, height) == ProjectileSize(kind)
      ensures kind == Laser ==> vx == 0.0 && vy == 0.0
      ensures kind != Laser ==> vx == PROJECTILE_SPEED && vy == 0.0
      ensures !isDead
    {
      this.x := x;
      this.y := y;
      this.kind := kind;
      this.target := target;
      var size := ProjectileSize(kind);
      width, height := size.0, size.1;
      if kind == Laser {
        vx, vy := 0.0, 0.0;
      } else {
        vx, vy := PROJECTILE_SPEED, 0.0;
      }
      isDead := false;
    }

    /** Homing applies to a rocket whose target exists and is still alive. */
    predicate Homes()
      reads this, target
    {
      kind == Rocket && target != null && !target.isDead
    }

    /**
     * update: nothing for a dead projectile; a homing rocket takes the steering
     * velocity (the engine's heading toward the target, at PROJECTILE_SPEED); a
     * projectile beyond the margin is destroyed.
     */
    method Update(steerVx: real, steerVy: real)
      modifies this
      ensures old(isDead) ==> unchanged(this)
      ensures !old(isDead) && Homes() ==> vx == steerVx && vy == steerVy
      ensures !old(isDead) && !Homes() ==> vx == old(vx) && vy == old(vy)
      ensures !old(isDead) ==> isDead == OutsideMargin(x, y)
      ensures x == old(x) && y == old(y)
    {
      if isDead {
        return;
      }
      if kind == Rocket && target != null && !target.isDead {
        vx, vy := steerVx, steerVy;
      }
      if x > GAME_WIDTH + OFFSCREEN_MARGIN || x < -OFFSCREEN_MARGIN ||
         y > GAME_HEIGHT + OFFSCREEN_MARGIN || y < -OFFSCREEN_MARGIN {
        Destroy();
      }
    }

    /** destroy: mark dead; a second call changes nothing. */
    method Destroy()
      modifies this
      ensures isDead
      ensures x == old(x) && y == old(y) && vx == old(vx) && vy == old(vy)
    {
      if !isDead {
        isDead := true;
      }
    }
  }

  /** A rocket fired without a target keeps flying straight: its update never steers. */
  method UntargetedRocketFliesStraight(x: real, y: real, steerVx: real, steerVy: real)
    returns (vx: real, vy: real)
    ensures vx == PROJECTILE_SPEED && vy == 0.0
  {
    var p := new Projectile(x, y, Rocket, null);
    p.Update(steerVx, steerVy);
    vx, vy := p.vx, p.vy;
  }

  /** Inside the screen a projectile survives its update; far outside it does not. */
  lemma MarginBoundary(x: real, y: real)
    ensures 0.0 <= x <= GAME_WIDTH && 0.0 <= y <= GAME_HEIGHT ==> !OutsideMargin(x, y)
    ensures x > GAME_WIDTH + OFFSCREEN_MARGIN ==> OutsideMargin(x, y)
  {
  }
}
