/**
 * A crate obstacle. The physics engine moves it by its velocity between frames; the
 * game logic bounces moving crates off the top and bottom bands and retires crates
 * that have left the screen on the left.
 */
module ObstacleEntity {

  import opened GameTypes
  import opened Constants
  import opened PhaserMath

  /**
   * The vertical velocity after the bounce check of one update: moving up at or above
   * the top band turns downward, moving down at or below the bottom band turns upward,
   * each time scaled by a random factor `factor` in [0.8, 1.2].
   */
  function BounceVelocity(y: real, vy: real, minY: real, maxY: real, factor: real): (r: real)
    requires 0.8 <= factor <= 1.2
    ensures y <= minY && vy < 0.0 ==> r > 0.0 && 0.8 * -vy <= r <= 1.2 * -vy
    ensures !(y <= minY && vy < 0.0) && y >= maxY && vy > 0.0 ==> r < 0.0 && 0.8 * vy <= -r <= 1.2 * vy
    ensures !(y <= minY && vy < 0.0) && !(y >= maxY && vy > 0.0) ==> r == vy
  {
    if y <= minY && vy < 0.0 then ScaleSpeed(Abs(vy), factor)
    else if y >= maxY && vy > 0.0 then -ScaleSpeed(Abs(vy), factor)
    else vy
  }

  /** A speed scaled by a bounce factor stays within 80% and 120% of itself. */
  function ScaleSpeed(speed: real, factor: real): (r: real)
    requires speed >= 0.0 && 0.8 <= factor <= 1.2
    ensures 0.8 * speed <= r <= 1.2 * speed
  {
    ScaledMagnitude(speed, factor);
    speed * factor
  }

  lemma ScaledMagnitude(m: real, factor: real)
    requires m >= 0.0 && 0.8 <= factor <= 1.2
    ensures 0.8 * m <= m * factor <= 1.2 * m
  {
    assert (factor - 0.8) * m >= 0.0;
    assert (1.2 - factor) * m >= 0.0;
  }

  /** The random factor of a bounce: FloatBetween(0.8, 1.2). */
  function BounceFactor(u: real): (f: real)
    requires IsUniform(u)
    ensures 0.8 <= f < 1.2
  {
    FloatBetween(0.8, 1.2, u)
  }

  /** After a bounce the crate heads back into the playfield whenever it was leaving it. */
  lemma BounceTurnsBack(y: real, vy: real, minY: real, maxY: real, u: real)
    requires IsUniform(u) && minY < maxY
    ensures var r := BounceVelocity(y, vy, minY, maxY, BounceFactor(u));
      && (y <= minY ==> r >= 0.0 || vy >= 0.0)
      && (y >= maxY ==> r <= 0.0 || vy <= 0.0)
      && (y <= minY && vy != 0.0 ==> r > 0.0)
      && (y >= maxY && vy != 0.0 ==> r < 0.0)
  {
  }

  class Obstacle {
    var x: real
    var y: real
    var vx: real
    var vy: real
    const kind: ObstacleType
    const size: int
    /** Top and bottom of the band the crate's centre bounces between. */
    const minY: real
    const maxY: real
    /** The size of the crate's physics body, which the engine decides. */
    const bodyWidth: real
    const bodyHeight: real
    var isDead: bool

    /**
     * A vertically moving crate is launched with the engine's diagonal velocity
     * (launchVx, launchVy); any other crate moves left at `speed` with a small random
     * vertical drift.
     */
    constructor (x: real, y: real, kind: ObstacleType, speed: real, size: int,
                 launchVx: real, launchVy: real, driftDraw: real, bodyWidth: real, bodyHeight: real)
      requires IsUniform(driftDraw)
      ensures this.x == x && this.y == y && this.kind == kind && this.size == size
      ensures kind == MovingVertical ==> vx == launchVx && vy == launchVy
      ensures kind != MovingVertical ==> vx == -speed && -20.0 <= vy <= 20.0
      ensures minY == size as real / 2.0 && maxY == GAME_HEIGHT - size as real / 2.0
      ensures this.bodyWidth == bodyWidth && this.bodyHeight == bodyHeight
      ensures !isDead
    {
      this.x := x;
      this.y := y;
      this.kind := kind;
      this.size := size;
      if kind == MovingVertical {
        vx := launchVx;
        vy := launchVy;
      } else {
        vx := -speed;
        vy := FloatBetween(-20.0, 20.0, driftDraw);
      }
      minY := size as real / 2.0;
      maxY := GAME_HEIGHT - size as real / 2.0;
      this.bodyWidth := bodyWidth;
      this.bodyHeight := bodyHeight;
      isDead := false;
    }

    /** isOffScreen: the crate is entirely past the left edge. */
    predicate IsOffScreen()
      reads this
    {
      x < -(size as real)
    }

    /** hasPassed: the crate's right edge is behind the given x. */
    predicate HasPassed(airplaneX: real)
      reads this
    {
      x + size as real / 2.0 < airplaneX
    }

    /**
     * update: nothing for a dead crate; otherwise a vertically moving crate bounces
     * (with the random factor drawn from `bounceDraw`), and a crate off the screen is
     * destroyed.
     */
    method Update(bounceDraw: real)
      requires IsUniform(bounceDraw)
      modifies this
      ensures old(isDead) ==> unchanged(this)
      ensures !old(isDead) ==>
        && vy == (if kind == MovingVertical then BounceVelocity(y, old(vy), minY, maxY, BounceFactor(bounceDraw)) else old(vy))
        && isDead == IsOffScreen()
      ensures x == old(x) && y == old(y) && vx == old(vx)
    {
      if isDead {
        return;
      }
      if kind == MovingVertical {
        vy := BounceVelocity(y, vy, minY, maxY, BounceFactor(bounceDraw));
      }
      if x < -(size as real) {
        Destroy();
      }
    }

    /** destroy: mark dead; a second call changes nothing. */
    method Destroy()
      modifies this
      ensures isDead
      ensures x == old(x) && y == old(y) && vx == old(vx) && vy == old(vy)
    {
      if !isDead {
        isDead := true;
      }
    }

    /** explode: the same flag change as destroy (the particle effect is not modelled). */
    method Explode()
      modifies this
      ensures isDead
      ensures x == old(x) && y == old(y) && vx == old(vx) && vy == old(vy)
    {
      if isDead {
        return;
      }
      isDead := true;
    }
  }

  /** A crate that is off the screen has already passed any airplane at x >= 0. */
  lemma PassedBeforeOffScreen(x: real, size: int, airplaneX: real)
    requires size > 0 && airplaneX >= 0.0
    ensures x < -(size as real) ==> x + size as real / 2.0 < airplaneX
  {
  }
}
