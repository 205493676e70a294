/**
 * An enemy plane. It enters from the left, and each update it chases the player's
 * height at 30% of its speed, stays inside the vertical band its size allows, and is
 * destroyed once it is entirely past the left edge.
 */
module EnemyPlaneEntity {

  import opened Constants
  import opened PhaserMath
  import opened Chase

  /** The dead zone of the chase: closer than this the plane does not move. */
  const CHASE_DEAD_ZONE: real := 5.0

  /** The largest vertical move of one chase step: 30% of the speed over delta milliseconds. */
  function ChaseDistance(speed: real, delta: real): (d: real)
    ensures speed >= 0.0 && delta >= 0.0 ==> d >= 0.0
    ensures d * 1000.0 == speed * 0.3 * delta
  {
    speed * 0.3 * (delta / 1000.0)
  }

  class EnemyPlane {
    var x: real
    var y: real
    const speed: real
    const cfg: EnemyPlaneConstants
    var isDead: bool

    /** The plane flies right at its speed; its body is size wide and 0.6 * size tall. */
    constructor (x: real, y: real, speed: real, cfg: EnemyPlaneConstants)
      ensures this.x == x && this.y == y && this.speed == speed && this.cfg == cfg
      ensures !isDead
    {
      this.x := x;
      this.y := y;
      this.speed := speed;
      this.cfg := cfg;
      isDead := false;
    }

    /** The physics body: size wide, 0.6 * size tall. */
    function BodyWidth(): real
    {
      cfg.size
    }

    function BodyHeight(): real
    {
      cfg.size * 0.6
    }

    /** isOffScreen: entirely past the left edge. */
    predicate IsOffScreen()
      reads this
    {
      x < -cfg.size
    }

    /**
     * update: nothing for a dead plane; otherwise chase playerY, clamp into
     * [size/2, height - size/2], and destroy the plane if it is off the screen.
     */
    method Update(delta: real, playerY: real)
      modifies this
      ensures old(isDead) ==> unchanged(this)
      ensures !old(isDead) ==>
        && y == Clamp(Step(old(y), playerY, ChaseDistance(speed, delta), CHASE_DEAD_ZONE),
                      cfg.size / 2.0, GAME_HEIGHT - cfg.size / 2.0)
        && isDead == IsOffScreen()
      ensures !old(isDead) && cfg.size <= GAME_HEIGHT ==> cfg.size / 2.0 <= y <= GAME_HEIGHT - cfg.size / 2.0
      ensures x == old(x)
    {
      if isDead {
        return;
      }
      var diff := playerY - y;
      if Abs(diff) > CHASE_DEAD_ZONE {
        var chaseSpeed := speed * 0.3 * (delta / 1000.0);
        var moveAmount := Sign(diff) * Min(Abs(diff), chaseSpeed);
        y := y + moveAmount;
      }
      var minY := cfg.size / 2.0;
      var maxY := GAME_HEIGHT - cfg.size / 2.0;
      y := Clamp(y, minY, maxY);
      if x < -cfg.size {
        Destroy();
      }
    }

    /** destroy: mark dead; a second call changes nothing. */
    method Destroy()
      modifies this
      ensures isDead && x == old(x) && y == old(y)
    {
      if !isDead {
        isDead := true;
      }
    }

    /** explode: the same flag change as destroy (the particle effect is not modelled). */
    method Explode()
      modifies this
      ensures isDead && x == old(x) && y == old(y)
    {
      if isDead {
        return;
      }
      isDead := true;
    }
  }

  /**
   * Within the band, one chase step never moves the plane past the player's height,
   * and the gap shrinks by the full chase distance when it is larger than that.
   */
  lemma ChaseNeverOvershoots(y: real, playerY: real, speed: real, delta: real)
    requires speed >= 0.0 && delta >= 0.0
    ensures var d := ChaseDistance(speed, delta);
      var r := Step(y, playerY, d, CHASE_DEAD_ZONE);
      && Abs(playerY - r) <= Abs(playerY - y)
      && (Abs(playerY - y) > CHASE_DEAD_ZONE && Abs(playerY - y) > d ==> Abs(playerY - r) == Abs(playerY - y) - d)
  {
    StepApproaches(y, playerY, ChaseDistance(speed, delta), CHASE_DEAD_ZONE);
  }

  /**
   * A plane spawned at x = -100 whose size is below 100 is destroyed by its very
   * first update.
   */
  method SpawnedBehindDiesAtOnce(y: real, speed: real, cfg: EnemyPlaneConstants, delta: real, playerY: real)
    returns (dead: bool)
    requires cfg.size < 100.0
    ensures dead
  {
    var e := new EnemyPlane(-100.0, y, speed, cfg);
    e.Update(delta, playerY);
    dead := e.isDead;
  }
}
