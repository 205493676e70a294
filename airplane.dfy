/**
 * The player's airplane: it eases toward the cursor's height at AIRPLANE_SPEED and
 * is kept inside the screen.
 */
module AirplaneEntity {

  import opened Constants
  import opened PhaserMath
  import opened Chase

  /** The dead zone of the follow: closer than one pixel the airplane does not move. */
  const FOLLOW_DEAD_ZONE: real := 1.0
  const AIRPLANE_MIN_Y: real := AIRPLANE_SIZE / 2.0
  const AIRPLANE_MAX_Y: real := GAME_HEIGHT - AIRPLANE_SIZE / 2.0
  /** The physics body: AIRPLANE_SIZE wide, 0.6 * AIRPLANE_SIZE tall. */
  const AIRPLANE_BODY_WIDTH: real := AIRPLANE_SIZE
  const AIRPLANE_BODY_HEIGHT: real := AIRPLANE_SIZE * 0.6

  /** The largest move of one frame: AIRPLANE_SPEED pixels per second over delta milliseconds. */
  function FollowDistance(delta: real): (d: real)
    ensures delta >= 0.0 ==> d >= 0.0
    ensures d * 1000.0 == AIRPLANE_SPEED * delta
  {
    AIRPLANE_SPEED * (delta / 1000.0)
  }

  class Airplane {
    const x: real
    var y: real
    var targetY: real
    var isDead: bool

    /** The airplane starts at rest: its target is its own height. Its body is 50 x 30. */
    constructor (x: real, y: real)
      ensures this.x == x && this.y == y && targetY == y && !isDead
    {
      this.x := x;
      this.y := y;
      targetY := y;
      isDead := false;
    }

    /**
     * update: nothing for a dead airplane; otherwise move toward the target by at most
     * the follow distance and clamp into [25, height - 25].
     */
    method Update(delta: real)
      modifies this
      ensures old(isDead) ==> unchanged(this)
      ensures !old(isDead) ==>
        y == Clamp(Step(old(y), targetY, FollowDistance(delta), FOLLOW_DEAD_ZONE), AIRPLANE_MIN_Y, AIRPLANE_MAX_Y)
      ensures !old(isDead) ==> AIRPLANE_MIN_Y <= y <= AIRPLANE_MAX_Y
      ensures targetY == old(targetY) && isDead == old(isDead)
    {
      if isDead {
        return;
      }
      var currentY := y;
      var diff := targetY - currentY;
      if Abs(diff) > FOLLOW_DEAD_ZONE {
        var moveSpeed := AIRPLANE_SPEED * (delta / 1000.0);
        var moveAmount := Sign(diff) * Min(Abs(diff), moveSpeed);
        y := y + moveAmount;
      }
      y := Clamp(y, AIRPLANE_MIN_Y, AIRPLANE_MAX_Y);
    }

    /** setTargetY: only the target changes. */
    method SetTargetY(target: real)
      modifies this
      ensures targetY == target
      ensures y == old(y) && isDead == old(isDead)
    {
      targetY := target;
    }

    /** die: mark the airplane dead (the death animation is not modelled). */
    method Die()
      modifies this
      ensures isDead
      ensures y == old(y) && targetY == old(targetY)
    {
      isDead := true;
    }
  }

  /**
   * Following a target inside the band never overshoots it, and the clamp never
   * moves the airplane away from a target inside the band.
   */
  lemma FollowApproaches(y: real, target: real, delta: real)
    requires delta >= 0.0
    requires AIRPLANE_MIN_Y <= y <= AIRPLANE_MAX_Y && AIRPLANE_MIN_Y <= target <= AIRPLANE_MAX_Y
    ensures var r := Clamp(Step(y, target, FollowDistance(delta), FOLLOW_DEAD_ZONE), AIRPLANE_MIN_Y, AIRPLANE_MAX_Y);
      && Abs(target - r) <= Abs(target - y)
      && (Abs(target - y) <= FOLLOW_DEAD_ZONE ==> r == y)
      && (FOLLOW_DEAD_ZONE < Abs(target - y) <= FollowDistance(delta) ==> r == target)
  {
    StepApproaches(y, target, FollowDistance(delta), FOLLOW_DEAD_ZONE);
  }

  /** Outside the band, a still airplane is pulled back to the nearest edge. */
  lemma ClampPullsInside(y: real, target: real)
    requires Abs(target - y) <= FOLLOW_DEAD_ZONE
    ensures var r := Clamp(Step(y, target, FollowDistance(0.0), FOLLOW_DEAD_ZONE), AIRPLANE_MIN_Y, AIRPLANE_MAX_Y);
      && (y < AIRPLANE_MIN_Y ==> r == AIRPLANE_MIN_Y)
      && (y > AIRPLANE_MAX_Y ==> r == AIRPLANE_MAX_Y)
      && (AIRPLANE_MIN_Y <= y <= AIRPLANE_MAX_Y ==> r == y)
  {
  }
}
