/**
 * The stand-alone power-up fire controller: which power-up is active, how long it
 * has left, and the time since the last shot.
 */
module FireControl {

  import opened GameTypes
  import opened Constants

  /** The fire rate reported when no power-up is active: effectively never. */
  const NO_POWERUP_FIRE_RATE: real := 999999.0

  class PowerUpFireController {
    var current: Option<PowerUpType>
    var remaining: real
    var fireTimer: real

    /** A power-up is active exactly while it has time left; none active means none left. */
    ghost predicate Valid()
      reads this
    {
      (current.None? ==> remaining == 0.0) && (current.Some? ==> remaining > 0.0)
    }

    constructor ()
      ensures Valid()
      ensures current == None && remaining == 0.0 && fireTimer == 0.0
    {
      current := None;
      remaining := 0.0;
      fireTimer := 0.0;
    }

    /** activate: the new power-up replaces any active one with a full duration and a fresh timer. */
    method Activate(kind: PowerUpType)
      modifies this
      ensures Valid()
      ensures current == Some(kind) && remaining == POWERUP_DURATION && fireTimer == 0.0
    {
      current := Some(kind);
      remaining := POWERUP_DURATION;
      fireTimer := 0.0;
    }

    /**
     * update: while a power-up is active its time runs down and the fire timer runs up;
     * when no time is left it expires. Nothing happens while none is active.
     */
    method Update(delta: real)
      requires Valid()
      modifies this
      ensures Valid()
      ensures old(current).None? ==> current == None && remaining == 0.0 && fireTimer == old(fireTimer)
      ensures old(current).Some? ==> fireTimer == old(fireTimer) + delta
      ensures old(current).Some? && old(remaining) - delta > 0.0 ==>
                current == old(current) && remaining == old(remaining) - delta
      ensures old(current).Some? && old(remaining) - delta <= 0.0 ==> current == None && remaining == 0.0
    {
      if current.Some? {
        remaining := remaining - delta;
        fireTimer := fireTimer + delta;
        if remaining <= 0.0 {
          current := None;
          remaining := 0.0;
        }
      }
    }

    /** getFireRate: the active power-up's rate, or an unreachable one when none is active. */
    function GetFireRate(): (rate: real)
      reads this
      ensures rate > 0.0
      ensures current.None? ==> rate > FireRateOf(Bullet) && rate > FireRateOf(Rocket) && rate > FireRateOf(Laser)
      ensures current.Some? ==> rate == FireRateOf(current.value)
    {
      match current
      case Some(kind) => FireRateOf(kind)
      case None => NO_POWERUP_FIRE_RATE
    }

    /** canFire: a power-up is active and at least its fire rate has passed since the last shot. */
    function CanFire(): (ok: bool)
      reads this
      ensures ok <==> current.Some? && fireTimer >= FireRateOf(current.value)
    {
      current.Some? && fireTimer >= GetFireRate()
    }

    /** consumeShot: restart the fire timer. */
    method ConsumeShot()
      modifies this
      ensures fireTimer == 0.0
      ensures current == old(current) && remaining == old(remaining)
    {
      fireTimer := 0.0;
    }
  }

  /**
   * Bullets: no shot right after activation, a shot once 250 ms have passed, and none
   * again right after the shot.
   */
  method BulletFireRateScenario() returns (atActivation: bool, after250: bool, afterShot: bool)
    ensures !atActivation && after250 && !afterShot
  {
    var ctrl := new PowerUpFireController();
    ctrl.Activate(Bullet);
    atActivation := ctrl.CanFire();
    ctrl.fireTimer := 250.0;
    after250 := ctrl.CanFire();
    ctrl.ConsumeShot();
    afterShot := ctrl.CanFire();
  }

  /** A power-up is gone after an update longer than its duration. */
  method ExpiryScenario(kind: PowerUpType, delta: real) returns (after: Option<PowerUpType>, canFire: bool)
    requires delta >= POWERUP_DURATION
    ensures after == None && !canFire
  {
    var ctrl := new PowerUpFireController();
    ctrl.Activate(kind);
    ctrl.Update(delta);
    after := ctrl.current;
    canFire := ctrl.CanFire();
  }

  /**
   * With no power-up active nothing can fire, and the fire timer does not run: there is
   * no time credit stored up for the next activation.
   */
  method IdleScenario(delta: real) returns (canFire: bool, timer: real)
    ensures !canFire && timer == 0.0
  {
    var ctrl := new PowerUpFireController();
    ctrl.Update(delta);
    canFire := ctrl.CanFire();
    timer := ctrl.fireTimer;
  }
}
