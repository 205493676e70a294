/**
 * The "move toward a target at a capped rate" rule shared by the player's airplane and
 * the enemy planes: when the target is farther than a dead zone, move by
 * sign(diff) * min(|diff|, maxStep); otherwise stay.
 */
module Chase {

  import opened PhaserMath

  function Step(y: real, target: real, maxStep: real, deadZone: real): (r: real)
    ensures Abs(target - y) <= deadZone ==> r == y
    ensures Abs(target - y) > deadZone && deadZone >= 0.0 && maxStep >= 0.0 ==>
      && Abs(r - y) == Min(Abs(target - y), maxStep)
      && Min(y, target) <= r <= Max(y, target)
  {
    var diff := target - y;
    if Abs(diff) > deadZone then y + Sign(diff) * Min(Abs(diff), maxStep) else y
  }

  /** A step never overshoots the target, and moves the full capped distance when it can. */
  lemma StepApproaches(y: real, target: real, maxStep: real, deadZone: real)
    requires deadZone >= 0.0 && maxStep >= 0.0
    ensures Abs(target - Step(y, target, maxStep, deadZone)) <= Abs(target - y)
    ensures Abs(target - y) > deadZone && Abs(target - y) <= maxStep ==>
      Step(y, target, maxStep, deadZone) == target
    ensures Abs(target - y) > deadZone && Abs(target - y) > maxStep ==>
      Abs(target - Step(y, target, maxStep, deadZone)) == Abs(target - y) - maxStep
  {
  }
}
