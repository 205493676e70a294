/**
 * The engine helpers the game calls, written as functions of a uniform draw
 * u in [0, 1) (one call of Math.random()).
 */
module PhaserMath {

  function Abs(x: real): real { if x < 0.0 then -x else x }
  function Min(a: real, b: real): real { if a <= b then a else b }
  function Max(a: real, b: real): real { if a >= b then a else b }

  /** Sign of a number, as Math.sign on a non-NaN value. */
  function Sign(x: real): real { if x > 0.0 then 1.0 else if x < 0.0 then -1.0 else 0.0 }

  predicate IsUniform(u: real) { 0.0 <= u < 1.0 }

  /**
   * Phaser.Math.Between(min, max): floor(u * (max - min + 1) + min). With integral bounds
   * the result is an integer in [min, max]; with fractional bounds it may fall just outside.
   */
  function Between(min: real, max: real, u: real): (r: int)
    requires IsUniform(u) && min <= max
    ensures min.Floor <= r
    ensures r as real < max + 1.0
  {
    BetweenRange(min, max, u);
    (u * (max - min + 1.0) + min).Floor
  }

  lemma BetweenRange(min: real, max: real, u: real)
    requires IsUniform(u) && min <= max
    ensures min.Floor <= (u * (max - min + 1.0) + min).Floor
    ensures (u * (max - min + 1.0) + min).Floor as real < max + 1.0
  {
    var span := max - min + 1.0;
    assert span > 0.0;
    ScaledDraw(u, span);
    assert u * span < span;
    var x := u * span + min;
    assert min <= x < max + 1.0;
    assert x.Floor as real <= x;
  }

  /** A draw scaled by a non-negative span stays below the span. */
  lemma ScaledDraw(u: real, span: real)
    requires IsUniform(u) && span >= 0.0
    ensures 0.0 <= u * span <= span
    ensures span > 0.0 ==> u * span < span
  {
    assert (1.0 - u) * span >= 0.0;
    assert span > 0.0 ==> (1.0 - u) * span > 0.0;
  }

  /** Phaser.Math.FloatBetween(min, max): u * (max - min) + min. */
  function FloatBetween(min: real, max: real, u: real): (r: real)
    requires IsUniform(u) && min <= max
    ensures min <= r <= max
    ensures min < max ==> r < max
  {
    var span := max - min;
    ScaledDraw(u, span);
    u * span + min
  }

  /** Phaser.Math.Clamp(v, min, max) = max(min, min(max, v)). */
  function Clamp(v: real, min: real, max: real): (r: real)
    ensures min <= max ==> min <= r <= max
    ensures min <= v <= max ==> r == v
    ensures v < min ==> r == min
    ensures min <= max && v > max ==> r == max
  {
    Max(min, Min(max, v))
  }

  /** Between with whole-number bounds stays inside them. */
  lemma BetweenWhole(min: int, max: int, u: real)
    requires IsUniform(u) && min <= max
    ensures min <= Between(min as real, max as real, u) <= max
  {
  }
}
