/**
 * The size of a distance label. Both createMeasurementLabel and
 * createBoundingBoxMeasurement scale their sprite by a step table over the
 * model size (the largest dimension of the content's bounding box): a base
 * scale of 5% of the model size, multiplied by a factor that halves at each
 * of the thresholds 1, 10 and 100, starting from 2 below 1.
 */
module LabelScale {

  /** The step table: 2.0 below 1, 1.0 below 10, 0.5 below 100, 0.25 otherwise. */
  function ScaleFactor(modelSize: real): real
  {
    if modelSize < 1.0 then 2.0
    else if modelSize < 10.0 then 1.0
    else if modelSize < 100.0 then 0.5
    else 0.25
  }

  /** How many of the thresholds 1, 10 and 100 the model size has reached. */
  function StepsReached(modelSize: real): (n: nat)
    ensures n <= 3
  {
    (if modelSize >= 1.0 then 1 else 0)
    + (if modelSize >= 10.0 then 1 else 0)
    + (if modelSize >= 100.0 then 1 else 0)
  }

  function Pow2(n: nat): (p: real)
    ensures p >= 1.0
  {
    if n == 0 then 1.0 else 2.0 * Pow2(n - 1)
  }

  /** The table halves the factor at each threshold reached: 2 / 2^steps. */
  lemma {:induction false} ScaleFactorHalvesPerThreshold(modelSize: real)
    ensures ScaleFactor(modelSize) * Pow2(StepsReached(modelSize)) == 2.0
  {
    var n := StepsReached(modelSize);
    if n > 0 {
      assert Pow2(n) == 2.0 * Pow2(n - 1);
      if n > 1 {
        assert Pow2(n - 1) == 2.0 * Pow2(n - 2);
        if n > 2 {
          assert Pow2(n - 2) == 2.0 * Pow2(n - 3);
        }
      }
    }
  }

  /** A larger model never gets a larger factor. */
  lemma ScaleFactorNonIncreasing(a: real, b: real)
    requires a <= b
    ensures ScaleFactor(b) <= ScaleFactor(a)
  {
  }

  /** The sprite scale `(finalScale, finalScale / 2, 1)`. */
  datatype SpriteScale = SpriteScale(x: real, y: real, z: real)

  /**
   * `finalScale = modelSize * 0.05 * scaleFactor`; the sprite is twice as wide
   * as it is tall and keeps unit depth.
   */
  function LabelScaleFor(modelSize: real): SpriteScale
  {
    var finalScale := modelSize * 0.05 * ScaleFactor(modelSize);
    SpriteScale(finalScale, finalScale / 2.0, 1.0)
  }

  /**
   * The sprite is twice as wide as it is tall and keeps unit depth; for a
   * model of size `m` its width lies between `m / 80` and `m / 10`.
   */
  lemma LabelScaleShape(modelSize: real)
    ensures var s := LabelScaleFor(modelSize);
      && s.y * 2.0 == s.x && s.z == 1.0
      && (modelSize >= 0.0 ==> modelSize * 0.0125 <= s.x <= modelSize * 0.1 && s.x >= 0.0)
  {
  }

  /**
   * Within one step of the table the label grows in proportion to the model;
   * crossing a threshold halves the factor, so a label never grows by more
   * than the model does.
   */
  lemma {:induction false} LabelGrowsAtMostWithModel(a: real, b: real)
    requires 0.0 <= a <= b
    ensures LabelScaleFor(a).x * b >= LabelScaleFor(b).x * a
  {
    ScaleFactorNonIncreasing(a, b);
    var fa, fb := ScaleFactor(a), ScaleFactor(b);
    assert LabelScaleFor(a).x * b == 0.05 * fa * (a * b);
    assert LabelScaleFor(b).x * a == 0.05 * fb * (a * b);
    assert a * b >= 0.0;
  }
}
