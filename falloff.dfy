/** The falloff weight: an exponential decay times an unclamped linear ramp. */
module Falloff {
  import opened Geometry

  /** `customFalloff(distance, maxDistance, e, l)`:
      exp(-e * distance) * (1 - distance / maxDistance * l).
      The linear part is not clamped, so the weight changes sign exactly
      where distance / maxDistance * l crosses 1. */
  function CustomFalloff(exp: real -> real, distance: real, maxDistance: real,
                         exponentialFactor: real, linearFactor: real): (w: real)
    requires IsExp(exp) && maxDistance != 0.0
    ensures distance == 0.0 ==> w == 1.0
    ensures exponentialFactor == 0.0 && linearFactor == 0.0 ==> w == 1.0
    ensures w < 0.0 <==> distance / maxDistance * linearFactor > 1.0
    ensures w == 0.0 <==> distance / maxDistance * linearFactor == 1.0
    ensures w > 0.0 <==> distance / maxDistance * linearFactor < 1.0
  {
    var exponentialPart := exp(-exponentialFactor * distance);
    var linearPart := 1.0 - (distance / maxDistance) * linearFactor;
    SignOfProduct(exponentialPart, linearPart);
    exponentialPart * linearPart
  }

  /** A positive factor does not change the sign of a product. */
  lemma SignOfProduct(a: real, b: real)
    requires a > 0.0
    ensures a * b < 0.0 <==> b < 0.0
    ensures a * b == 0.0 <==> b == 0.0
    ensures a * b > 0.0 <==> b > 0.0
  {
    if b < 0.0 {
      assert a * b < a * 0.0;
    } else if b > 0.0 {
      assert a * b > a * 0.0;
    }
  }
}
