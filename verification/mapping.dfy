/**
 The page's `map` helper: linear interpolation of `value` from the input range
 [inMin, inMax] onto the output range, clamped as `max(outMin, min(outMax, ·))`.

 Numbers are modelled as reals. A JavaScript value is either a number, the
 number NaN, or something that is not a number at all; both of the last two
 make `map` return `outMin`.
 */
module Mapping {

  datatype JsValue = Number(x: real) | NaN | NonNumber

  function Min(a: real, b: real): (m: real)
    ensures m <= a && m <= b
    ensures m == a || m == b
  {
    if a <= b then a else b
  }

  function Max(a: real, b: real): (m: real)
    ensures m >= a && m >= b
    ensures m == a || m == b
  {
    if a >= b then a else b
  }

  /** The unclamped linear image of `v`, computed in the source's order of operations. */
  function Lerp(v: real, inMin: real, inMax: real, outMin: real, outMax: real): (image: real)
    requires inMin != inMax
  {
    ((v - inMin) * (outMax - outMin)) / (inMax - inMin) + outMin
  }

  /**
   `map(value, inMin, inMax, outMin, outMax)`. The clamp is positional: `outMin`
   is always the lower bound, so when `outMin > outMax` the result is `outMin`.
   */
  function Map(value: JsValue, inMin: real, inMax: real, outMin: real, outMax: real): (r: real)
    requires inMin != inMax
    ensures !value.Number? ==> r == outMin
    ensures r >= outMin
    ensures outMin <= outMax ==> r <= outMax
    ensures outMin > outMax ==> r == outMin
  {
    match value
    case Number(v) => Max(outMin, Min(outMax, Lerp(v, inMin, inMax, outMin, outMax)))
    case _ => outMin
  }

  lemma ProductNonNegative(a: real, b: real)
    requires a >= 0.0 && b >= 0.0
    ensures a * b >= 0.0
  {
  }

  /** For `0 <= a <= w` and `d >= 0`, the scaled amount `a * d / w` lies in [0, d]. */
  lemma ScaleBounded(a: real, w: real, d: real)
    requires w > 0.0 && 0.0 <= a <= w && d >= 0.0
    ensures 0.0 <= a * d / w <= d
  {
    assert a * d <= w * d;
    assert w * d / w == d;
  }

  /** Scaling by `d / w` and then by `w / d` gives back the amount scaled. */
  lemma ScaleCancel(a: real, w: real, d: real)
    requires w > 0.0 && d > 0.0
    ensures (a * d / w) * w / d == a
  {
    var t := a * d / w;
    assert t * w == a * d;
  }

  /** The linear image moves with `v` when both ranges are increasing. */
  lemma LerpMonotone(v1: real, v2: real, inMin: real, inMax: real, outMin: real, outMax: real)
    requires inMin < inMax && outMin <= outMax && v1 <= v2
    ensures Lerp(v1, inMin, inMax, outMin, outMax) <= Lerp(v2, inMin, inMax, outMin, outMax)
  {
    var w, d := inMax - inMin, outMax - outMin;
    assert (v1 - inMin) * d <= (v2 - inMin) * d;
  }

  /**
   A reference description of `map` on increasing ranges: below the input range it
   gives `outMin`, above it `outMax`, and inside it the plain linear image.
   */
  lemma MapPiecewise(v: real, inMin: real, inMax: real, outMin: real, outMax: real)
    requires inMin < inMax && outMin <= outMax
    ensures v <= inMin ==> Map(Number(v), inMin, inMax, outMin, outMax) == outMin
    ensures v >= inMax ==> Map(Number(v), inMin, inMax, outMin, outMax) == outMax
    ensures inMin <= v <= inMax ==>
              Map(Number(v), inMin, inMax, outMin, outMax) == Lerp(v, inMin, inMax, outMin, outMax)
  {
    var w, d := inMax - inMin, outMax - outMin;
    if v <= inMin {
      ProductNonNegative(inMin - v, d);
      assert (v - inMin) * d == -((inMin - v) * d);
    } else if v >= inMax {
      assert (v - inMin) * d >= w * d;
      assert w * d / w == d;
    } else {
      ScaleBounded(v - inMin, w, d);
    }
  }

  /** `map` is monotone in its value when both ranges are increasing. */
  lemma MapMonotone(v1: real, v2: real, inMin: real, inMax: real, outMin: real, outMax: real)
    requires inMin < inMax && outMin <= outMax && v1 <= v2
    ensures Map(Number(v1), inMin, inMax, outMin, outMax) <= Map(Number(v2), inMin, inMax, outMin, outMax)
  {
    LerpMonotone(v1, v2, inMin, inMax, outMin, outMax);
  }

  /** The ends of the input range go to the ends of the output range. */
  lemma MapEndpoints(inMin: real, inMax: real, outMin: real, outMax: real)
    requires inMin != inMax
    ensures Map(Number(inMin), inMin, inMax, outMin, outMax) == outMin
    ensures outMin <= outMax ==> Map(Number(inMax), inMin, inMax, outMin, outMax) == outMax
  {
    var w, d := inMax - inMin, outMax - outMin;
    assert (inMax - inMin) * d / w == d;
  }

  /**
   Inside the input range, on a strictly increasing output range, `map` can be
   undone by mapping the result back from the output range to the input range.
   */
  lemma MapRoundTrip(v: real, inMin: real, inMax: real, outMin: real, outMax: real)
    requires inMin < inMax && outMin < outMax && inMin <= v <= inMax
    ensures Map(Number(Map(Number(v), inMin, inMax, outMin, outMax)), outMin, outMax, inMin, inMax) == v
  {
    MapPiecewise(v, inMin, inMax, outMin, outMax);
    var y := Map(Number(v), inMin, inMax, outMin, outMax);
    MapPiecewise(y, outMin, outMax, inMin, inMax);
    LerpRoundTrip(v, inMin, inMax, outMin, outMax);
  }

  /** The unclamped linear image is undone by the linear image with the ranges swapped. */
  lemma LerpRoundTrip(v: real, inMin: real, inMax: real, outMin: real, outMax: real)
    requires inMin < inMax && outMin < outMax
    ensures Lerp(Lerp(v, inMin, inMax, outMin, outMax), outMin, outMax, inMin, inMax) == v
  {
    var w, d := inMax - inMin, outMax - outMin;
    var y := Lerp(v, inMin, inMax, outMin, outMax);
    assert y - outMin == (v - inMin) * d / w;
    ScaleCancel(v - inMin, w, d);
  }

  /** The scroll handler's calls, worked through. */
  lemma MapExamples()
    ensures Map(Number(50.0), 0.0, 100.0, 0.0, 40.0) == 20.0
    ensures Map(Number(150.0), 0.0, 100.0, 0.0, 40.0) == 40.0
    ensures Map(Number(0.0), 0.0, 100.0, 50.0, 5000.0) == 50.0
    ensures Map(NaN, 0.0, 100.0, 1.0, 10.0) == 1.0
    ensures Map(Number(10.0), 0.0, 100.0, 40.0, 0.0) == 40.0
  {
  }
}
