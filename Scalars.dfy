/** Scalar helpers shared by the gradient generator and both ring layers.
    CGFloat and Float are modelled as `real`; Swift's optionals as `Option`. */
module Scalars {

  datatype Option<+T> = None | Some(value: T) {
    /** Swift's `x ?? default`. */
    function GetOr(default: T): T {
      match this
      case Some(v) => v
      case None => default
    }
  }

  /** CGFloat.pi / M_PI, the double-precision value of pi written in decimal. */
  const Pi: real := 3.141592653589793

  function Min(a: real, b: real): real { if a <= b then a else b }

  function Max(a: real, b: real): real { if a >= b then a else b }

  /** `min(max(v, 0), 1)`: the clamp used by the byte lerp and by both
      `endShadowOpacity` observers. */
  function Clamp01(v: real): (r: real)
    ensures 0.0 <= r <= 1.0
    ensures 0.0 <= v <= 1.0 ==> r == v
    ensures v < 0.0 ==> r == 0.0
    ensures v > 1.0 ==> r == 1.0
  {
    Min(Max(v, 0.0), 1.0)
  }

  /** Clamping twice is the same as clamping once. */
  lemma Clamp01Idempotent(v: real)
    ensures Clamp01(Clamp01(v)) == Clamp01(v)
  {
  }

  /** Swift's `Int(x)` on a floating-point value: truncation toward zero. */
  function Trunc(x: real): (n: int)
    ensures x >= 0.0 ==> 0 <= n && n as real <= x < n as real + 1.0
    ensures x < 0.0 ==> n <= 0 && n as real - 1.0 < x <= n as real
  {
    if x >= 0.0 then x.Floor else -((-x).Floor)
  }
}
