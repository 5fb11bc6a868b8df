/** The gradient generator: colour bytes, the colour ramp lookup, the linear
    projection and the row-major pixel fill that produces a gradient image.
    The radial and conical projections use sqrt and atan2; they enter the
    model as the functions of a `Trig` record. */
module GradientGenerator {
  import opened Scalars

  // ---------------------------------------------------------------------
  // Colour data
  // ---------------------------------------------------------------------

  /** Swift's UInt8. */
  type Byte = x: int | 0 <= x < 0x100

  datatype RGBA = RGBA(r: Byte, g: Byte, b: Byte, a: Byte)

  /** `RGBA()`, all channels zero; also the bytes of the clear colour. */
  const Clear: RGBA := RGBA(0, 0, 0, 0)

  /** Quotient and remainder by 0x100 are determined by any decomposition. */
  lemma DivMod8(a: int, q: int, m: int)
    requires a == 0x100 * q + m && 0 <= m < 0x100
    ensures a / 0x100 == q && a % 0x100 == m
  {
  }

  /** Quotient and remainder by 0x10000 are determined by any decomposition. */
  lemma DivMod16(a: int, q: int, m: int)
    requires a == 0x10000 * q + m && 0 <= m < 0x10000
    ensures a / 0x10000 == q && a % 0x10000 == m
  {
  }

  /** `RGBA(hex)`: bits 16-23, 8-15 and 0-7 of the integer become red, green
      and blue; alpha is opaque. Swift's `>>` on Int is an arithmetic shift
      (floor division) and `& 0xff` keeps the low byte, which is Dafny's
      Euclidean `/` and `%` by a positive power of two. */
  function FromHex(hex: int): (c: RGBA)
    ensures c.a == 0xff
    ensures c.r * 0x10000 + c.g * 0x100 + c.b == hex % 0x100_0000
  {
    var c := RGBA((hex / 0x10000) % 0x100, (hex / 0x100) % 0x100, hex % 0x100, 0xff);
    HexPacking(hex);
    c
  }

  lemma HexPacking(hex: int)
    ensures ((hex / 0x10000) % 0x100) * 0x10000 + ((hex / 0x100) % 0x100) * 0x100 + hex % 0x100
            == hex % 0x100_0000
  {
    var q, low := hex / 0x100_0000, hex % 0x100_0000;
    var hi, mid, lo := low / 0x10000, (low / 0x100) % 0x100, low % 0x100;
    // low splits into three bytes
    DivMod8(low, low / 0x100, lo);
    DivMod8(low / 0x100, (low / 0x100) / 0x100, mid);
    DivMod16(low, (low / 0x100) / 0x100, mid * 0x100 + lo);
    assert low == hi * 0x10000 + mid * 0x100 + lo;
    // the bits above 24 do not reach any of the three bytes
    DivMod16(hex, q * 0x100 + hi, mid * 0x100 + lo);
    DivMod8(q * 0x100 + hi, q, hi);
    DivMod8(hex, q * 0x10000 + low / 0x100, lo);
    DivMod8(q * 0x10000 + low / 0x100, q * 0x100 + hi, mid);
  }

  /** Packing three bytes and decoding them gives them back, opaque. */
  lemma FromHexRoundTrip(r: Byte, g: Byte, b: Byte)
    ensures FromHex(r * 0x10000 + g * 0x100 + b) == RGBA(r, g, b, 0xff)
  {
    var hex := r * 0x10000 + g * 0x100 + b;
    DivMod8(hex, r * 0x100 + g, b);
    DivMod8(r * 0x100 + g, r, g);
    DivMod16(hex, r, g * 0x100 + b);
    DivMod8(r, 0, r);
  }

  /** The `==` operator on RGBA: channel-wise comparison, which is exactly
      equality of colours. */
  function Equal(lhs: RGBA, rhs: RGBA): (eq: bool)
    ensures eq <==> lhs == rhs
  {
    lhs.r == rhs.r && lhs.g == rhs.g && lhs.b == rhs.b && lhs.a == rhs.a
  }

  // ---------------------------------------------------------------------
  // Interpolation
  // ---------------------------------------------------------------------

  function MinInt(a: int, b: int): int { if a <= b then a else b }

  function MaxInt(a: int, b: int): int { if a >= b then a else b }

  lemma LerpWithin(a: int, b: int, c: real)
    requires 0.0 <= c <= 1.0
    ensures MinInt(a, b) as real <= a as real + c * (b as real - a as real) <= MaxInt(a, b) as real
  {
    var d := b as real - a as real;
    var x := a as real + c * d;
    if a <= b {
      assert 0.0 <= c * d <= d;
      assert a as real <= x <= a as real + d;
      assert a as real + d == b as real;
      assert MinInt(a, b) == a && MaxInt(a, b) == b;
    } else {
      assert d <= c * d <= 0.0;
      assert MinInt(a, b) == b && MaxInt(a, b) == a;
    }
  }

  /** `lerp(t, a, b)` on bytes: the position `t` is clamped to [0, 1] and the
      truncating UInt8 conversion of a non-negative value is its floor. The
      byte lies between the two ends and reaches each end exactly. */
  function ByteLerp(t: real, a: Byte, b: Byte): (r: Byte)
    ensures MinInt(a, b) <= r <= MaxInt(a, b)
    ensures t <= 0.0 ==> r == a
    ensures t >= 1.0 ==> r == b
  {
    var c := Clamp01(t);
    var x := a as real + c * (b as real - a as real);
    LerpWithin(a, b, c);
    x.Floor
  }

  lemma NonNegativeProduct(x: real, y: real)
    requires 0.0 <= x && 0.0 <= y
    ensures 0.0 <= x * y
  {
  }

  lemma FloorMonotone(x: real, y: real)
    requires x <= y
    ensures x.Floor <= y.Floor
  {
  }

  /** Each channel moves monotonically from `a` to `b` as `t` grows. */
  lemma ByteLerpMonotone(t1: real, t2: real, a: Byte, b: Byte)
    requires t1 <= t2
    ensures a <= b ==> ByteLerp(t1, a, b) <= ByteLerp(t2, a, b)
    ensures a >= b ==> ByteLerp(t1, a, b) >= ByteLerp(t2, a, b)
  {
    var c1, c2 := Clamp01(t1), Clamp01(t2);
    assert c1 <= c2;
    var d := b as real - a as real;
    var x1, x2 := a as real + c1 * d, a as real + c2 * d;
    assert x2 - x1 == (c2 - c1) * d;
    if a <= b {
      NonNegativeProduct(c2 - c1, d);
      FloorMonotone(x1, x2);
    } else {
      NonNegativeProduct(c2 - c1, -d);
      assert (c2 - c1) * -d == -((c2 - c1) * d);
      FloorMonotone(x2, x1);
    }
  }

  /** `lerp(value, inRange, outRange)`: the affine map sending one interval
      onto another. The source only calls it on a non-degenerate interval. */
  function RangeLerp(value: real, inStart: real, inEnd: real, outStart: real, outEnd: real): (r: real)
    requires inStart != inEnd
    ensures value == inStart ==> r == outStart
    ensures value == inEnd ==> r == outEnd
  {
    var span := inEnd - inStart;
    // At the end point `value - inStart` is the span itself.
    if value == inEnd then
      MulDivCancel(span, outEnd - outStart);
      span * (outEnd - outStart) / span + outStart
    else
      (value - inStart) * (outEnd - outStart) / span + outStart
  }

  lemma MulDivCancel(d: real, k: real)
    requires d != 0.0
    ensures d * k / d == k
  {
  }

  lemma DivLe(a1: real, a2: real, d: real)
    requires d > 0.0 && a1 <= a2
    ensures a1 / d <= a2 / d
  {
    assert a2 / d - a1 / d == (a2 - a1) / d;
  }

  lemma DivSelf(d: real)
    requires d > 0.0
    ensures 0.0 / d == 0.0 && d / d == 1.0
  {
  }

  /** The renormalised position of a value inside [lo, hi] lies in [0, 1]. */
  lemma RangeLerpUnit(value: real, lo: real, hi: real)
    requires lo < hi && lo <= value <= hi
    ensures 0.0 <= RangeLerp(value, lo, hi, 0.0, 1.0) <= 1.0
  {
    var d := hi - lo;
    assert RangeLerp(value, lo, hi, 0.0, 1.0) == (value - lo) / d;
    DivLe(0.0, value - lo, d);
    DivLe(value - lo, d, d);
    DivSelf(d);
  }

  /** `interpolateTo`: channel-wise byte lerp. Every channel lies between the
      two endpoint channels; at the ends the endpoints come back exactly. */
  function Interpolate(from: RGBA, to: RGBA, t: real): (c: RGBA)
    ensures MinInt(from.r, to.r) <= c.r <= MaxInt(from.r, to.r)
    ensures MinInt(from.g, to.g) <= c.g <= MaxInt(from.g, to.g)
    ensures MinInt(from.b, to.b) <= c.b <= MaxInt(from.b, to.b)
    ensures MinInt(from.a, to.a) <= c.a <= MaxInt(from.a, to.a)
    ensures t <= 0.0 ==> c == from
    ensures t >= 1.0 ==> c == to
    ensures from == to ==> c == from
  {
    RGBA(ByteLerp(t, from.r, to.r), ByteLerp(t, from.g, to.g),
         ByteLerp(t, from.b, to.b), ByteLerp(t, from.a, to.a))
  }

  // ---------------------------------------------------------------------
  // Locations
  // ---------------------------------------------------------------------

  ghost predicate NonDecreasing(s: seq<real>)
  {
    forall i, j :: 0 <= i < j < |s| ==> s[i] <= s[j]
  }

  ghost predicate StrictlyIncreasing(s: seq<real>)
  {
    forall i, j :: 0 <= i < j < |s| ==> s[i] < s[j]
  }

  /** The evenly spaced locations i / (count - 1). With a single colour this
      is the division 0 / 0, which is outside the reals. */
  function Uniform(count: nat): (s: seq<real>)
    requires count != 1
    ensures |s| == count
  {
    seq(count, i requires 0 <= i < count => i as real / (count - 1) as real)
  }

  lemma DivStrict(i: real, j: real, n: real)
    requires n > 0.0 && i < j
    ensures i / n < j / n
  {
    assert j / n - i / n == (j - i) / n;
  }

  /** For two or more colours the uniform locations start at 0, end at 1,
      stay inside [0, 1] and strictly increase. */
  lemma UniformShape(count: nat)
    requires count >= 2
    ensures Uniform(count)[0] == 0.0 && Uniform(count)[count - 1] == 1.0
    ensures StrictlyIncreasing(Uniform(count))
    ensures forall i :: 0 <= i < count ==> 0.0 <= Uniform(count)[i] <= 1.0
  {
    var s, n := Uniform(count), (count - 1) as real;
    assert s[0] == 0.0 / n == 0.0;
    DivSelf(n);
    assert s[count - 1] == n / n == 1.0;
    forall i, j | 0 <= i < j < count ensures s[i] < s[j] {
      DivStrict(i as real, j as real, n);
    }
    forall i | 0 <= i < count ensures 0.0 <= s[i] <= 1.0 {
      if i < count - 1 { DivStrict(i as real, n, n); }
    }
  }

  /** `uniformLocationsWithCount`. */
  method UniformLocations(count: nat) returns (locations: seq<real>)
    requires count != 1
    ensures locations == Uniform(count)
    ensures count >= 2 ==> locations[0] == 0.0 && locations[count - 1] == 1.0
    ensures count >= 2 ==> StrictlyIncreasing(locations)
  {
    locations := [];
    for i := 0 to count
      invariant locations == Uniform(count)[..i]
    {
      locations := locations + [i as real / (count - 1) as real];
    }
    if count >= 2 { UniformShape(count); }
  }

  // ---------------------------------------------------------------------
  // Ramp lookup
  // ---------------------------------------------------------------------

  /** The largest location not above `t`, or 0 when there is none above 0:
      the final `p0` of `interpolatedColor`. */
  function Lower(t: real, locations: seq<real>): real
  {
    if locations == [] then 0.0
    else
      var last := locations[|locations| - 1];
      Max(Lower(t, locations[..|locations| - 1]), if last <= t then last else 0.0)
  }

  /** The smallest location not below `t`, or 1 when there is none below 1:
      the final `p1` of `interpolatedColor`. */
  function Upper(t: real, locations: seq<real>): real
  {
    if locations == [] then 1.0
    else
      var last := locations[|locations| - 1];
      Min(Upper(t, locations[..|locations| - 1]), if last >= t then last else 1.0)
  }

  /** `p0` is at least 0, at least every location not above `t`, and is either
      0 or such a location. */
  lemma {:induction false} LowerIsGreatest(t: real, locations: seq<real>)
    ensures 0.0 <= Lower(t, locations)
    ensures forall i :: 0 <= i < |locations| && locations[i] <= t ==> locations[i] <= Lower(t, locations)
    ensures Lower(t, locations) == 0.0 || (Lower(t, locations) in locations && Lower(t, locations) <= t)
  {
    if locations != [] {
      var init := locations[..|locations| - 1];
      LowerIsGreatest(t, init);
      assert forall i :: 0 <= i < |init| ==> init[i] == locations[i];
    }
  }

  /** `p1` is at most 1, at most every location not below `t`, and is either
      1 or such a location. */
  lemma {:induction false} UpperIsLeast(t: real, locations: seq<real>)
    ensures Upper(t, locations) <= 1.0
    ensures forall i :: 0 <= i < |locations| && locations[i] >= t ==> Upper(t, locations) <= locations[i]
    ensures Upper(t, locations) == 1.0 || (Upper(t, locations) in locations && Upper(t, locations) >= t)
  {
    if locations != [] {
      var init := locations[..|locations| - 1];
      UpperIsLeast(t, init);
      assert forall i :: 0 <= i < |init| ==> init[i] == locations[i];
    }
  }

  /** `p0...p1` is a closed interval: the interval initialiser traps when
      its start lies above its end, so `interpolatedColor` needs
      p0 <= p1. */
  predicate Bracketed(t: real, locations: seq<real>)
  {
    Lower(t, locations) <= Upper(t, locations)
  }

  /** For `t` in [0, 1] the two locations found bracket it:
      0 <= p0 <= t <= p1 <= 1, whatever the order of the locations. */
  lemma Bracket(t: real, locations: seq<real>)
    requires 0.0 <= t <= 1.0
    ensures 0.0 <= Lower(t, locations) <= t <= Upper(t, locations) <= 1.0
    ensures Bracketed(t, locations)
  {
    LowerIsGreatest(t, locations);
    UpperIsLeast(t, locations);
  }

  /** `interpolatedColor` traps exactly when `t` lies beyond a location on
      the far side of 0 or 1: a location in [t, 0), which pulls p1 below
      p0 = 0, or a location in (1, t], which pushes p0 above p1 = 1. */
  lemma BracketedExactly(t: real, locations: seq<real>)
    ensures Bracketed(t, locations) <==>
      (forall i :: 0 <= i < |locations| ==> !(t <= locations[i] < 0.0)) &&
      (forall i :: 0 <= i < |locations| ==> !(1.0 < locations[i] <= t))
  {
    LowerIsGreatest(t, locations);
    UpperIsLeast(t, locations);
    var p0, p1 := Lower(t, locations), Upper(t, locations);
    if (forall i :: 0 <= i < |locations| ==> !(t <= locations[i] < 0.0)) &&
       (forall i :: 0 <= i < |locations| ==> !(1.0 < locations[i] <= t)) {
      if t < 0.0 {
        assert p0 == 0.0;
        assert p1 == 1.0 || 0.0 <= p1 by {
          if p1 != 1.0 {
            var i :| 0 <= i < |locations| && locations[i] == p1;
          }
        }
      } else if t > 1.0 {
        assert p1 == 1.0;
        assert p0 == 0.0 || p0 <= 1.0 by {
          if p0 != 0.0 {
            var i :| 0 <= i < |locations| && locations[i] == p0;
          }
        }
      } else {
        Bracket(t, locations);
      }
    }
  }

  /** Locations inside [0, 1] never trap, whatever `t` is. */
  lemma UnitLocationsBracketed(t: real, locations: seq<real>)
    requires forall i :: 0 <= i < |locations| ==> 0.0 <= locations[i] <= 1.0
    ensures Bracketed(t, locations)
  {
    BracketedExactly(t, locations);
  }

  /** A stop equal to a location outside [0, 1] always traps. */
  lemma OutsideLocationTraps(t: real, locations: seq<real>, k: nat)
    requires k < |locations| && t == locations[k] && (t < 0.0 || t > 1.0)
    ensures !Bracketed(t, locations)
  {
    BracketedExactly(t, locations);
  }

  /** The index of the first occurrence of `v`. */
  function IndexOf(s: seq<real>, v: real): (i: nat)
    requires v in s
    ensures i < |s| && s[i] == v
    ensures forall j :: 0 <= j < i ==> s[j] != v
  {
    if s[0] == v then 0 else 1 + IndexOf(s[1..], v)
  }

  lemma IndexOfAppend(s: seq<real>, x: real, v: real)
    requires v in s + [x]
    ensures v in s ==> IndexOf(s + [x], v) == IndexOf(s, v)
    ensures v !in s ==> IndexOf(s + [x], v) == |s|
  {
    var i := IndexOf(s + [x], v);
    if v in s {
      var k := IndexOf(s, v);
      assert (s + [x])[k] == v;
      assert i <= k;
      assert s[i] == v;
    } else {
      assert forall j :: 0 <= j < |s| ==> (s + [x])[j] != v;
    }
  }

  /** The colour `c0` ends with: the first colour whose location is `p0`, or
      the first colour when `p0` never moved off 0. */
  function LowerColor(t: real, colors: seq<RGBA>, locations: seq<real>): RGBA
    requires 0 < |colors| && |locations| <= |colors|
  {
    var p0 := Lower(t, locations);
    LowerIsGreatest(t, locations);
    if p0 == 0.0 then colors[0] else colors[IndexOf(locations, p0)]
  }

  /** The colour `c1` ends with: the first colour whose location is `p1`, or
      the last colour when `p1` never moved off 1. */
  function UpperColor(t: real, colors: seq<RGBA>, locations: seq<real>): RGBA
    requires 0 < |colors| && |locations| <= |colors|
  {
    var p1 := Upper(t, locations);
    UpperIsLeast(t, locations);
    if p1 == 1.0 then colors[|colors| - 1] else colors[IndexOf(locations, p1)]
  }

  /** The ramp colour at `t`: the interpolation between the bracketing
      colours at the renormalised position of `t` between their locations. */
  function ColorAt(t: real, colors: seq<RGBA>, locations: seq<real>): RGBA
    requires 0 < |colors| && |colors| == |locations| && Bracketed(t, locations)
  {
    var p0, p1 := Lower(t, locations), Upper(t, locations);
    var p := if p0 == p1 then 0.0 else RangeLerp(t, p0, p1, 0.0, 1.0);
    Interpolate(LowerColor(t, colors, locations), UpperColor(t, colors, locations), p)
  }

  /** One loop step of `interpolatedColor` on `p0`/`c0`. */
  lemma LowerStep(t: real, colors: seq<RGBA>, locations: seq<real>, i: nat)
    requires 0 < |colors| && |locations| <= |colors| && i < |locations|
    ensures var p0, v := Lower(t, locations[..i]), locations[i];
      Lower(t, locations[..i + 1]) == (if v > p0 && t >= v then v else p0) &&
      LowerColor(t, colors, locations[..i + 1])
        == (if v > p0 && t >= v then colors[i] else LowerColor(t, colors, locations[..i]))
  {
    var init, v := locations[..i], locations[i];
    assert locations[..i + 1] == init + [v];
    assert (init + [v])[..i] == init;
    LowerIsGreatest(t, init);
    var p0 := Lower(t, init);
    if v > p0 && t >= v {
      assert v !in init;
      IndexOfAppend(init, v, v);
    } else if p0 != 0.0 {
      IndexOfAppend(init, v, p0);
    }
  }

  /** One loop step of `interpolatedColor` on `p1`/`c1`. */
  lemma UpperStep(t: real, colors: seq<RGBA>, locations: seq<real>, i: nat)
    requires 0 < |colors| && |locations| <= |colors| && i < |locations|
    ensures var p1, v := Upper(t, locations[..i]), locations[i];
      Upper(t, locations[..i + 1]) == (if v < p1 && t <= v then v else p1) &&
      UpperColor(t, colors, locations[..i + 1])
        == (if v < p1 && t <= v then colors[i] else UpperColor(t, colors, locations[..i]))
  {
    var init, v := locations[..i], locations[i];
    assert locations[..i + 1] == init + [v];
    assert (init + [v])[..i] == init;
    UpperIsLeast(t, init);
    var p1 := Upper(t, init);
    if v < p1 && t <= v {
      assert v !in init;
      IndexOfAppend(init, v, v);
    } else if p1 != 1.0 {
      IndexOfAppend(init, v, p1);
    }
  }

  /** `interpolatedColor`: one pass over the locations keeps the best lower
      and upper location seen so far with their colours; the result is the
      ramp colour at `t`. */
  method InterpolatedColor(t: real, colors: seq<RGBA>, locations: seq<real>) returns (c: RGBA)
    requires 0 < |colors| && |colors| == |locations| && Bracketed(t, locations)
    ensures c == ColorAt(t, colors, locations)
  {
    var p0, p1 := 0.0, 1.0;
    var c0, c1 := colors[0], colors[|colors| - 1];
    for i := 0 to |locations|
      invariant p0 == Lower(t, locations[..i]) && c0 == LowerColor(t, colors, locations[..i])
      invariant p1 == Upper(t, locations[..i]) && c1 == UpperColor(t, colors, locations[..i])
    {
      LowerStep(t, colors, locations, i);
      UpperStep(t, colors, locations, i);
      var v := locations[i];
      if v > p0 && t >= v {
        p0 := v;
        c0 := colors[i];
      }
      if v < p1 && t <= v {
        p1 := v;
        c1 := colors[i];
      }
    }
    assert locations[..|locations|] == locations;
    var p := if p0 == p1 then 0.0 else RangeLerp(t, p0, p1, 0.0, 1.0);
    c := Interpolate(c0, c1, p);
  }

  /** Asking for exactly a listed location in [0, 1] gives that location's
      colour (its first occurrence); a listed location outside [0, 1] traps
      (`OutsideLocationTraps`). At 0 this needs the ramp to start at 0,
      because `p0` starts at 0 with the first colour. */
  lemma ColorAtLocation(t: real, colors: seq<RGBA>, locations: seq<real>, k: nat)
    requires 0 < |colors| && |colors| == |locations| && k < |locations|
    requires t == locations[k] && 0.0 <= t <= 1.0
    requires t == 0.0 ==> locations[0] == 0.0
    ensures Bracketed(t, locations)
    ensures ColorAt(t, colors, locations) == colors[IndexOf(locations, t)]
  {
    LowerIsGreatest(t, locations);
    UpperIsLeast(t, locations);
    var p0, p1 := Lower(t, locations), Upper(t, locations);
    if t == 0.0 {
      assert p0 == 0.0 && p1 == 0.0;
      assert IndexOf(locations, t) == 0;
    } else if t < 1.0 {
      assert p0 == t && p1 == t;
    } else {
      assert p0 == 1.0 && p1 == 1.0;
    }
  }

  /** A sorted ramp from 0 to 1 clamps below: any `t <= 0` gives the first
      colour. */
  lemma ColorAtBelowRange(t: real, colors: seq<RGBA>, locations: seq<real>)
    requires 0 < |colors| && |colors| == |locations|
    requires NonDecreasing(locations) && locations[0] == 0.0
    requires t <= 0.0
    ensures Bracketed(t, locations)
    ensures ColorAt(t, colors, locations) == colors[0]
  {
    LowerIsGreatest(t, locations);
    UpperIsLeast(t, locations);
    assert Lower(t, locations) == 0.0;
    assert Upper(t, locations) == 0.0 by {
      assert forall i :: 0 <= i < |locations| ==> locations[0] <= locations[i];
    }
    if t == 0.0 {
      ColorAtLocation(t, colors, locations, 0);
    }
  }

  /** A sorted ramp ending at 1 clamps above: any `t >= 1` gives the colour
      of the first location equal to 1, which is the last colour when the
      locations strictly increase. */
  lemma ColorAtAboveRange(t: real, colors: seq<RGBA>, locations: seq<real>)
    requires 0 < |colors| && |colors| == |locations|
    requires NonDecreasing(locations) && locations[|locations| - 1] == 1.0
    requires t >= 1.0
    ensures Bracketed(t, locations)
    ensures ColorAt(t, colors, locations) == colors[IndexOf(locations, 1.0)]
    ensures StrictlyIncreasing(locations) ==> ColorAt(t, colors, locations) == colors[|colors| - 1]
  {
    var n := |locations|;
    LowerIsGreatest(t, locations);
    UpperIsLeast(t, locations);
    assert Lower(t, locations) == 1.0 by {
      assert forall i :: 0 <= i < n ==> locations[i] <= locations[n - 1];
    }
    assert Upper(t, locations) == 1.0;
    if StrictlyIncreasing(locations) {
      var i := IndexOf(locations, 1.0);
      assert i == n - 1;
    }
  }

  /** With a single interval [0, 1] the ramp lookup is plain interpolation. */
  lemma TwoStopRamp(t: real, c0: RGBA, c1: RGBA)
    ensures Bracketed(t, [0.0, 1.0])
    ensures ColorAt(t, [c0, c1], [0.0, 1.0]) == Interpolate(c0, c1, t)
  {
    var locations := [0.0, 1.0];
    LowerIsGreatest(t, locations);
    UpperIsLeast(t, locations);
    var p0, p1 := Lower(t, locations), Upper(t, locations);
    if t <= 0.0 {
      assert p0 == 0.0 && p1 == 0.0;
    } else if t < 1.0 {
      assert p0 == 0.0 && p1 == 1.0;
      assert RangeLerp(t, p0, p1, 0.0, 1.0) == t;
    } else {
      assert p0 == 1.0 && p1 == 1.0;
      assert IndexOf(locations, 1.0) == 1;
    }
  }

  // ---------------------------------------------------------------------
  // Projections and pixels
  // ---------------------------------------------------------------------

  datatype GradientType = Linear | Radial | Conical | Bilinear

  datatype Point = Point(x: real, y: real)

  datatype Size = Size(width: real, height: real)

  /** A gradient stop computed from a pixel, the image size and two anchors. */
  type StopFn = (Point, Size, Point, Point) -> real

  /** `radialGradientStop` (sqrt) and `conicalGradientStop` (atan2). */
  datatype Stops = Stops(radialStop: StopFn, conicalStop: StopFn)

  /** The conical stop is an angle in [0, 2π) (a negative `atan2`
      difference has 2π added) divided by 2π: a fraction of a turn. */
  ghost predicate ConicalInTurn(stops: Stops)
  {
    forall p, s, g0, g1 :: 0.0 <= stops.conicalStop(p, s, g0, g1) <= 1.0
  }

  type Trig = t: Stops | ConicalInTurn(t)
    witness Stops((p, s, g0, g1) => 0.0, (p, s, g0, g1) => 0.0)

  /** The squared length of the anchor vector in pixels, the divisor of the
      linear projection. */
  function LinearDivisor(size: Size, g0: Point, g1: Point): real
  {
    var sx, sy := size.width * (g1.x - g0.x), size.height * (g1.y - g0.y);
    sx * sx + sy * sy
  }

  /** `linearGradientStop`: the projection of the pixel onto the anchor
      vector, as a fraction of that vector. */
  function LinearStop(point: Point, size: Size, g0: Point, g1: Point): real
    requires LinearDivisor(size, g0, g1) != 0.0
  {
    var sx, sy := size.width * (g1.x - g0.x), size.height * (g1.y - g0.y);
    var px, py := point.x - size.width * g0.x, point.y - size.height * g0.y;
    (px * sx + py * sy) / (sx * sx + sy * sy)
  }

  /** The stop is 0 at the start anchor's pixel and 1 at the end anchor's. */
  lemma LinearStopAtAnchors(size: Size, g0: Point, g1: Point)
    requires LinearDivisor(size, g0, g1) != 0.0
    ensures LinearStop(Point(size.width * g0.x, size.height * g0.y), size, g0, g1) == 0.0
    ensures LinearStop(Point(size.width * g1.x, size.height * g1.y), size, g0, g1) == 1.0
  {
    var sx, sy := size.width * (g1.x - g0.x), size.height * (g1.y - g0.y);
    assert size.width * g1.x - size.width * g0.x == sx;
    assert size.height * g1.y - size.height * g0.y == sy;
    var dd := sx * sx + sy * sy;
    assert LinearStop(Point(size.width * g1.x, size.height * g1.y), size, g0, g1) == dd / dd;
  }

  /** With the default linear anchors (top centre to bottom centre) the stop
      of pixel row `y` in an image of height `h` is y / h. */
  lemma DefaultLinearStopIsRow(x: real, y: real, w: real, h: real)
    requires LinearDivisor(Size(w, h), Point(0.5, 0.0), Point(0.5, 1.0)) != 0.0
    ensures h != 0.0
    ensures LinearStop(Point(x, y), Size(w, h), Point(0.5, 0.0), Point(0.5, 1.0)) == y / h
  {
    assert LinearDivisor(Size(w, h), Point(0.5, 0.0), Point(0.5, 1.0)) == h * h;
    var q := y / h;
    assert y * h == q * (h * h);
    assert LinearStop(Point(x, y), Size(w, h), Point(0.5, 0.0), Point(0.5, 1.0)) == (y * h) / (h * h);
  }

  /** The arguments of `gradientImageWithType` other than size and scale. */
  datatype Request = Request(
    gradientType: GradientType,
    colors: seq<RGBA>, colors2: Option<seq<RGBA>>,
    locations: Option<seq<real>>, locations2: Option<seq<real>>,
    startPoint: Option<Point>, endPoint: Option<Point>,
    startPoint2: Option<Point>, endPoint2: Option<Point>)

  /** The second ramp: a missing one becomes the single clear colour. */
  function SecondColors(req: Request): seq<RGBA>
  {
    req.colors2.GetOr([Clear])
  }

  /** A ramp's locations after defaulting a missing list to uniform spacing. */
  function ResolvedLocations(colors: seq<RGBA>, locations: Option<seq<real>>): seq<real>
    requires locations.Some? || |colors| != 1
  {
    match locations
    case Some(l) => l
    case None => Uniform(|colors|)
  }

  /** What `interpolatedColor` asks of a ramp: at least one colour, and as
      many locations as colours once defaulted. */
  ghost predicate RampOk(colors: seq<RGBA>, locations: Option<seq<real>>)
  {
    0 < |colors| && (locations.None? ==> |colors| != 1) &&
    (locations.Some? ==> |locations.value| == |colors|)
  }

  /** The default anchor pairs of `pixelDataForGradient`, per projection; for
      the bilinear type, `axis` 0 is the horizontal and 1 the vertical. */
  function StartAnchor(req: Request, axis: nat): Point
  {
    match req.gradientType
    case Linear => req.startPoint.GetOr(Point(0.5, 0.0))
    case Radial => req.startPoint.GetOr(Point(0.5, 0.5))
    case Conical => req.startPoint.GetOr(Point(0.5, 0.5))
    case Bilinear =>
      if axis == 0 then req.startPoint.GetOr(Point(0.0, 0.5)) else req.startPoint2.GetOr(Point(0.5, 0.0))
  }

  function EndAnchor(req: Request, axis: nat): Point
  {
    match req.gradientType
    case Linear => req.endPoint.GetOr(Point(0.5, 1.0))
    case Radial => req.endPoint.GetOr(Point(1.0, 0.5))
    case Conical => req.endPoint.GetOr(Point(1.0, 0.5))
    case Bilinear =>
      if axis == 0 then req.endPoint.GetOr(Point(1.0, 0.5)) else req.endPoint2.GetOr(Point(0.5, 1.0))
  }

  /** The requests `pixelDataForGradient` evaluates without trapping on the
      given pixel size: the ramps it reads are well formed (a bilinear type
      with no second ramp needs explicit second locations, since the
      defaulting force-unwraps the missing ramp) and the linear projections
      it uses have a non-zero divisor. */
  ghost predicate WellFormed(req: Request, size: Size)
  {
    RampOk(req.colors, req.locations) &&
    (req.gradientType == Linear ==>
      LinearDivisor(size, StartAnchor(req, 0), EndAnchor(req, 0)) != 0.0) &&
    (req.gradientType == Bilinear ==>
      (req.colors2.None? ==> req.locations2.Some?) &&
      RampOk(SecondColors(req), req.locations2) &&
      LinearDivisor(size, StartAnchor(req, 0), EndAnchor(req, 0)) != 0.0 &&
      LinearDivisor(size, StartAnchor(req, 1), EndAnchor(req, 1)) != 0.0)
  }

  /** Every ramp lookup `pixelDataForGradient` makes for the pixel forms its
      interval `p0...p1` without trapping. The vertical lookup of a bilinear
      pixel runs over [0, 1] and never traps (`UnitLocationsBracketed`). */
  ghost predicate StopsBracketed(req: Request, point: Point, size: Size, trig: Trig)
    requires WellFormed(req, size)
  {
    var locations := ResolvedLocations(req.colors, req.locations);
    var g0, g1 := StartAnchor(req, 0), EndAnchor(req, 0);
    match req.gradientType
    case Linear => Bracketed(LinearStop(point, size, g0, g1), locations)
    case Radial => Bracketed(trig.radialStop(point, size, g0, g1), locations)
    case Conical => Bracketed(trig.conicalStop(point, size, g0, g1), locations)
    case Bilinear =>
      var tx := LinearStop(point, size, g0, g1);
      Bracketed(tx, locations) && Bracketed(tx, ResolvedLocations(SecondColors(req), req.locations2))
  }

  /** A well-formed conical request never traps: its stop lies in [0, 1],
      which `Bracket` covers for any locations. */
  lemma ConicalStopsBracketed(req: Request, point: Point, size: Size, trig: Trig)
    requires WellFormed(req, size) && req.gradientType == Conical
    ensures StopsBracketed(req, point, size, trig)
  {
    var g0, g1 := StartAnchor(req, 0), EndAnchor(req, 0);
    assert ConicalInTurn(trig);
    Bracket(trig.conicalStop(point, size, g0, g1), ResolvedLocations(req.colors, req.locations));
  }

  /** The colour `pixelDataForGradient` returns for one pixel. */
  function PixelSpec(req: Request, point: Point, size: Size, trig: Trig): RGBA
    requires WellFormed(req, size) && StopsBracketed(req, point, size, trig)
  {
    var colors := req.colors;
    var locations := ResolvedLocations(colors, req.locations);
    var g0, g1 := StartAnchor(req, 0), EndAnchor(req, 0);
    match req.gradientType
    case Linear => ColorAt(LinearStop(point, size, g0, g1), colors, locations)
    case Radial => ColorAt(trig.radialStop(point, size, g0, g1), colors, locations)
    case Conical => ColorAt(trig.conicalStop(point, size, g0, g1), colors, locations)
    case Bilinear =>
      var tx := LinearStop(point, size, g0, g1);
      var ty := LinearStop(point, size, StartAnchor(req, 1), EndAnchor(req, 1));
      var c1 := ColorAt(tx, colors, locations);
      var c2 := ColorAt(tx, SecondColors(req), ResolvedLocations(SecondColors(req), req.locations2));
      UnitLocationsBracketed(ty, [0.0, 1.0]);
      ColorAt(ty, [c1, c2], [0.0, 1.0])
  }

  /** A bilinear pixel blends the two horizontal ramp colours by the vertical
      stop. */
  lemma BilinearBlend(req: Request, point: Point, size: Size, trig: Trig)
    requires WellFormed(req, size) && StopsBracketed(req, point, size, trig) && req.gradientType == Bilinear
    ensures var g0, g1 := StartAnchor(req, 0), EndAnchor(req, 0);
      var tx := LinearStop(point, size, g0, g1);
      PixelSpec(req, point, size, trig) ==
        Interpolate(ColorAt(tx, req.colors, ResolvedLocations(req.colors, req.locations)),
                    ColorAt(tx, SecondColors(req), ResolvedLocations(SecondColors(req), req.locations2)),
                    LinearStop(point, size, StartAnchor(req, 1), EndAnchor(req, 1)))
  {
    var g0, g1 := StartAnchor(req, 0), EndAnchor(req, 0);
    var tx := LinearStop(point, size, g0, g1);
    var c1 := ColorAt(tx, req.colors, ResolvedLocations(req.colors, req.locations));
    var c2 := ColorAt(tx, SecondColors(req), ResolvedLocations(SecondColors(req), req.locations2));
    TwoStopRamp(LinearStop(point, size, StartAnchor(req, 1), EndAnchor(req, 1)), c1, c2);
  }

  /** Red to blue from top to bottom of a 10-by-10 image, with the default
      anchors: the stop of row y is y / 10, so row 0 is red, row 5 is
      RGBA(127, 0, 127, 255), and the last row sits at stop 0.9 and is
      RGBA(25, 0, 229, 255). */
  lemma TenRowRedToBlue(x: real, trig: Trig)
    ensures var red, blue := RGBA(0xff, 0, 0, 0xff), RGBA(0, 0, 0xff, 0xff);
      var req := Request(Linear, [red, blue], None, Some([0.0, 1.0]), None, None, None, None, None);
      var size := Size(10.0, 10.0);
      && WellFormed(req, size)
      && (forall p :: StopsBracketed(req, p, size, trig))
      && PixelSpec(req, Point(x, 0.0), size, trig) == red
      && PixelSpec(req, Point(x, 5.0), size, trig) == RGBA(127, 0, 127, 0xff)
      && PixelSpec(req, Point(x, 9.0), size, trig) == RGBA(25, 0, 229, 0xff)
  {
    var red, blue := RGBA(0xff, 0, 0, 0xff), RGBA(0, 0, 0xff, 0xff);
    assert LinearDivisor(Size(10.0, 10.0), Point(0.5, 0.0), Point(0.5, 1.0)) == 100.0;
    forall p ensures Bracketed(LinearStop(p, Size(10.0, 10.0), Point(0.5, 0.0), Point(0.5, 1.0)), [0.0, 1.0]) {
      UnitLocationsBracketed(LinearStop(p, Size(10.0, 10.0), Point(0.5, 0.0), Point(0.5, 1.0)), [0.0, 1.0]);
    }
    DefaultLinearStopIsRow(x, 0.0, 10.0, 10.0);
    DefaultLinearStopIsRow(x, 5.0, 10.0, 10.0);
    DefaultLinearStopIsRow(x, 9.0, 10.0, 10.0);
    TwoStopRamp(0.0, red, blue);
    TwoStopRamp(0.5, red, blue);
    TwoStopRamp(0.9, red, blue);
    assert ByteLerp(0.5, 0xff, 0) == 127 && ByteLerp(0.5, 0, 0xff) == 127;
    assert ByteLerp(0.9, 0xff, 0) == 25 && ByteLerp(0.9, 0, 0xff) == 229;
    assert ByteLerp(0.5, 0xff, 0xff) == 0xff && ByteLerp(0.9, 0xff, 0xff) == 0xff;
    assert ByteLerp(0.5, 0, 0) == 0 && ByteLerp(0.9, 0, 0) == 0;
  }

  /** `pixelDataForGradient`: default the locations of each ramp the type
      reads (one, or two for bilinear), then project and look up. */
  method PixelData(req: Request, point: Point, size: Size, trig: Trig) returns (c: RGBA)
    requires WellFormed(req, size) && StopsBracketed(req, point, size, trig)
    ensures c == PixelSpec(req, point, size, trig)
  {
    var ramps := if req.gradientType == Bilinear then [req.colors, SecondColors(req)] else [req.colors];
    var given := [req.locations, req.locations2];
    var locations: seq<seq<real>> := [];
    for index := 0 to |ramps|
      invariant |locations| == index
      invariant forall k :: 0 <= k < index ==> locations[k] == ResolvedLocations(ramps[k], given[k])
    {
      var l;
      if given[index].None? {
        l := UniformLocations(|ramps[index]|);
      } else {
        l := given[index].value;
      }
      locations := locations + [l];
    }
    var g0, g1 := StartAnchor(req, 0), EndAnchor(req, 0);
    match req.gradientType {
      case Linear =>
        c := InterpolatedColor(LinearStop(point, size, g0, g1), ramps[0], locations[0]);
      case Radial =>
        c := InterpolatedColor(trig.radialStop(point, size, g0, g1), ramps[0], locations[0]);
      case Conical =>
        c := InterpolatedColor(trig.conicalStop(point, size, g0, g1), ramps[0], locations[0]);
      case Bilinear =>
        var tx := LinearStop(point, size, g0, g1);
        var ty := LinearStop(point, size, StartAnchor(req, 1), EndAnchor(req, 1));
        var c1 := InterpolatedColor(tx, ramps[0], locations[0]);
        var c2 := InterpolatedColor(tx, ramps[1], locations[1]);
        UnitLocationsBracketed(ty, [0.0, 1.0]);
        c := InterpolatedColor(ty, [c1, c2], [0.0, 1.0]);
    }
  }

  // ---------------------------------------------------------------------
  // The image
  // ---------------------------------------------------------------------

  /** A pixel buffer of `width * height` colours in row-major order. */
  datatype Image = Image(width: int, height: int, pixels: seq<RGBA>)

  /** The buffer index of pixel (x, y) in a row-major image of width `w`. */
  function RowMajor(w: int, x: int, y: int): int
  {
    y * w + x
  }

  /** What `gradientImageWithType` needs to finish on a w-by-h pixel grid:
      a positive size (`0..<h` traps on a negative count and no bitmap
      image comes out of an empty context), a well-formed request, and no
      pixel whose ramp lookup traps. */
  ghost predicate Drawable(req: Request, w: int, h: int, trig: Trig)
  {
    0 < w && 0 < h && WellFormed(req, Size(w as real, h as real)) &&
    forall y, x :: 0 <= y < h && 0 <= x < w ==> PixelBracketed(req, w, h, trig, y, x)
  }

  /** `StopsBracketed` at pixel (x, y) of the w-by-h grid. */
  ghost predicate PixelBracketed(req: Request, w: int, h: int, trig: Trig, y: int, x: int)
    requires WellFormed(req, Size(w as real, h as real))
  {
    StopsBracketed(req, Point(x as real, y as real), Size(w as real, h as real), trig)
  }

  /** A well-formed conical request can be drawn at every positive size. */
  lemma ConicalDrawable(req: Request, w: int, h: int, trig: Trig)
    requires 0 < w && 0 < h && WellFormed(req, Size(w as real, h as real)) && req.gradientType == Conical
    ensures Drawable(req, w, h, trig)
  {
    forall y, x | 0 <= y < h && 0 <= x < w ensures PixelBracketed(req, w, h, trig, y, x) {
      ConicalStopsBracketed(req, Point(x as real, y as real), Size(w as real, h as real), trig);
    }
  }

  /** The colour of pixel (x, y) of a drawable w-by-h grid. */
  function GridPixel(req: Request, w: int, h: int, trig: Trig, y: int, x: int): (c: RGBA)
    requires Drawable(req, w, h, trig) && 0 <= y < h && 0 <= x < w
    ensures StopsBracketed(req, Point(x as real, y as real), Size(w as real, h as real), trig)
    ensures c == PixelSpec(req, Point(x as real, y as real), Size(w as real, h as real), trig)
  {
    assert PixelBracketed(req, w, h, trig, y, x);
    PixelSpec(req, Point(x as real, y as real), Size(w as real, h as real), trig)
  }

  /** The image `gradientImageWithType` produces: `w * h` pixels, where
      w and h truncate size times scale, and pixel (x, y) at index y*w + x
      is the colour computed for the point (x, y) in the w-by-h pixel size. */
  ghost predicate IsGradientImage(img: Image, req: Request, size: Size, scale: real, trig: Trig)
  {
    var w, h := Trunc(size.width * scale), Trunc(size.height * scale);
    img.width == w && img.height == h && Drawable(req, w, h, trig) && |img.pixels| == w * h &&
    forall y, x :: 0 <= y < h && 0 <= x < w ==>
      0 <= RowMajor(w, x, y) < |img.pixels| &&
      img.pixels[RowMajor(w, x, y)] == GridPixel(req, w, h, trig, y, x)
  }

  /** Every index of a w-by-h buffer is the row-major index of one pixel. */
  lemma RowMajorInverse(w: int, h: int, k: int) returns (x: int, y: int)
    requires 0 <= w && 0 <= h && 0 <= k < w * h
    ensures 0 <= x < w && 0 <= y < h && k == RowMajor(w, x, y)
  {
    assert w != 0;
    y, x := k / w, k % w;
    assert k == y * w + x;
  }

  /** The image is a function of the request: two images that both meet the
      description are the same image. */
  lemma GradientImageUnique(a: Image, b: Image, req: Request, size: Size, scale: real, trig: Trig)
    requires IsGradientImage(a, req, size, scale, trig) && IsGradientImage(b, req, size, scale, trig)
    ensures a == b
  {
    var w, h := a.width, a.height;
    forall k | 0 <= k < |a.pixels| ensures a.pixels[k] == b.pixels[k] {
      var x, y := RowMajorInverse(w, h, k);
    }
  }

  /** The first `y` rows and the first `x` pixels of row `y` of a w-by-h
      image are in the buffer, in row-major order. */
  ghost predicate Filled(data: seq<RGBA>, req: Request, trig: Trig, w: int, h: int, y: int, x: int)
    requires Drawable(req, w, h, trig)
  {
    |data| == y * w + x &&
    forall yy, xx :: 0 <= yy < h && 0 <= xx < w && (yy < y || (yy == y && xx < x)) ==>
      0 <= RowMajor(w, xx, yy) < |data| &&
      data[RowMajor(w, xx, yy)] == GridPixel(req, w, h, trig, yy, xx)
  }

  /** Appending the colour of pixel (x, y) extends the filled part by one. */
  lemma FillPixel(data: seq<RGBA>, c: RGBA, req: Request, trig: Trig, w: int, h: int, y: int, x: int)
    requires 0 <= y < h && 0 <= x < w && Drawable(req, w, h, trig)
    requires Filled(data, req, trig, w, h, y, x)
    requires c == GridPixel(req, w, h, trig, y, x)
    ensures Filled(data + [c], req, trig, w, h, y, x + 1)
  {
    var next := data + [c];
    forall yy, xx | 0 <= yy < h && 0 <= xx < w && (yy < y || (yy == y && xx < x + 1))
      ensures 0 <= RowMajor(w, xx, yy) < |next|
      ensures next[RowMajor(w, xx, yy)] == GridPixel(req, w, h, trig, yy, xx)
    {
      if yy == y && xx == x {
        assert RowMajor(w, xx, yy) == |data|;
      } else {
        assert 0 <= RowMajor(w, xx, yy) < |data|;
      }
    }
  }

  /** A complete row `y` is the same as no pixel of row `y + 1`. */
  lemma FillRow(data: seq<RGBA>, req: Request, trig: Trig, w: int, h: int, y: int)
    requires Drawable(req, w, h, trig)
    requires Filled(data, req, trig, w, h, y, w)
    ensures Filled(data, req, trig, w, h, y + 1, 0)
  {
    assert y * w + w == (y + 1) * w;
  }

  /** All h rows filled is the image of the request. */
  lemma FillDone(data: seq<RGBA>, req: Request, size: Size, scale: real, trig: Trig)
    requires var w, h := Trunc(size.width * scale), Trunc(size.height * scale);
      Drawable(req, w, h, trig) && Filled(data, req, trig, w, h, h, 0)
    ensures IsGradientImage(Image(Trunc(size.width * scale), Trunc(size.height * scale), data), req, size, scale, trig)
  {
    var w, h := Trunc(size.width * scale), Trunc(size.height * scale);
    assert |data| == w * h;
  }

  /** `gradientImageWithType`: fill the buffer row by row, `y` outer and `x`
      inner, one `pixelDataForGradient` per pixel. */
  method GradientImage(req: Request, size: Size, scale: real, trig: Trig) returns (img: Image)
    requires Drawable(req, Trunc(size.width * scale), Trunc(size.height * scale), trig)
    ensures IsGradientImage(img, req, size, scale, trig)
  {
    var w, h := Trunc(size.width * scale), Trunc(size.height * scale);
    var pixelSize := Size(w as real, h as real);
    var data: seq<RGBA> := [];
    for y := 0 to h
      invariant Filled(data, req, trig, w, h, y, 0)
    {
      for x := 0 to w
        invariant Filled(data, req, trig, w, h, y, x)
      {
        assert PixelBracketed(req, w, h, trig, y, x);
        var c := PixelData(req, Point(x as real, y as real), pixelSize, trig);
        FillPixel(data, c, req, trig, w, h, y, x);
        data := data + [c];
      }
      FillRow(data, req, trig, w, h, y);
    }
    FillDone(data, req, size, scale, trig);
    img := Image(w, h, data);
  }
}
