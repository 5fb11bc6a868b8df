/** What both ring layers share: the arc angles of `contentImage`, the drawing
    operations it issues on the graphics context, and the colour ramp that
    `gradientImage()` requests from the gradient generator. Angles are in
    radians, clockwise in screen coordinates; 12 o'clock is -pi/2. */
module RingGeometry {
  import opened Scalars
  import opened GradientGenerator

  /** `angleOffset`: the ring starts at 12 o'clock. */
  const AngleOffset: real := Pi / 2.0

  // ---------------------------------------------------------------------
  // Arc angles
  // ---------------------------------------------------------------------

  /** The angle decisions of one `contentImage` call: the true sweep end
      `angle`, the largest end the gradient arc may reach `maxAngle`, the end
      the gradient arc is drawn to `endAngle` (`angle1` in the source) and,
      past `maxAngle`, the `offset` of the solid arc and of the rotation. */
  datatype Sweep = Sweep(angle: real, maxAngle: real, endAngle: real, overflow: Option<real>)

  /** The arc decisions for progress `p`. `minAngle` is 1.1 * atan(w / 2r),
      the gap kept free at the start of the ring; it is an input here. */
  function SweepOf(p: real, minAngle: real): (g: Sweep)
    ensures g.angle == 2.0 * Pi * p - AngleOffset
    ensures g.maxAngle == 2.0 * Pi - 3.0 * minAngle - AngleOffset
    ensures g.endAngle <= g.maxAngle && g.endAngle <= g.angle
    ensures g.overflow.Some? <==> g.angle > g.maxAngle
    ensures g.overflow.None? ==> g.endAngle == g.angle
    ensures g.overflow.Some? ==> 0.0 < g.overflow.value && g.endAngle + g.overflow.value == g.angle
  {
    var angle := 2.0 * Pi * p - AngleOffset;
    var maxAngle := 2.0 * Pi - 3.0 * minAngle - AngleOffset;
    var angle1 := if angle > maxAngle then maxAngle else angle;
    Sweep(angle, maxAngle, angle1, if angle > maxAngle then Some(angle - maxAngle) else None)
  }

  /** Progress clamped at 0 never sweeps back past 12 o'clock. */
  lemma ClampedSweepStartsAtTop(progress: real, minAngle: real)
    ensures SweepOf(Max(0.0, progress), minAngle).angle >= -AngleOffset
    ensures progress <= 0.0 ==> SweepOf(Max(0.0, progress), minAngle).angle == -AngleOffset
  {
  }

  /** Unclamped, a negative progress sweeps backwards past 12 o'clock. */
  lemma UnclampedSweepRunsBackwards(progress: real, minAngle: real)
    requires progress < 0.0
    ensures SweepOf(progress, minAngle).angle < -AngleOffset
  {
  }

  /** Half progress ends at 6 o'clock with no solid arc, as long as the gap
      at the start is at most a third of a half turn. */
  lemma HalfProgress(minAngle: real)
    requires minAngle <= Pi / 3.0
    ensures SweepOf(0.5, minAngle).endAngle == Pi / 2.0
    ensures SweepOf(0.5, minAngle).overflow.None?
  {
  }

  /** Progress 1.5 (for a positive gap) draws the solid arc, and the
      gradient arc rotated by its offset ends one and a quarter turns on
      from 12 o'clock: at 6 o'clock of the second revolution. */
  lemma OneAndAHalfProgress(minAngle: real)
    requires 0.0 < minAngle <= Pi / 3.0
    ensures var g := SweepOf(1.5, minAngle);
      g.overflow.Some? && g.endAngle + g.overflow.value == Pi / 2.0 + 2.0 * Pi
  {
  }

  // ---------------------------------------------------------------------
  // Drawing operations
  // ---------------------------------------------------------------------

  /** A stroke or fill colour; `Faded` is `copy(alpha:)` of a colour. */
  datatype Paint = Opaque(color: RGBA) | Faded(color: RGBA, alpha: real)

  /** `backgroundRingColor ?? startColor.copy(alpha: 0.15)`. */
  function Backdrop(backgroundRingColor: Option<RGBA>, startColor: RGBA): Paint
  {
    match backgroundRingColor
    case Some(c) => Opaque(c)
    case None => Faded(startColor, 0.15)
  }

  /** The backdrop is the explicit colour when there is one, and otherwise the
      start colour at 15% opacity; it never depends on the end colour. */
  lemma BackdropChoice(backgroundRingColor: Option<RGBA>, startColor: RGBA)
    ensures Backdrop(backgroundRingColor, startColor).color ==
      (if backgroundRingColor.Some? then backgroundRingColor.value else startColor)
    ensures Backdrop(backgroundRingColor, startColor).Faded? <==> backgroundRingColor.None?
    ensures backgroundRingColor.None? ==> Backdrop(backgroundRingColor, startColor).alpha == 0.15
  {
  }

  datatype LineCap = Butt | RoundCap

  datatype LineJoin = Miter | RoundJoin

  /** The shape filled under the shadow at the leading edge. */
  datatype CapShape = Oval | Bar

  /** The context operations of `contentImage`, in the order issued; later
      operations paint over earlier ones. Each arc is centred on the ring's
      centre; `Rotate` turns the context about that centre. */
  datatype DrawOp =
    | SetAntialiasing(enabled: bool)
    | SetLineWidth(width: real)
    | SetLineCap(cap: LineCap)
    | StrokeCircle(radius: real, paint: Paint)
    | StrokeArc(radius: real, startAngle: real, endAngle: real, paint: Paint)
    | Rotate(angle: real)
    | FillShadowCap(shape: CapShape, atAngle: real, radius: real, width: real,
                    shadowOpacity: real, blur: real, fill: Paint)
    | DrawGradientArc(radius: real, startAngle: real, endAngle: real, width: real,
                      cap: LineCap, join: LineJoin, extent: real, image: Image)

  /** The style a layer draws with. */
  datatype RingStyle = RingStyle(
    antialias: bool, width: real, cap: LineCap, join: LineJoin, shadowShape: CapShape,
    backdrop: Paint, startColor: RGBA, shadowOpacity: real)

  /** The operations of one `contentImage` for ring radius `r`: backdrop
      circle, the solid arc and rotation past `maxAngle`, the shadow cap at
      the arc's end and the gradient arc clipped from 12 o'clock to it. The
      shadow cap is filled with the start colour, and the gradient image is
      drawn into the circle's box grown by half the line width. */
  function RingOps(st: RingStyle, r: real, g: Sweep, img: Image): seq<DrawOp>
  {
    [SetAntialiasing(st.antialias), SetLineWidth(st.width), SetLineCap(st.cap),
     StrokeCircle(r, st.backdrop)] +
    (match g.overflow
     case Some(offset) => [StrokeArc(r, -AngleOffset, offset, Opaque(st.startColor)), Rotate(offset)]
     case None => []) +
    [FillShadowCap(st.shadowShape, g.endAngle, r, st.width, st.shadowOpacity, st.width / 3.0,
                   Opaque(st.startColor)),
     DrawGradientArc(r, -AngleOffset, g.endAngle, st.width, st.cap, st.join, r + st.width / 2.0, img)]
  }

  /** The total angle the operations rotate the context by. */
  function TotalRotation(ops: seq<DrawOp>): real
  {
    if ops == [] then 0.0
    else TotalRotation(ops[..|ops| - 1]) + (if ops[|ops| - 1].Rotate? then ops[|ops| - 1].angle else 0.0)
  }

  lemma {:induction false} TotalRotationAppend(a: seq<DrawOp>, b: seq<DrawOp>)
    ensures TotalRotation(a + b) == TotalRotation(a) + TotalRotation(b)
  {
    if b != [] {
      var init := b[..|b| - 1];
      assert (a + b)[..|a + b| - 1] == a + init;
      TotalRotationAppend(a, init);
    } else {
      assert a + b == a;
    }
  }

  lemma {:induction false} NoRotation(ops: seq<DrawOp>)
    requires forall i :: 0 <= i < |ops| ==> !ops[i].Rotate?
    ensures TotalRotation(ops) == 0.0
  {
    if ops != [] {
      NoRotation(ops[..|ops| - 1]);
    }
  }

  /** The backdrop is stroked first, the gradient arc last; the solid arc in
      the start colour is stroked exactly when the sweep passes `maxAngle`;
      and, measured in the unrotated frame, both the shadow cap and the end
      of the gradient arc sit at the true sweep end `angle`, while the
      gradient arc itself never reaches past `maxAngle`. */
  lemma {:induction false} RingOpsLayout(st: RingStyle, r: real, p: real, minAngle: real, img: Image)
    ensures var g := SweepOf(p, minAngle);
      var ops := RingOps(st, r, g, img);
      var n := |ops|;
      && ops[3] == StrokeCircle(r, st.backdrop)
      && ((exists i :: 0 <= i < n && ops[i].StrokeArc?) <==> g.angle > g.maxAngle)
      && ops[n - 2].FillShadowCap? && ops[n - 1].DrawGradientArc?
      && TotalRotation(ops[..n - 2]) + ops[n - 2].atAngle == g.angle
      && TotalRotation(ops[..n - 1]) + ops[n - 1].endAngle == g.angle
      && ops[n - 1].startAngle == -AngleOffset && ops[n - 1].endAngle <= g.maxAngle
  {
    var g := SweepOf(p, minAngle);
    var ops := RingOps(st, r, g, img);
    var n := |ops|;
    var head := [SetAntialiasing(st.antialias), SetLineWidth(st.width), SetLineCap(st.cap),
                 StrokeCircle(r, st.backdrop)];
    var mid := match g.overflow
      case Some(offset) => [StrokeArc(r, -AngleOffset, offset, Opaque(st.startColor)), Rotate(offset)]
      case None => [];
    var tail := ops[n - 2..];
    assert ops == head + mid + tail;
    assert ops[..n - 2] == head + mid;
    assert ops[..n - 1] == head + mid + [ops[n - 2]];
    TotalRotationAppend(head, mid);
    TotalRotationAppend(head + mid, [ops[n - 2]]);
    NoRotation(head);
    NoRotation([ops[n - 2]]);
    if g.overflow.Some? {
      var offset := g.overflow.value;
      assert TotalRotation(mid) == offset by {
        assert mid[..1][..0] == [];
      }
      assert ops[4].StrokeArc?;
    } else {
      assert mid == [];
      assert forall i :: 0 <= i < n ==> !ops[i].StrokeArc?;
    }
  }

  // ---------------------------------------------------------------------
  // The ramp both layers request
  // ---------------------------------------------------------------------

  /** `r` of `gradientImage()`: half the shorter side of the bounds. */
  function HalfSide(bounds: Size): real
  {
    Min(bounds.width, bounds.height) / 2.0
  }

  /** `r2`: the radius of the ring's centre line. */
  function CentreRadius(bounds: Size, ringWidth: real): real
  {
    HalfSide(bounds) - ringWidth / 2.0
  }

  /** `s`: the fraction of a turn over which the ramp holds its end colours. */
  function RampStop(bounds: Size, ringWidth: real): (s: real)
    requires CentreRadius(bounds, ringWidth) != 0.0
    ensures ringWidth > 0.0 && CentreRadius(bounds, ringWidth) > 0.0 ==> s > 0.0
  {
    1.5 * ringWidth / (2.0 * Pi * CentreRadius(bounds, ringWidth))
  }

  function RampLocations(s: real): seq<real>
  {
    [0.0, s, 1.0 - s, 1.0]
  }

  /** The conical request of `gradientImage()`: colours
      [end, end, start, start] at [0, s, 1-s, 1], the default start anchor and
      the end anchor (0.5 - 2s, 1). */
  function RampRequest(startColor: RGBA, endColor: RGBA, s: real): Request
  {
    Request(Conical, [endColor, endColor, startColor, startColor], None, Some(RampLocations(s)), None,
            None, Some(Point(0.5 - 2.0 * s, 1.0)), None, None)
  }

  /** The ramp's locations are in order exactly when s is in [0, 0.5], and
      strictly in order exactly when s is in (0, 0.5). */
  lemma RampLocationsOrdered(s: real)
    ensures NonDecreasing(RampLocations(s)) <==> 0.0 <= s <= 0.5
    ensures StrictlyIncreasing(RampLocations(s)) <==> 0.0 < s < 0.5
  {
    var l := RampLocations(s);
    if NonDecreasing(l) { assert l[0] <= l[1] && l[1] <= l[2]; }
    if StrictlyIncreasing(l) { assert l[0] < l[1] && l[1] < l[2]; }
  }

  /** The generator accepts the ramp request at every positive pixel size
      and draws it without trapping, whatever s is: the conical stop is a
      fraction of a turn. */
  lemma RampWellFormed(startColor: RGBA, endColor: RGBA, s: real, w: int, h: int, trig: Trig)
    requires 0 < w && 0 < h
    ensures WellFormed(RampRequest(startColor, endColor, s), Size(w as real, h as real))
    ensures Drawable(RampRequest(startColor, endColor, s), w, h, trig)
  {
    ConicalDrawable(RampRequest(startColor, endColor, s), w, h, trig);
  }

  /** Along the ramp the colour is solid end colour up to s, solid start
      colour from 1-s on, and the byte blend from end to start in between. */
  lemma RampColors(startColor: RGBA, endColor: RGBA, s: real, t: real)
    requires 0.0 < s < 0.5
    ensures Bracketed(t, RampLocations(s))
    ensures var colors := [endColor, endColor, startColor, startColor];
      && (t <= s ==> ColorAt(t, colors, RampLocations(s)) == endColor)
      && (t >= 1.0 - s ==> ColorAt(t, colors, RampLocations(s)) == startColor)
      && (s < t < 1.0 - s ==>
            ColorAt(t, colors, RampLocations(s)) == Interpolate(endColor, startColor, RangeLerp(t, s, 1.0 - s, 0.0, 1.0)))
  {
    var colors, l := [endColor, endColor, startColor, startColor], RampLocations(s);
    UnitLocationsBracketed(t, l);
    LowerIsGreatest(t, l);
    UpperIsLeast(t, l);
    var p0, p1 := Lower(t, l), Upper(t, l);
    assert |l| == 4 && l[0] == 0.0 && l[1] == s && l[2] == 1.0 - s && l[3] == 1.0;
    if t <= 0.0 {
      assert p0 == 0.0 && p1 == 0.0;
    } else if t < s {
      assert p0 == 0.0;
      assert p1 == s;
      assert IndexOf(l, s) == 1;
    } else if t == s {
      assert p0 == s && p1 == s;
      assert IndexOf(l, s) == 1;
    } else if t < 1.0 - s {
      assert p0 == s;
      assert p1 == 1.0 - s;
      assert IndexOf(l, s) == 1;
      assert IndexOf(l, 1.0 - s) == 2;
    } else if t == 1.0 - s {
      assert p0 == 1.0 - s && p1 == 1.0 - s;
      assert IndexOf(l, 1.0 - s) == 2;
    } else if t < 1.0 {
      assert p0 == 1.0 - s && p1 == 1.0;
      assert IndexOf(l, 1.0 - s) == 2;
    } else {
      assert p0 == 1.0 && p1 == 1.0;
      assert IndexOf(l, 1.0) == 3;
    }
  }
}
