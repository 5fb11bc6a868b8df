/** The older pair in MKRingProgressView.swift: the view `MKRingProgressView`,
    whose properties forward to its layer, and that layer, `MKRingProgressLayer`,
    an earlier variant of the current ring layer. It has no style (always
    round caps and joins, an oval shadow), no gradient scale (always 1), and
    does not clamp a negative progress. */
module ProgressView {
  import opened Scalars
  import opened GradientGenerator
  import opened RingGeometry

  /** Every stored field of the older layer. */
  datatype LayerState = LayerState(
    startColor: RGBA, endColor: RGBA, backgroundRingColor: Option<RGBA>, ringWidth: real,
    endShadowOpacity: real, allowsAntialiasing: bool, progress: real,
    gradientCache: Option<Image>, needsDisplay: bool, contents: seq<DrawOp>)

  /** The gradient scale the older layer passes to the generator. */
  const FixedScale: real := 1.0

  class MKRingProgressLayer {
    var startColor: RGBA
    var endColor: RGBA
    var backgroundRingColor: Option<RGBA>
    var ringWidth: real
    var endShadowOpacity: real
    var allowsAntialiasing: bool
    var progress: real
    /** `_gradientImage`. */
    var gradientCache: Option<Image>
    var needsDisplay: bool
    var contents: seq<DrawOp>
    const bounds: Size
    const trig: Trig

    function State(): LayerState
      reads this
    {
      LayerState(startColor, endColor, backgroundRingColor, ringWidth, endShadowOpacity,
                 allowsAntialiasing, progress, gradientCache, needsDisplay, contents)
    }

    predicate RampDefined()
      reads this
    {
      CentreRadius(bounds, ringWidth) != 0.0 && 0 < Trunc(HalfSide(bounds) * FixedScale)
    }

    function Ramp(): Request
      reads this
      requires RampDefined()
    {
      RampRequest(startColor, endColor, RampStop(bounds, ringWidth))
    }

    function RampSize(): Size
      reads this
    {
      Size(HalfSide(bounds), HalfSide(bounds))
    }

    /** The opacity is clamped, and a cached image is the generator's image
        for the current colours and width at scale 1. */
    ghost predicate Valid()
      reads this
    {
      0.0 <= endShadowOpacity <= 1.0 &&
      (gradientCache.Some? ==>
        RampDefined() && IsGradientImage(gradientCache.value, Ramp(), RampSize(), FixedScale, trig))
    }

    /** Round caps, round joins and an oval shadow, whatever the settings. */
    function DrawStyle(): RingStyle
      reads this
    {
      RingStyle(allowsAntialiasing, ringWidth, RoundCap, RoundJoin, Oval,
                Backdrop(backgroundRingColor, startColor), startColor, endShadowOpacity)
    }

    constructor (bounds: Size, trig: Trig)
      ensures Valid()
      ensures this.bounds == bounds && this.trig == trig
      ensures State() == LayerState(RGBA(0xff, 0, 0, 0xff), RGBA(0, 0, 0xff, 0xff), None, 20.0,
                                    1.0, true, 0.0, None, false, [])
    {
      this.bounds := bounds;
      this.trig := trig;
      startColor := RGBA(0xff, 0, 0, 0xff);
      endColor := RGBA(0, 0, 0xff, 0xff);
      backgroundRingColor := None;
      ringWidth := 20.0;
      endShadowOpacity := 1.0;
      allowsAntialiasing := true;
      progress := 0.0;
      gradientCache := None;
      needsDisplay := false;
      contents := [];
    }

    /** `setNeedsRedrawContents()`. */
    method SetNeedsRedrawContents()
      requires 0.0 <= endShadowOpacity <= 1.0
      modifies this`gradientCache, this`needsDisplay
      ensures Valid()
      ensures State() == old(State()).(gradientCache := None, needsDisplay := true)
    {
      gradientCache := None;
      needsDisplay := true;
    }

    method SetStartColor(c: RGBA)
      requires Valid()
      modifies this
      ensures Valid()
      ensures State() == old(State()).(startColor := c, gradientCache := None, needsDisplay := true)
    {
      startColor := c;
      SetNeedsRedrawContents();
    }

    method SetEndColor(c: RGBA)
      requires Valid()
      modifies this
      ensures Valid()
      ensures State() == old(State()).(endColor := c, gradientCache := None, needsDisplay := true)
    {
      endColor := c;
      SetNeedsRedrawContents();
    }

    method SetRingWidth(w: real)
      requires Valid()
      modifies this
      ensures Valid()
      ensures State() == old(State()).(ringWidth := w, gradientCache := None, needsDisplay := true)
    {
      ringWidth := w;
      SetNeedsRedrawContents();
    }

    method SetBackgroundRingColor(c: Option<RGBA>)
      requires Valid()
      modifies this
      ensures Valid()
      ensures State() == old(State()).(backgroundRingColor := c, needsDisplay := true)
    {
      backgroundRingColor := c;
      needsDisplay := true;
    }

    method SetEndShadowOpacity(v: real)
      requires Valid()
      modifies this
      ensures Valid()
      ensures State() == old(State()).(endShadowOpacity := Clamp01(v), needsDisplay := true)
      ensures 0.0 <= v <= 1.0 ==> endShadowOpacity == v
    {
      endShadowOpacity := v;
      endShadowOpacity := Clamp01(endShadowOpacity);
      needsDisplay := true;
    }

    method SetAllowsAntialiasing(b: bool)
      requires Valid()
      modifies this
      ensures Valid()
      ensures State() == old(State()).(allowsAntialiasing := b, needsDisplay := true)
    {
      allowsAntialiasing := b;
      needsDisplay := true;
    }

    method SetProgress(p: real)
      requires Valid()
      modifies this
      ensures Valid()
      ensures State() == old(State()).(progress := p, needsDisplay := true)
    {
      progress := p;
      needsDisplay := true;
    }

    /** `gradientImage()`: lazy, single-slot, at scale 1. */
    method GradientImage() returns (img: Image)
      requires Valid() && RampDefined()
      modifies this`gradientCache
      ensures Valid()
      ensures gradientCache == Some(img)
      ensures IsGradientImage(img, Ramp(), RampSize(), FixedScale, trig)
      ensures old(gradientCache).Some? ==> img == old(gradientCache).value
    {
      if gradientCache.None? {
        var r := HalfSide(bounds);
        var s := RampStop(bounds, ringWidth);
        var request := RampRequest(startColor, endColor, s);
        var size := Size(r, r);
        var w, h := Trunc(size.width * FixedScale), Trunc(size.height * FixedScale);
        assert size.width == r == size.height;
        RampWellFormed(startColor, endColor, s, w, h, trig);
        var generated := GradientGenerator.GradientImage(request, size, FixedScale, trig);
        gradientCache := Some(generated);
      }
      img := gradientCache.value;
    }

    /** `contentImage()`: as the current layer's, but the presented progress
        is used as it is, negative or not. */
    method ContentImage(presented: Option<real>, minAngle: real) returns (ops: seq<DrawOp>)
      requires Valid() && RampDefined()
      modifies this`gradientCache
      ensures Valid() && gradientCache.Some?
      ensures old(gradientCache).Some? ==> gradientCache == old(gradientCache)
      ensures IsGradientImage(gradientCache.value, Ramp(), RampSize(), FixedScale, trig)
      ensures ops == RingOps(DrawStyle(), CentreRadius(bounds, ringWidth),
                             SweepOf(presented.GetOr(0.0), minAngle), gradientCache.value)
    {
      var w := ringWidth;
      var r := Min(bounds.width, bounds.height) / 2.0 - w / 2.0;
      var p := presented.GetOr(0.0);
      var angle := 2.0 * Pi * p - AngleOffset;
      var maxAngle := 2.0 * Pi - 3.0 * minAngle - AngleOffset;
      var angle1 := if angle > maxAngle then maxAngle else angle;
      ghost var g, st := SweepOf(p, minAngle), DrawStyle();
      assert angle == g.angle && maxAngle == g.maxAngle && angle1 == g.endAngle;
      ops := [SetAntialiasing(allowsAntialiasing), SetLineWidth(w), SetLineCap(RoundCap)];
      // Backdrop circle
      ops := ops + [StrokeCircle(r, Backdrop(backgroundRingColor, startColor))];
      // Solid arc and rotation
      if angle > maxAngle {
        var offset := angle - maxAngle;
        ops := ops + [StrokeArc(r, -AngleOffset, offset, Opaque(startColor)), Rotate(offset)];
        assert g.overflow == Some(offset);
      } else {
        assert g.overflow.None?;
      }
      // Shadow
      ops := ops + [FillShadowCap(Oval, angle1, r, w, endShadowOpacity, w / 3.0, Opaque(startColor))];
      // Gradient arc
      var img := GradientImage();
      assert DrawStyle() == st;
      ops := ops + [DrawGradientArc(r, -AngleOffset, angle1, w, RoundCap, RoundJoin, r + w / 2.0, img)];
    }

    /** `display()`. */
    method Display(presented: Option<real>, minAngle: real)
      requires Valid() && RampDefined()
      modifies this`gradientCache, this`contents
      ensures Valid() && gradientCache.Some?
      ensures old(gradientCache).Some? ==> gradientCache == old(gradientCache)
      ensures contents == RingOps(DrawStyle(), CentreRadius(bounds, ringWidth),
                                  SweepOf(presented.GetOr(0.0), minAngle), gradientCache.value)
    {
      contents := ContentImage(presented, minAngle);
    }
  }

  /** The view keeps no state of its own: every property is a field of its
      layer, read back by the getter and written by the setter. */
  class MKRingProgressView {
    const layer: MKRingProgressLayer

    ghost predicate Valid()
      reads layer
    {
      layer.Valid()
    }

    /** `layerClass`: the view is backed by a fresh older layer. */
    constructor (bounds: Size, trig: Trig)
      ensures Valid() && fresh(layer)
      ensures layer.bounds == bounds && layer.trig == trig
      ensures layer.State() == LayerState(RGBA(0xff, 0, 0, 0xff), RGBA(0, 0, 0xff, 0xff), None, 20.0,
                                          1.0, true, 0.0, None, false, [])
    {
      layer := new MKRingProgressLayer(bounds, trig);
    }

    function StartColor(): RGBA reads layer { layer.startColor }

    function EndColor(): RGBA reads layer { layer.endColor }

    function BackgroundRingColor(): Option<RGBA> reads layer { layer.backgroundRingColor }

    function RingWidth(): real reads layer { layer.ringWidth }

    function ShadowOpacity(): real reads layer { layer.endShadowOpacity }

    function AllowsAntialiasing(): bool reads layer { layer.allowsAntialiasing }

    function Progress(): real reads layer { layer.progress }

    method SetStartColor(c: RGBA)
      requires Valid()
      modifies layer
      ensures Valid() && StartColor() == c
      ensures layer.State() == old(layer.State()).(startColor := c, gradientCache := None, needsDisplay := true)
    {
      layer.SetStartColor(c);
    }

    method SetEndColor(c: RGBA)
      requires Valid()
      modifies layer
      ensures Valid() && EndColor() == c
      ensures layer.State() == old(layer.State()).(endColor := c, gradientCache := None, needsDisplay := true)
    {
      layer.SetEndColor(c);
    }

    method SetBackgroundRingColor(c: Option<RGBA>)
      requires Valid()
      modifies layer
      ensures Valid() && BackgroundRingColor() == c
      ensures layer.State() == old(layer.State()).(backgroundRingColor := c, needsDisplay := true)
    {
      layer.SetBackgroundRingColor(c);
    }

    method SetRingWidth(w: real)
      requires Valid()
      modifies layer
      ensures Valid() && RingWidth() == w
      ensures layer.State() == old(layer.State()).(ringWidth := w, gradientCache := None, needsDisplay := true)
    {
      layer.SetRingWidth(w);
    }

    /** Reading `shadowOpacity` back gives the assigned value clamped to
        [0, 1]: the layer's observer clamps it. */
    method SetShadowOpacity(v: real)
      requires Valid()
      modifies layer
      ensures Valid() && ShadowOpacity() == Clamp01(v)
      ensures 0.0 <= ShadowOpacity() <= 1.0
      ensures layer.State() == old(layer.State()).(endShadowOpacity := Clamp01(v), needsDisplay := true)
    {
      layer.SetEndShadowOpacity(v);
    }

    method SetAllowsAntialiasing(b: bool)
      requires Valid()
      modifies layer
      ensures Valid() && AllowsAntialiasing() == b
      ensures layer.State() == old(layer.State()).(allowsAntialiasing := b, needsDisplay := true)
    {
      layer.SetAllowsAntialiasing(b);
    }

    /** `Double` and `CGFloat` are the same 64-bit type on the platforms the
        view targets, so the conversions both ways are the identity. */
    method SetProgress(p: real)
      requires Valid()
      modifies layer
      ensures Valid() && Progress() == p
      ensures layer.State() == old(layer.State()).(progress := p, needsDisplay := true)
    {
      layer.SetProgress(p);
    }
  }

  /** Assigning the view's shadow opacity twice stores what assigning once
      does. */
  method ShadowOpacityTwice(view: MKRingProgressView, v: real)
    requires view.Valid()
    modifies view.layer
    ensures view.ShadowOpacity() == Clamp01(v)
  {
    view.SetShadowOpacity(v);
    view.SetShadowOpacity(view.ShadowOpacity());
    Clamp01Idempotent(v);
  }

  /** Of the older layer's setters, only the ramp fields clear the cache:
      the image survives a backdrop, opacity, antialiasing or progress change. */
  method CacheSurvivesRedisplaySetters(layer: MKRingProgressLayer, bg: Option<RGBA>,
                                       opacity: real, antialias: bool, progress: real)
      returns (before: Image, after: Image)
    requires layer.Valid() && layer.RampDefined()
    modifies layer
    ensures before == after
  {
    before := layer.GradientImage();
    layer.SetBackgroundRingColor(bg);
    layer.SetEndShadowOpacity(opacity);
    layer.SetAllowsAntialiasing(antialias);
    layer.SetProgress(progress);
    after := layer.GradientImage();
  }
}
