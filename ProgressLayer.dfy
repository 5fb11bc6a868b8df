/** The current ring layer, `RingProgressLayer`: its stored style fields and
    their observers, the single-slot cache of the gradient image, and the
    drawing decisions of `contentImage`. Colours are RGBA bytes; progress as
    seen by the presentation layer and the angular gap `minAngle` arrive as
    inputs to `ContentImage`. */
module ProgressLayer {
  import opened Scalars
  import opened GradientGenerator
  import opened RingGeometry

  /** `RingProgressViewStyle`. */
  datatype Style = Round | Square

  /** `lineCap` of a style. */
  function LineCapOf(style: Style): LineCap
  {
    match style
    case Round => RoundCap
    case Square => Butt
  }

  /** `lineJoin` of a style. */
  function LineJoinOf(style: Style): LineJoin
  {
    match style
    case Round => RoundJoin
    case Square => Miter
  }

  /** The shape of the shadow cap `contentImage` fills at the arc's end: a
      w-by-w oval for `.round`, a w-by-2 rectangle turned to the arc's
      tangent for `.square`. */
  function ShadowShapeOf(style: Style): CapShape
  {
    match style
    case Round => Oval
    case Square => Bar
  }

  /** A round style draws round caps, round joins and an oval shadow, a
      square one butt caps, miter joins and a bar; so the style can be read
      back from any one of the three. */
  lemma StyleMapping(style: Style)
    ensures style == Round <==> (LineCapOf(style), LineJoinOf(style), ShadowShapeOf(style)) == (RoundCap, RoundJoin, Oval)
    ensures style == Square <==> (LineCapOf(style), LineJoinOf(style), ShadowShapeOf(style)) == (Butt, Miter, Bar)
    ensures forall other: Style :: LineCapOf(other) == LineCapOf(style) ==> other == style
  {
  }

  /** Every stored field of the layer, for stating what a setter changes. */
  datatype LayerState = LayerState(
    startColor: RGBA, endColor: RGBA, backgroundRingColor: Option<RGBA>, ringWidth: real,
    progressStyle: Style, endShadowOpacity: real, allowsAntialiasing: bool,
    gradientImageScale: real, progress: real, gradientCache: Option<Image>,
    needsDisplay: bool, contents: seq<DrawOp>)

  class RingProgressLayer {
    var startColor: RGBA
    var endColor: RGBA
    var backgroundRingColor: Option<RGBA>
    var ringWidth: real
    var progressStyle: Style
    var endShadowOpacity: real
    var allowsAntialiasing: bool
    var gradientImageScale: real
    /** The model value of `progress`; what is drawn is the presentation
        layer's value, passed to `ContentImage`. */
    var progress: real
    /** `_gradientImage`. */
    var gradientCache: Option<Image>
    /** Set by `setNeedsDisplay()`. */
    var needsDisplay: bool
    /** What `display()` last stored in `contents`. */
    var contents: seq<DrawOp>
    const bounds: Size
    /** The radial and conical stops of the generator (trigonometry). */
    const trig: Trig

    function State(): LayerState
      reads this
    {
      LayerState(startColor, endColor, backgroundRingColor, ringWidth, progressStyle,
                 endShadowOpacity, allowsAntialiasing, gradientImageScale, progress,
                 gradientCache, needsDisplay, contents)
    }

    /** The ramp of `gradientImage()` is defined: the ring's centre line has
        a non-zero radius and the image has at least one pixel each way. */
    predicate RampDefined()
      reads this
    {
      CentreRadius(bounds, ringWidth) != 0.0 && 0 < Trunc(HalfSide(bounds) * gradientImageScale)
    }

    /** The generator request of `gradientImage()` for the current fields. */
    function Ramp(): Request
      reads this
      requires RampDefined()
    {
      RampRequest(startColor, endColor, RampStop(bounds, ringWidth))
    }

    function RampSize(): Size
      reads this
    {
      Size(HalfSide(bounds), HalfSide(bounds))
    }

    /** The opacity is clamped, and a cached image is exactly the image the
        generator makes from the current colours, width and scale. */
    ghost predicate Valid()
      reads this
    {
      0.0 <= endShadowOpacity <= 1.0 &&
      (gradientCache.Some? ==>
        RampDefined() && IsGradientImage(gradientCache.value, Ramp(), RampSize(), gradientImageScale, trig))
    }

    /** The style `contentImage` draws with. */
    function DrawStyle(): RingStyle
      reads this
    {
      RingStyle(allowsAntialiasing, ringWidth, LineCapOf(progressStyle), LineJoinOf(progressStyle),
                ShadowShapeOf(progressStyle), Backdrop(backgroundRingColor, startColor),
                startColor, endShadowOpacity)
    }

    /** A layer with the declared defaults: red to blue, width 20, round
        style, full shadow, antialiasing on, scale 1, progress 0, no cache. */
    constructor (bounds: Size, trig: Trig)
      ensures Valid()
      ensures this.bounds == bounds && this.trig == trig
      ensures State() == LayerState(RGBA(0xff, 0, 0, 0xff), RGBA(0, 0, 0xff, 0xff), None, 20.0,
                                    Round, 1.0, true, 1.0, 0.0, None, false, [])
    {
      this.bounds := bounds;
      this.trig := trig;
      startColor := RGBA(0xff, 0, 0, 0xff);
      endColor := RGBA(0, 0, 0xff, 0xff);
      backgroundRingColor := None;
      ringWidth := 20.0;
      progressStyle := Round;
      endShadowOpacity := 1.0;
      allowsAntialiasing := true;
      gradientImageScale := 1.0;
      progress := 0.0;
      gradientCache := None;
      needsDisplay := false;
      contents := [];
    }

    /** `setNeedsRedrawContents()`: drop the cache and request a redisplay.
        Called right after a ramp field changed, when the old cache may no
        longer fit, so it asks only for the clamped opacity. */
    method SetNeedsRedrawContents()
      requires 0.0 <= endShadowOpacity <= 1.0
      modifies this`gradientCache, this`needsDisplay
      ensures Valid()
      ensures State() == old(State()).(gradientCache := None, needsDisplay := true)
    {
      gradientCache := None;
      needsDisplay := true;
    }

    method SetStartColor(c: RGBA)
      requires Valid()
      modifies this
      ensures Valid()
      ensures State() == old(State()).(startColor := c, gradientCache := None, needsDisplay := true)
    {
      startColor := c;
      SetNeedsRedrawContents();
    }

    method SetEndColor(c: RGBA)
      requires Valid()
      modifies this
      ensures Valid()
      ensures State() == old(State()).(endColor := c, gradientCache := None, needsDisplay := true)
    {
      endColor := c;
      SetNeedsRedrawContents();
    }

    method SetRingWidth(w: real)
      requires Valid()
      modifies this
      ensures Valid()
      ensures State() == old(State()).(ringWidth := w, gradientCache := None, needsDisplay := true)
    {
      ringWidth := w;
      SetNeedsRedrawContents();
    }

    method SetGradientImageScale(scale: real)
      requires Valid()
      modifies this
      ensures Valid()
      ensures State() == old(State()).(gradientImageScale := scale, gradientCache := None, needsDisplay := true)
    {
      gradientImageScale := scale;
      SetNeedsRedrawContents();
    }

    /** The backdrop colour is not part of the ramp: the cache survives. */
    method SetBackgroundRingColor(c: Option<RGBA>)
      requires Valid()
      modifies this
      ensures Valid()
      ensures State() == old(State()).(backgroundRingColor := c, needsDisplay := true)
    {
      backgroundRingColor := c;
      needsDisplay := true;
    }

    method SetProgressStyle(style: Style)
      requires Valid()
      modifies this
      ensures Valid()
      ensures State() == old(State()).(progressStyle := style, needsDisplay := true)
    {
      progressStyle := style;
      needsDisplay := true;
    }

    /** The observer stores the assigned value clamped to [0, 1]. */
    method SetEndShadowOpacity(v: real)
      requires Valid()
      modifies this
      ensures Valid()
      ensures State() == old(State()).(endShadowOpacity := Clamp01(v), needsDisplay := true)
      ensures 0.0 <= v <= 1.0 ==> endShadowOpacity == v
    {
      endShadowOpacity := v;
      endShadowOpacity := Clamp01(endShadowOpacity);
      needsDisplay := true;
    }

    method SetAllowsAntialiasing(b: bool)
      requires Valid()
      modifies this
      ensures Valid()
      ensures State() == old(State()).(allowsAntialiasing := b, needsDisplay := true)
    {
      allowsAntialiasing := b;
      needsDisplay := true;
    }

    /** `progress` is a managed property whose change asks for a redisplay;
        the animation that follows is not part of this model. */
    method SetProgress(p: real)
      requires Valid()
      modifies this
      ensures Valid()
      ensures State() == old(State()).(progress := p, needsDisplay := true)
    {
      progress := p;
      needsDisplay := true;
    }

    /** `gradientImage()`: generate the ramp image only when the cache is
        empty, keep it, and return the cached one otherwise. Either way the
        result is the generator's image for the current fields. */
    method GradientImage() returns (img: Image)
      requires Valid() && RampDefined()
      modifies this`gradientCache
      ensures Valid()
      ensures gradientCache == Some(img)
      ensures IsGradientImage(img, Ramp(), RampSize(), gradientImageScale, trig)
      ensures old(gradientCache).Some? ==> img == old(gradientCache).value
    {
      if gradientCache.None? {
        var r := HalfSide(bounds);
        var s := RampStop(bounds, ringWidth);
        var request := RampRequest(startColor, endColor, s);
        var size, scale := Size(r, r), gradientImageScale;
        var w, h := Trunc(size.width * scale), Trunc(size.height * scale);
        assert size.width == r == size.height;
        RampWellFormed(startColor, endColor, s, w, h, trig);
        var generated := GradientGenerator.GradientImage(request, size, scale, trig);
        gradientCache := Some(generated);
      }
      img := gradientCache.value;
    }

    /** `contentImage()`: the operations drawn for the presented progress
        (0 when there is none, and never below 0), in order. */
    method ContentImage(presented: Option<real>, minAngle: real) returns (ops: seq<DrawOp>)
      requires Valid() && RampDefined()
      modifies this`gradientCache
      ensures Valid() && gradientCache.Some?
      ensures old(gradientCache).Some? ==> gradientCache == old(gradientCache)
      ensures IsGradientImage(gradientCache.value, Ramp(), RampSize(), gradientImageScale, trig)
      ensures ops == RingOps(DrawStyle(), CentreRadius(bounds, ringWidth),
                             SweepOf(Max(0.0, presented.GetOr(0.0)), minAngle), gradientCache.value)
    {
      var w := ringWidth;
      var r := Min(bounds.width, bounds.height) / 2.0 - w / 2.0;
      var p := Max(0.0, presented.GetOr(0.0));
      var angle := 2.0 * Pi * p - AngleOffset;
      var maxAngle := 2.0 * Pi - 3.0 * minAngle - AngleOffset;
      var angle1 := if angle > maxAngle then maxAngle else angle;
      ghost var g, st := SweepOf(p, minAngle), DrawStyle();
      assert angle == g.angle && maxAngle == g.maxAngle && angle1 == g.endAngle;
      ops := [SetAntialiasing(allowsAntialiasing), SetLineWidth(w), SetLineCap(LineCapOf(progressStyle))];
      // Backdrop circle
      ops := ops + [StrokeCircle(r, Backdrop(backgroundRingColor, startColor))];
      // Solid arc, then turn the context so the gradient arc ends at `angle`
      if angle > maxAngle {
        var offset := angle - maxAngle;
        ops := ops + [StrokeArc(r, -AngleOffset, offset, Opaque(startColor)), Rotate(offset)];
        assert g.overflow == Some(offset);
      } else {
        assert g.overflow.None?;
      }
      // Shadow under the arc's end
      ops := ops + [FillShadowCap(ShadowShapeOf(progressStyle), angle1, r, w, endShadowOpacity, w / 3.0,
                                  Opaque(startColor))];
      // Gradient arc
      var img := GradientImage();
      assert DrawStyle() == st;
      ops := ops + [DrawGradientArc(r, -AngleOffset, angle1, w, LineCapOf(progressStyle),
                                    LineJoinOf(progressStyle), r + w / 2.0, img)];
    }

    /** `display()`: store the drawn content. */
    method Display(presented: Option<real>, minAngle: real)
      requires Valid() && RampDefined()
      modifies this`gradientCache, this`contents
      ensures Valid() && gradientCache.Some?
      ensures old(gradientCache).Some? ==> gradientCache == old(gradientCache)
      ensures contents == RingOps(DrawStyle(), CentreRadius(bounds, ringWidth),
                                  SweepOf(Max(0.0, presented.GetOr(0.0)), minAngle), gradientCache.value)
    {
      contents := ContentImage(presented, minAngle);
    }
  }

  /** The setters that only ask for a redisplay keep the cached image: two
      `gradientImage()` calls around them return the same image. */
  method CacheSurvivesRedisplaySetters(layer: RingProgressLayer, bg: Option<RGBA>, style: Style,
                                       opacity: real, antialias: bool, progress: real)
      returns (before: Image, after: Image)
    requires layer.Valid() && layer.RampDefined()
    modifies layer
    ensures before == after
  {
    before := layer.GradientImage();
    layer.SetBackgroundRingColor(bg);
    layer.SetProgressStyle(style);
    layer.SetEndShadowOpacity(opacity);
    layer.SetAllowsAntialiasing(antialias);
    layer.SetProgress(progress);
    after := layer.GradientImage();
  }

  /** After a colour change the next `gradientImage()` is regenerated for the
      new colour, not taken from the old cache. */
  method RampFollowsStartColor(layer: RingProgressLayer, c: RGBA) returns (img: Image)
    requires layer.Valid() && layer.RampDefined()
    modifies layer
    ensures layer.RampDefined()
    ensures img.width == Trunc(HalfSide(layer.bounds) * layer.gradientImageScale)
    ensures IsGradientImage(img, RampRequest(c, layer.endColor, RampStop(layer.bounds, layer.ringWidth)),
                            layer.RampSize(), layer.gradientImageScale, layer.trig)
  {
    layer.SetStartColor(c);
    img := layer.GradientImage();
  }
}
