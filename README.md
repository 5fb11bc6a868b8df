# MKRingProgressView in Dafny

MKRingProgressView draws a ring-shaped progress indicator. The ring has a
backdrop circle, a gradient arc swept clockwise from 12 o'clock, and a shadow
cap under the arc's leading edge. Past the first turn it adds a solid arc in the
start colour. The gradient that shades the arc is a conical colour ramp. A small
pixel-by-pixel gradient rasteriser computes it once, and the layer caches the
result.

This project models three parts of the library:

- **The gradient generator** (`GradientGenerator.dfy`), which covers:
  - RGBA byte colours, their construction from a hex integer and their equality;
  - the clamped byte lerp and the range lerp;
  - uniform default locations;
  - the bracketing search of `interpolatedColor`, as a loop proved against the
    functions `Lower`/`Upper`/`ColorAt`;
  - the linear projection;
  - the ramp and anchor defaulting of `pixelDataForGradient`;
  - the row-major buffer fill of `gradientImageWithType`.
- **The ring geometry** (`RingGeometry.dfy`), which covers:
  - the angle decisions of `contentImage`: the clamped end angle, the overflow
    offset and the rotation;
  - the sequence of drawing operations the layer issues on its context;
  - the `[end, end, start, start]` at `[0, s, 1-s, 1]` ramp that both layers
    request from the generator.
- **The two layers and the view**:
  - `ProgressLayer.dfy` models the current `RingProgressLayer`;
  - `ProgressView.dfy` models the older `MKRingProgressLayer` and the
    `MKRingProgressView` that forwards its properties to it.

  Each layer is a class whose fields are the stored properties.

  - Every setter states the layer's whole new state, including which setters
    clear the single-slot gradient cache.
  - The class invariant `Valid()` says two things. The shadow opacity is in
    [0, 1]. A cached image is exactly the image the generator would make from
    the current fields.
  - `GradientImage()` is lazy.
  - `ContentImage` builds the operation list step by step, as the source does.
    It is proved equal to `RingOps` of `SweepOf`, so the geometry lemmas apply
    to what is drawn.

Numbers are modelled as follows:

- `Float` and `CGFloat` are `real`.
- `UInt8` is a bounded `int`. A truncating `UInt8(x)` of a non-negative value
  is `x.Floor`.
- `Int(x)` truncates toward zero (`Trunc`).
- `>>` and `& 0xff` on a hex value become Euclidean `/` and `%`. For the
  non-negative divisors used, these agree with Swift's arithmetic shift and
  mask.

Colours reach the model as RGBA bytes. `copy(alpha: 0.15)` is the paint
`Faded(c, 0.15)`.

## Notes on the code's behaviour

- **Shadow cap fill.** Both layers fill the shadow cap under the arc's end with
  `startColor` (MKRingProgressView/MKRingProgressLayer.swift:242,
  MKRingProgressView/MKRingProgressView.swift:291; `RingGeometry.RingOps`).
- **A red-to-blue ramp on 10 rows.** With the default anchors the linear stop
  of pixel row `y` is `y / h`. In a 10-row image row 0 is RGBA(255, 0, 0, 255),
  row 5 is RGBA(127, 0, 127, 255), and row 9 sits at stop 0.9 and is
  RGBA(25, 0, 229, 255) (`GradientGenerator.TenRowRedToBlue`).
- **Progress above 1.** The doc comments say that values above 1 present
  multiple revolutions (MKRingProgressView/MKRingProgressLayer.swift:92) and
  that every whole number is one full revolution
  (MKRingProgressView/MKRingProgressView.swift:103-104). The drawing code
  does this with a single solid arc from 12 o'clock to
  `offset = angle - maxAngle` in the start colour. It then rotates the context by
  `offset`, so that the gradient arc ends at the true sweep angle
  (`RingGeometry.RingOpsLayout`, `RingGeometry.OneAndAHalfProgress`).
- **Negative progress on the older layer.** The older layer uses the presented
  progress unclamped, so a negative progress sweeps backwards past 12 o'clock
  (`RingGeometry.UnclampedSweepRunsBackwards`). The current layer clamps at 0,
  as its doc comment at MKRingProgressView/MKRingProgressLayer.swift:92 says.
- **Ramp lookups that trap.** `interpolatedColor` forms the interval
  `p0...p1` (MKRingProgressView/MKGradientGenerator.swift:182), which traps
  when `p0 > p1`. That happens exactly when the stop `t` lies beyond a location
  on the far side of 0 or 1: a location in `[t, 0)`, or one in `(1, t]`
  (`GradientGenerator.BracketedExactly`). Locations inside [0, 1] never trap,
  and neither does the conical stop, a fraction of a turn. So the layers' ramp
  is drawable at every positive size (`RingGeometry.RampWellFormed`).
- **A degenerate ring.** When the centre-line radius `r2` is 0, the ramp stop
  `s` divides by zero in floating point; the code does not guard this. The model
  requires `r2 != 0` (see Left out).

## Model

| member | source | states |
|---|---|---|
| Scalars.Clamp01 | MKRingProgressView/MKRingProgressLayer.swift:69-74 | the clamped value lies in [0, 1], equals the input when it is already in range, and is 0 below the range and 1 above it |
| Scalars.Clamp01Idempotent | MKRingProgressView/MKRingProgressLayer.swift:69-74 | clamping an already clamped opacity changes nothing, so assigning twice stores what assigning once does |
| Scalars.Trunc | MKRingProgressView/MKGradientGenerator.swift:39-40 | `Int(x)` truncates toward zero: a non-negative x gives the largest integer not above it, and a negative x gives the smallest integer not below it |
| GradientGenerator.FromHex | MKRingProgressView/MKGradientGenerator.swift:216-221 | alpha is 0xff, and r, g and b packed back as r·2^16 + g·2^8 + b give the hex value modulo 2^24 |
| GradientGenerator.FromHexRoundTrip | MKRingProgressView/MKGradientGenerator.swift:216-221 | packing any three bytes into a hex value and decoding it gives back those bytes with alpha 0xff |
| GradientGenerator.Equal | MKRingProgressView/MKGradientGenerator.swift:206-208 | channel-wise equality holds exactly when the two colours are the same value |
| GradientGenerator.ByteLerp | MKRingProgressView/MKGradientGenerator.swift:267-269 | the byte lies between the two end bytes, is the first at t <= 0 and is the second at t >= 1 |
| GradientGenerator.ByteLerpMonotone | MKRingProgressView/MKGradientGenerator.swift:267-269 | a larger t moves the byte monotonically from the first end toward the second: never down when a <= b, never up when a >= b |
| GradientGenerator.RangeLerp | MKRingProgressView/MKGradientGenerator.swift:271-273 | the start of the input range maps to the start of the output range, and its end to the output range's end |
| GradientGenerator.RangeLerpUnit | MKRingProgressView/MKGradientGenerator.swift:178-183 | renormalising a value between p0 < p1 onto [0, 1] gives a position in [0, 1] |
| GradientGenerator.Interpolate | MKRingProgressView/MKGradientGenerator.swift:252-258 | every channel lies between the two endpoint channels; t <= 0 gives the first colour, t >= 1 the second, and equal endpoints give that colour |
| GradientGenerator.UniformShape | MKRingProgressView/MKGradientGenerator.swift:119-125 | for count >= 2 the locations are count values, strictly increasing, from exactly 0 to exactly 1 |
| GradientGenerator.Uniform | MKRingProgressView/MKGradientGenerator.swift:119-125 | count locations i/(count-1); its length is count (`UniformShape` states the shape) |
| GradientGenerator.UniformLocations | MKRingProgressView/MKGradientGenerator.swift:119-125 | the appending loop builds exactly the uniform locations i/(count-1) |
| GradientGenerator.LowerIsGreatest | MKRingProgressView/MKGradientGenerator.swift:161-176 | after the loop, p0 is at least 0 and at least every location not above t, and it is either 0 or such a location |
| GradientGenerator.UpperIsLeast | MKRingProgressView/MKGradientGenerator.swift:161-176 | after the loop, p1 is at most 1 and at most every location not below t, and it is either 1 or such a location |
| GradientGenerator.Bracket | MKRingProgressView/MKGradientGenerator.swift:161-182 | for 0 <= t <= 1, 0 <= p0 <= t <= p1 <= 1, so the interval forms |
| GradientGenerator.Bracketed | MKRingProgressView/MKGradientGenerator.swift:178-182 | the condition that `p0...p1` can be formed, p0 <= p1 (a predicate, no ensures; `BracketedExactly` states when it holds) |
| GradientGenerator.BracketedExactly | MKRingProgressView/MKGradientGenerator.swift:161-182 | the lookup of t forms its interval if and only if no location lies in [t, 0) and none lies in (1, t] |
| GradientGenerator.UnitLocationsBracketed | MKRingProgressView/MKGradientGenerator.swift:161-182 | with every location in [0, 1], no stop t traps |
| GradientGenerator.OutsideLocationTraps | MKRingProgressView/MKGradientGenerator.swift:161-182 | a stop equal to a listed location below 0 or above 1 always traps |
| GradientGenerator.Lower | MKRingProgressView/MKGradientGenerator.swift:161-176 | the final p0 of the loop: the greatest location in (0, t], or 0 (defined by its body; `LowerIsGreatest` states it) |
| GradientGenerator.Upper | MKRingProgressView/MKGradientGenerator.swift:161-176 | the final p1 of the loop: the least location in [t, 1), or 1 (defined by its body; `UpperIsLeast` states it) |
| GradientGenerator.LowerColor | MKRingProgressView/MKGradientGenerator.swift:164-176 | the final c0: the colour of p0's first occurrence, or the first colour when p0 stays 0 (defined by its body; `LowerStep` ties it to the loop) |
| GradientGenerator.UpperColor | MKRingProgressView/MKGradientGenerator.swift:165-176 | the final c1: the colour of p1's first occurrence, or the last colour when p1 stays 1 (defined by its body; `UpperStep` ties it to the loop) |
| GradientGenerator.ColorAt | MKRingProgressView/MKGradientGenerator.swift:157-189 | the reference definition of the ramp colour: requires `Bracketed` as the source does, then interpolates c0 to c1 at t renormalised from [p0, p1] to [0, 1], or at 0 when p0 = p1 (defined by its body; `InterpolatedColor`, `ColorAtLocation`, `ColorAtBelowRange` and `ColorAtAboveRange` state what it gives) |
| GradientGenerator.InterpolatedColor | MKRingProgressView/MKGradientGenerator.swift:157-189 | for a lookup whose interval `p0...p1` can be formed (`Bracketed`, the condition under which the source does not trap), the bracketing loop with its updates of p0, c0, p1 and c1, followed by the renormalised lerp, gives the ramp colour `ColorAt` |
| GradientGenerator.ColorAtLocation | MKRingProgressView/MKGradientGenerator.swift:157-189 | when t in [0, 1] equals a listed location, the lookup does not trap and returns exactly the colour of that location's first occurrence (for t = 0 this needs the list to start at 0, since p0 starts at 0 and keeps the first colour) |
| GradientGenerator.ColorAtBelowRange | MKRingProgressView/MKGradientGenerator.swift:161-181 | with sorted locations starting at 0, every t <= 0 is looked up without trapping and gives the first colour |
| GradientGenerator.ColorAtAboveRange | MKRingProgressView/MKGradientGenerator.swift:161-181 | with sorted locations ending at 1, every t >= 1 is looked up without trapping and gives the colour at the first location equal to 1, which is the last colour when the locations are strictly increasing |
| GradientGenerator.TwoStopRamp | MKRingProgressView/MKGradientGenerator.swift:114 | a two-colour ramp at [0, 1] never traps and is plain interpolation by t |
| GradientGenerator.LinearStop | MKRingProgressView/MKGradientGenerator.swift:127-132 | the projection of the pixel onto the anchor vector as a fraction of that vector (defined by its body; `LinearStopAtAnchors` and `DefaultLinearStopIsRow` state its values) |
| GradientGenerator.LinearStopAtAnchors | MKRingProgressView/MKGradientGenerator.swift:127-132 | the linear stop is 0 at the start anchor's pixel and 1 at the end anchor's pixel |
| GradientGenerator.DefaultLinearStopIsRow | MKRingProgressView/MKGradientGenerator.swift:127-132 | with the default top-to-bottom anchors, the stop of pixel row y is y / h |
| GradientGenerator.TenRowRedToBlue | MKRingProgressView/MKGradientGenerator.swift:89-94 | for red to blue over a 10-by-10 image with the default anchors, no pixel traps; row 0 is RGBA(255, 0, 0, 255), row 5 is RGBA(127, 0, 127, 255), and row 9, at stop 0.9, is RGBA(25, 0, 229, 255) |
| GradientGenerator.ConicalStopsBracketed | MKRingProgressView/MKGradientGenerator.swift:144-155 | the conical stop is a fraction of a turn, so a well-formed conical lookup never traps, whatever its locations |
| GradientGenerator.ConicalDrawable | MKRingProgressView/MKGradientGenerator.swift:38-59 | a well-formed conical request is drawable at every positive pixel size |
| GradientGenerator.PixelSpec | MKRingProgressView/MKGradientGenerator.swift:61-117 | the reference definition of a pixel's colour: the type's stop with its default anchors looked up in the resolved ramp, and for the bilinear type the vertical blend of the two horizontal lookups (defined by its body; `PixelData` and `BilinearBlend` state it) |
| GradientGenerator.BilinearBlend | MKRingProgressView/MKGradientGenerator.swift:105-115 | a bilinear pixel whose horizontal lookups do not trap is the two horizontal ramp colours blended by the vertical stop |
| GradientGenerator.PixelData | MKRingProgressView/MKGradientGenerator.swift:61-117 | for a well-formed request whose lookups at the pixel do not trap, defaulting the locations of each ramp the type reads, then projecting with the per-type default anchors, gives the pixel colour `PixelSpec` |
| GradientGenerator.GradientImageUnique | MKRingProgressView/MKGradientGenerator.swift:46-53 | a w-by-h row-major buffer of the pixel colours is determined by the request, so the cached and a regenerated image are equal |
| GradientGenerator.GradientImage | MKRingProgressView/MKGradientGenerator.swift:38-59 | on a drawable request (positive pixel size, well formed, no pixel whose lookup traps), the nested y/x loops append exactly w·h pixels, and the pixel at y·w + x is the colour computed for point (x, y) |
| RingGeometry.SweepOf | MKRingProgressView/MKRingProgressLayer.swift:181-189 | the arc end angle is at most maxAngle and at most the sweep; an overflow offset exists exactly when the sweep passes maxAngle, and it is then positive and brings the end angle back to the sweep |
| RingGeometry.ClampedSweepStartsAtTop | MKRingProgressView/MKRingProgressLayer.swift:180-182 | with progress clamped at 0, the sweep never starts before 12 o'clock, and a non-positive progress sweeps nothing |
| RingGeometry.UnclampedSweepRunsBackwards | MKRingProgressView/MKRingProgressView.swift:236-238 | unclamped, a negative progress sweeps back past 12 o'clock |
| RingGeometry.HalfProgress | MKRingProgressView/MKRingProgressLayer.swift:180-190 | progress 0.5 ends the arc at 6 o'clock with no solid arc |
| RingGeometry.OneAndAHalfProgress | MKRingProgressView/MKRingProgressLayer.swift:204-214 | progress 1.5 draws the solid arc, and the rotated gradient arc ends at 6 o'clock of the second revolution |
| RingGeometry.BackdropChoice | MKRingProgressView/MKRingProgressLayer.swift:198 | the backdrop is the explicit colour when one is set; otherwise it is the start colour faded to alpha 0.15 |
| RingGeometry.Backdrop | MKRingProgressView/MKRingProgressLayer.swift:198 | the backdrop paint (defined by its body; `BackdropChoice` states it) |
| RingGeometry.RingOpsLayout | MKRingProgressView/MKRingProgressLayer.swift:192-262 | the backdrop is drawn first and the gradient arc last; the solid arc appears exactly when the sweep passes maxAngle; in the unrotated frame the shadow cap and the gradient arc's end both sit at the true sweep angle; the gradient arc starts at 12 o'clock and never passes maxAngle |
| RingGeometry.RingOps | MKRingProgressView/MKRingProgressLayer.swift:168-270 | the reference list of operations one `contentImage` issues (defined by its body; `RingOpsLayout` states its layout, and both layers' `ContentImage` are proved equal to it) |
| RingGeometry.RampLocationsOrdered | MKRingProgressView/MKRingProgressLayer.swift:155-163 | the ramp locations [0, s, 1-s, 1] are non-decreasing exactly when 0 <= s <= 0.5, and strictly increasing exactly when 0 < s < 0.5 |
| RingGeometry.RampStop | MKRingProgressView/MKRingProgressLayer.swift:153-155 | s = 1.5·w / (2π·r2), positive whenever the width and r2 are |
| RingGeometry.RampRequest | MKRingProgressView/MKRingProgressLayer.swift:156-163 | the conical request with colours [end, end, start, start] at [0, s, 1-s, 1] and end anchor (0.5 - 2s, 1) (defined by its body; `RampWellFormed` and `RampColors` state what the generator makes of it) |
| RingGeometry.RampWellFormed | MKRingProgressView/MKRingProgressLayer.swift:151-166 | at every positive pixel size the layers' conical request is well formed and drawable, with no pixel whose lookup traps, whatever s is |
| RingGeometry.RampColors | MKRingProgressView/MKRingProgressLayer.swift:158-163 | for 0 < s < 0.5 no lookup on the ramp traps; the colour is solid end colour up to s, solid start colour from 1-s on, and in between the blend from end to start at the renormalised position |
| ProgressLayer.StyleMapping | MKRingProgressView/MKRingProgressLayer.swift:274-294 | round maps to a round cap, round join and oval shadow; square maps to a butt cap, miter join and bar shadow; the cap alone determines the style |
| ProgressLayer.LineCapOf | MKRingProgressView/MKRingProgressLayer.swift:274-283 | the line cap of a style (defined by its body; `StyleMapping` states it) |
| ProgressLayer.LineJoinOf | MKRingProgressView/MKRingProgressLayer.swift:285-294 | the line join of a style (defined by its body; `StyleMapping` states it) |
| ProgressLayer.ShadowShapeOf | MKRingProgressView/MKRingProgressLayer.swift:228-235 | the shadow cap shape of a style (defined by its body; `StyleMapping` states it) |
| ProgressLayer.RingProgressLayer.constructor | MKRingProgressView/MKRingProgressLayer.swift:34-93 | the declared defaults: red to blue, width 20, round style, opacity 1, antialiasing on, scale 1, no cache |
| ProgressLayer.RingProgressLayer.SetNeedsRedrawContents | MKRingProgressView/MKRingProgressLayer.swift:142-145 | empties the cache and requests a redisplay; nothing else changes |
| ProgressLayer.RingProgressLayer.SetStartColor | MKRingProgressView/MKRingProgressLayer.swift:34-38 | stores the colour and empties the cache; nothing else changes |
| ProgressLayer.RingProgressLayer.SetEndColor | MKRingProgressView/MKRingProgressLayer.swift:41-45 | stores the colour and empties the cache; nothing else changes |
| ProgressLayer.RingProgressLayer.SetBackgroundRingColor | MKRingProgressView/MKRingProgressLayer.swift:48-52 | stores the colour, keeps the cache and requests a redisplay |
| ProgressLayer.RingProgressLayer.SetRingWidth | MKRingProgressView/MKRingProgressLayer.swift:55-59 | stores the width and empties the cache; nothing else changes |
| ProgressLayer.RingProgressLayer.SetProgressStyle | MKRingProgressView/MKRingProgressLayer.swift:62-66 | stores the style, keeps the cache and requests a redisplay |
| ProgressLayer.RingProgressLayer.SetEndShadowOpacity | MKRingProgressView/MKRingProgressLayer.swift:69-74 | stores the assigned value clamped to [0, 1] (the value itself when in range) and keeps the cache |
| ProgressLayer.RingProgressLayer.SetAllowsAntialiasing | MKRingProgressView/MKRingProgressLayer.swift:77-81 | stores the flag, keeps the cache and requests a redisplay |
| ProgressLayer.RingProgressLayer.SetGradientImageScale | MKRingProgressView/MKRingProgressLayer.swift:85-89 | stores the scale and empties the cache; nothing else changes |
| ProgressLayer.RingProgressLayer.SetProgress | MKRingProgressView/MKRingProgressLayer.swift:93-100 | stores the progress, keeps the cache and requests a redisplay |
| ProgressLayer.RingProgressLayer.GradientImage | MKRingProgressView/MKRingProgressLayer.swift:151-166 | returns the cached image when there is one and otherwise generates and stores it; either way the result is the generator's image of the current ramp at the current scale |
| ProgressLayer.RingProgressLayer.ContentImage | MKRingProgressView/MKRingProgressLayer.swift:168-270 | the operations issued for the presented progress (0 when absent, clamped at 0) are `RingOps` of `SweepOf` with the layer's style, and a cached image is reused |
| ProgressLayer.RingProgressLayer.Display | MKRingProgressView/MKRingProgressLayer.swift:147-149 | the layer's contents become the drawn operations |
| ProgressLayer.CacheSurvivesRedisplaySetters | MKRingProgressView/MKRingProgressLayer.swift:48-81 | two `gradientImage()` calls around the backdrop, style, opacity, antialiasing and progress setters return the identical image |
| ProgressLayer.RampFollowsStartColor | MKRingProgressView/MKRingProgressLayer.swift:153-166 | after a start-colour change, the next image is generated for the new colour |
| ProgressView.MKRingProgressLayer.constructor | MKRingProgressView/MKRingProgressView.swift:127-164 | the declared defaults of the older layer, with no cache |
| ProgressView.MKRingProgressLayer.SetNeedsRedrawContents | MKRingProgressView/MKRingProgressView.swift:205-208 | empties the cache and requests a redisplay |
| ProgressView.MKRingProgressLayer.SetStartColor | MKRingProgressView/MKRingProgressView.swift:127-131 | stores the colour and empties the cache |
| ProgressView.MKRingProgressLayer.SetEndColor | MKRingProgressView/MKRingProgressView.swift:133-137 | stores the colour and empties the cache |
| ProgressView.MKRingProgressLayer.SetBackgroundRingColor | MKRingProgressView/MKRingProgressView.swift:139-143 | stores the colour and keeps the cache |
| ProgressView.MKRingProgressLayer.SetRingWidth | MKRingProgressView/MKRingProgressView.swift:145-149 | stores the width and empties the cache |
| ProgressView.MKRingProgressLayer.SetEndShadowOpacity | MKRingProgressView/MKRingProgressView.swift:151-156 | stores the value clamped to [0, 1] and keeps the cache |
| ProgressView.MKRingProgressLayer.SetAllowsAntialiasing | MKRingProgressView/MKRingProgressView.swift:158-162 | stores the flag and keeps the cache |
| ProgressView.MKRingProgressLayer.SetProgress | MKRingProgressView/MKRingProgressView.swift:164-171 | stores the progress and keeps the cache |
| ProgressView.MKRingProgressLayer.GradientImage | MKRingProgressView/MKRingProgressView.swift:216-224 | lazy and single-slot: the result is the cached image or a newly generated one, always the generator's image of the current ramp at scale 1 |
| ProgressView.MKRingProgressLayer.ContentImage | MKRingProgressView/MKRingProgressView.swift:226-315 | the operations are `RingOps` of `SweepOf` of the unclamped presented progress, with round caps and joins and an oval shadow |
| ProgressView.MKRingProgressLayer.Display | MKRingProgressView/MKRingProgressView.swift:210-212 | the layer's contents become the drawn operations |
| ProgressView.MKRingProgressView.constructor | MKRingProgressView/MKRingProgressView.swift:116-118 | the view is backed by a fresh older layer with its defaults |
| ProgressView.MKRingProgressView.SetStartColor | MKRingProgressView/MKRingProgressView.swift:34-41 | writes the layer's start colour, and the getter reads back the colour just set |
| ProgressView.MKRingProgressView.SetEndColor | MKRingProgressView/MKRingProgressView.swift:45-52 | writes the layer's end colour, and the getter reads it back |
| ProgressView.MKRingProgressView.SetBackgroundRingColor | MKRingProgressView/MKRingProgressView.swift:57-67 | writes the layer's optional backdrop colour, and the getter reads it back, absent or not |
| ProgressView.MKRingProgressView.SetRingWidth | MKRingProgressView/MKRingProgressView.swift:71-78 | writes the layer's width, and the getter reads back the width just set |
| ProgressView.MKRingProgressView.SetShadowOpacity | MKRingProgressView/MKRingProgressView.swift:83-90 | writes the layer's opacity, and the getter reads back the assigned value clamped to [0, 1] |
| ProgressView.MKRingProgressView.SetAllowsAntialiasing | MKRingProgressView/MKRingProgressView.swift:94-101 | writes the layer's flag, and the getter reads it back |
| ProgressView.MKRingProgressView.SetProgress | MKRingProgressView/MKRingProgressView.swift:107-114 | writes the layer's progress, and the getter reads back the value just set |
| ProgressView.ShadowOpacityTwice | MKRingProgressView/MKRingProgressView.swift:83-90 | assigning the read-back opacity again leaves it at the first clamp of the assigned value |
| ProgressView.CacheSurvivesRedisplaySetters | MKRingProgressView/MKRingProgressView.swift:139-162 | on the older layer, the backdrop, opacity, antialiasing and progress setters keep the cached image |

## Left out

- Drawing itself is left out: Bezier paths, stroking, clipping, the shadow
  blur, affine transforms, bitmap contexts and `CGImage` creation are platform
  calls with visual output only. The model records the operations and their
  arguments (`DrawOp`), not pixels. It does not model the clip of the shadow to
  the stroked circle, nor the cap corners of the square shadow shape.
- Trigonometry and roots are not modelled. `radialGradientStop` (sqrt) and
  `conicalGradientStop` (atan2) are the function parameters `Trig.radialStop`
  and `Trig.conicalStop`. The type `Trig` keeps the one fact the model uses
  about them: the conical stop lies in [0, 1]. It is an angle brought into
  [0, 2π) and divided by 2π. `minAngle = 1.1·atan(w / 2r)` is an input to
  `ContentImage`. The shadow offset (cos and sin of the sweep) and the pixel
  position of the arc's end are not modelled; the shadow cap is recorded by its
  angle.
- Platform colour conversions are not modelled: `RGBA(UIColor)`,
  `RGBA(CGColorRef)`, `uiColor`, `cgColor` and the component read of
  `copy(alpha:)`. Layer colours are already RGBA bytes.
- Core Animation is not modelled: `action(forKey:)`, `needsDisplay(forKey:)`,
  `presentation()`, `init(layer:)` copying the progress onto a presentation
  copy, timing functions and `CATransaction`. The presented progress is an
  `Option<real>` input to `ContentImage`.
- Floating point is not modelled: `Float` and `CGFloat` are exact reals, with
  no rounding, infinities or NaN.
- GradientGenerator.Uniform: requires count != 1, because the source divides
  by zero (Float NaN) for a single colour with default locations.
- GradientGenerator.LinearStop: requires a non-zero anchor vector, because
  coinciding anchors divide by zero in the source.
- RingGeometry.RampStop: requires a non-zero centre-line radius `r2`, because
  the source divides by it; `RampDefined()` carries this requirement into both
  layers' `GradientImage` and `ContentImage`.
- GradientGenerator.WellFormed: excludes a bilinear request that has neither
  a second colour ramp nor second locations, because the source force-unwraps
  the missing ramp there and traps.
- GradientGenerator.GradientImage: requires `Drawable`, the conditions under
  which the source finishes. The pixel width and height must be positive,
  because a negative count traps in Swift's `0..<h` and an empty bitmap context
  gives no image for the force-unwrapped `CGBitmapContextCreateImage(ctx)!`.
  No pixel's ramp lookup may trap (see `ColorAt`). The model says nothing about
  requests that trap.
- GradientGenerator.ColorAt: requires `Bracketed(t, locations)`, because
  `p0...p1` traps when p0 > p1. `BracketedExactly` states exactly which inputs
  trap. The model gives no colour for them.
- GradientGenerator.InterpolatedColor: requires `Bracketed(t, locations)`, for
  the same trap; `PixelData` and `GradientImage` pass the requirement on, per
  pixel, as `StopsBracketed` and `Drawable`.
- The `scale ?? UIScreen.main.scale` default is not modelled. Both layers pass
  an explicit scale, and the screen scale (as also in the layers' `setup()`) is
  platform state.
- Changes of layer bounds are not modelled: `bounds` is a constant of each
  layer. In the source, a change of bounds does not empty the cache.
- The ring layer's `contentImage` returns `nil` when no graphics context can be
  opened; the model always has a context.
- The current layer calls `GradientGenerator.gradientImage(type:…)`. That
  newer generator file is not part of this model. Both layers use the behaviour
  of MKGradientGenerator.swift's `gradientImageWithType`, whose arguments the
  call mirrors.
- The example applications (`Example/**`) and `Package.swift` are UI glue and
  build metadata, and are not modelled.
