/** The view transform of the map screen: scroll clamping, the scroll range a
    zoom level gives each scrollbar, the knob rectangles, the conversion of a
    drag in screen pixels into scrollbar pixels, the discrete magnification
    table and the cycle of name-display modes.

    Java computes the zoom factor and the scroll factors in `float`; here they
    are exact `real`s and Java's `(int)` cast is TruncToInt. */
module ViewTransform {
  import opened Geometry
  import opened Gfx

  // ---------------------------------------------------------------------
  // Integer conversions

  /** Java's `(int)` cast of a floating value, on exact reals: truncation
      toward zero. */
  function TruncToInt(r: real): (n: int)
    ensures r >= 0.0 ==> n as real <= r < n as real + 1.0
    ensures r < 0.0 ==> n as real - 1.0 < r <= n as real
  {
    if r >= 0.0 then r.Floor else -((-r).Floor)
  }

  /** Java's `%` on ints: the remainder takes the sign of the dividend. */
  function JavaRem(a: int, b: int): (r: int)
    requires b > 0
    ensures a >= 0 ==> 0 <= r < b
    ensures a < 0 ==> -b < r <= 0
    ensures r == a % b || r == a % b - b
  {
    if a >= 0 then a % b
    else
      var m := -a;
      if m % b == 0 then
        RemOfMultiple(a, b, -(m / b), 0);
        -(m % b)
      else
        RemOfMultiple(a, b, -(m / b) - 1, b - m % b);
        -(m % b)
  }

  /** Euclidean remainders are unique: a value `t` in [0, b) that differs from
      `a` by a multiple of `b` is `a % b`. */
  lemma RemOfMultiple(a: int, b: int, k: int, t: int)
    requires b > 0 && 0 <= t < b && a == k * b + t
    ensures a % b == t
  {
    var q, s := a / b, a % b;
    assert a == q * b + s;
    var d := k - q;
    assert d * b == k * b - q * b;
    assert d * b == s - t;
    if d > 0 {
      MulAtLeast(d, b);
    } else if d < 0 {
      MulAtLeast(-d, b);
    }
  }

  /** A positive multiple of a positive `b` is at least `b`. */
  lemma {:induction false} MulAtLeast(d: int, b: int)
    requires d >= 1 && b > 0
    ensures d * b >= b
  {
    if d > 1 {
      MulAtLeast(d - 1, b);
      assert d * b == (d - 1) * b + b;
    }
  }

  // ---------------------------------------------------------------------
  // Scrolling

  /** The clamp of scroll(): Math.max(Math.min(value, max), 0). The minimum is
      applied first, so a negative maximum yields 0. */
  function Clamp(value: int, max: int): (r: int)
    ensures 0 <= r
    ensures max >= 0 ==> r <= max
    ensures max < 0 ==> r == 0
    ensures 0 <= value <= max ==> r == value
    ensures 0 <= max < value ==> r == max
    ensures value < 0 ==> r == 0
  {
    Max(Min(value, max), 0)
  }

  /** Scrolling to the position scroll() just produced changes nothing, so a
      second identical scroll() is a no-op. */
  lemma ClampIdempotent(value: int, max: int)
    ensures Clamp(Clamp(value, max), max) == Clamp(value, max)
  {
  }

  // ---------------------------------------------------------------------
  // Zoom

  /** `(int)(fullSize * zoom)`: the extent of the zoomed map on screen. A zoom
      no larger than 1 never enlarges the map. */
  function ZoomedSize(fullSize: int, zoom: real): (r: int)
    ensures 0 <= fullSize && 0.0 <= zoom <= 1.0 ==> 0 <= r <= fullSize
  {
    var exact := fullSize as real * zoom;
    assert 0 <= fullSize && 0.0 <= zoom <= 1.0 ==> 0.0 <= exact <= fullSize as real by {
      if 0 <= fullSize && 0.0 <= zoom <= 1.0 {
        MulBounded(fullSize as real, zoom);
      }
    }
    TruncToInt(exact)
  }

  lemma MulBounded(a: real, z: real)
    requires 0.0 <= a && 0.0 <= z <= 1.0
    ensures 0.0 <= a * z <= a
  {
    assert a * z <= a * 1.0;
  }

  /** At a table zoom `factor / 30` the zoomed size is the integer quotient
      `fullSize * factor / 30` (on exact reals; Java's float may differ at a
      rounding edge). */
  lemma ZoomedSizeAtTableFactor(fullSize: int, factor: int)
    requires fullSize >= 0 && factor >= 0
    ensures ZoomedSize(fullSize, factor as real / 30.0) == fullSize * factor / 30
  {
    var p := fullSize * factor;
    var q, r := p / 30, p % 30;
    assert p == 30 * q + r;
    assert fullSize as real * (factor as real / 30.0) == p as real / 30.0;
    assert p as real / 30.0 == q as real + r as real / 30.0;
    assert 0.0 <= r as real / 30.0 < 1.0;
  }

  /** What zoom() leaves on one scrollbar: the largest scroll value and the
      number of screen pixels of map per pixel of scrollbar travel. */
  datatype ScrollRange = ScrollRange(max: int, factor: real)

  /** The scrollbar policy of zoom() for one axis. `excess` is how far the
      zoomed map overhangs the viewport, `travel` how far a minimal knob can
      move in the track. While the excess fits in the travel the scrollbar
      maps pixel for pixel and the knob grows; otherwise the knob keeps its
      minimum size and one scrollbar pixel stands for several map pixels. */
  function AxisRange(zoomedSize: int, viewport: int, track: int, minKnob: int): (r: ScrollRange)
    ensures var excess := Max(zoomedSize - viewport, 0); var travel := track - minKnob;
      && r.max <= travel && r.max <= excess
      && (excess < travel ==> r.max == excess && r.factor == 1.0)
      && (excess >= travel ==> r.max == travel)
  {
    var excess := Max(zoomedSize - viewport, 0);
    var travel := track - minKnob;
    if excess < travel then ScrollRange(Max(excess, 0), 1.0)
    // Java divides by zero here (Infinity or NaN); the range is then 0 and
    // every scroll value clamps to 0, so the factor is never observed.
    else if travel == 0 then ScrollRange(travel, 1.0)
    else ScrollRange(travel, excess as real / travel as real)
  }

  /** Whenever the track leaves room to move, a scrollbar at its maximum shows
      the far edge of the zoomed map: max * factor is exactly the excess. */
  lemma AxisRangeReachesMapEdge(zoomedSize: int, viewport: int, track: int, minKnob: int)
    requires track - minKnob > 0
    ensures var r := AxisRange(zoomedSize, viewport, track, minKnob);
      && 0 <= r.max
      && r.factor >= 1.0
      && r.max as real * r.factor == Max(zoomedSize - viewport, 0) as real
  {
    var excess := Max(zoomedSize - viewport, 0);
    var travel := track - minKnob;
    if excess >= travel {
      QuotientAtLeastOne(excess as real, travel as real);
    }
  }

  lemma QuotientAtLeastOne(a: real, b: real)
    requires 0.0 < b <= a
    ensures b * (a / b) == a && a / b >= 1.0
  {
    var f := a / b;
    assert b * f == a;
    assert b * (f - 1.0) == a - b;
  }

  // ---------------------------------------------------------------------
  // Scrollbar knobs

  /** updateScrollKnobs(), horizontal: the knob starts `value` pixels into the
      track and covers what the scroll range leaves of it, but never less
      than its two end caps. */
  function HorizontalKnob(track: Rect, value: int, max: int, g: ImageSizes): (k: Rect)
    ensures k.x - track.x == value && k.y == track.y
    ensures k.width == Max(g.HorizontalMinKnob(), track.width - max)
    ensures k.height == g.hscrollLeftHeight
  {
    Rect(track.x + value, track.y, Max(g.HorizontalMinKnob(), track.width - max), g.hscrollLeftHeight)
  }

  /** updateScrollKnobs(), vertical. The floor on the knob's height is the top
      cap plus the horizontal knob's right cap, not the two vertical caps that
      zoom() reserves. */
  function VerticalKnob(track: Rect, value: int, max: int, g: ImageSizes): (k: Rect)
    ensures k.y - track.y == value && k.x == track.x
    ensures k.height == Max(g.VerticalKnobFloor(), track.height - max)
    ensures k.width == g.vscrollTopWidth
  {
    Rect(track.x, track.y + value, g.vscrollTopWidth, Max(g.VerticalKnobFloor(), track.height - max))
  }

  /** With a scroll range zoom() can produce for the track and a clamped
      value, the horizontal knob lies inside its track, and at the maximum it
      touches the track's far end. */
  lemma HorizontalKnobWithinTrack(track: Rect, zoomedSize: int, viewport: int, value: int, g: ImageSizes)
    requires track.width >= g.HorizontalMinKnob()
    ensures var r := AxisRange(zoomedSize, viewport, track.width, g.HorizontalMinKnob());
      var k := HorizontalKnob(track, Clamp(value, r.max), r.max, g);
      && track.x <= k.x && k.x + k.width <= track.x + track.width
      && (Clamp(value, r.max) == r.max ==> k.x + k.width == track.x + track.width)
  {
  }

  /** The vertical knob stays inside its track only as long as the horizontal
      right cap is no taller than the vertical bottom cap. */
  lemma VerticalKnobWithinTrack(track: Rect, zoomedSize: int, viewport: int, value: int, g: ImageSizes)
    requires track.height >= g.VerticalMinKnob()
    requires g.hscrollRightHeight <= g.vscrollBottomHeight
    ensures var r := AxisRange(zoomedSize, viewport, track.height, g.VerticalMinKnob());
      var k := VerticalKnob(track, Clamp(value, r.max), r.max, g);
      track.y <= k.y && k.y + k.height <= track.y + track.height
  {
  }

  /** The other case: when the map overhangs the track and the horizontal
      right cap is the taller one, the knob scrolled to the bottom reaches
      past the track by the difference of the two cap heights. */
  lemma VerticalKnobOverrunsTrack(track: Rect, zoomedSize: int, viewport: int, g: ImageSizes)
    requires track.height >= g.VerticalMinKnob()
    requires zoomedSize - viewport >= track.height - g.VerticalMinKnob()
    requires g.hscrollRightHeight > g.vscrollBottomHeight
    ensures var r := AxisRange(zoomedSize, viewport, track.height, g.VerticalMinKnob());
      var k := VerticalKnob(track, r.max, r.max, g);
      k.y + k.height == track.y + track.height + (g.hscrollRightHeight - g.vscrollBottomHeight)
  {
  }

  // ---------------------------------------------------------------------
  // Dragging the map

  /** scrollByPixelRel(): the scrollbar value asked for when the map is moved
      by `delta` screen pixels, `(int)(value + delta / zoom / factor)`. A factor
      is 0 before the first zoom (range 0) and after a zoom that leaves a
      negative range; there Java's division yields Infinity or NaN, and scroll()
      clamps whatever it yields to 0, as it clamps the value passed on here. */
  function ScrollTarget(value: int, delta: int, zoom: real, factor: real): (t: int)
    requires zoom > 0.0
    ensures factor == 1.0 && zoom == 1.0 ==> t == value + delta
    ensures delta == 0 ==> t == value
    ensures factor != 0.0 ==>
      var exact := value as real + delta as real / zoom / factor;
      (exact >= 0.0 ==> t as real <= exact < t as real + 1.0) &&
      (exact < 0.0 ==> t as real - 1.0 < exact <= t as real)
  {
    if factor == 0.0 then value
    else TruncToInt(value as real + delta as real / zoom / factor)
  }

  /** paint() draws the map `value * factor` screen pixels left of (or above)
      the viewport: it translates by `-(value * factor / zoom)` map pixels and
      then scales by `zoom`. */
  function ScreenOffset(value: real, factor: real): real
  {
    value * factor
  }

  /** Before truncation, the scroll value scrollByPixelRel() asks for moves the
      drawn map by `delta / zoom` screen pixels: exactly `delta` at zoom 1,
      more than `delta` at every smaller zoom. */
  lemma DragMovesMapByDeltaOverZoom(value: real, delta: real, zoom: real, factor: real)
    requires zoom > 0.0 && factor != 0.0
    ensures ScreenOffset(value + delta / zoom / factor, factor) - ScreenOffset(value, factor) == delta / zoom
  {
    calc {
      ScreenOffset(value + delta / zoom / factor, factor) - ScreenOffset(value, factor);
      (value + delta / zoom / factor) * factor - value * factor;
      (delta / zoom / factor) * factor;
      { assert (delta / zoom / factor) * factor == delta / zoom; }
      delta / zoom;
    }
  }

  // ---------------------------------------------------------------------
  // Discrete magnification

  /** The magnification table; the zoom of entry i is MagnifyFactors[i] / 30. */
  const MagnifyFactors: seq<int> := [15, 17, 20, 24, 30]

  /** The divisor of the table entries. */
  const MagnifyDenominator: int := 30

  /** The index of the widest zoom, where the screen starts. */
  const TopMagnifyIndex: int := |MagnifyFactors| - 1

  /** The zoom factor of a table entry. */
  function MagnifyZoom(index: int): (z: real)
    requires 0 <= index < |MagnifyFactors|
    ensures 0.0 < z <= 1.0
    ensures index == TopMagnifyIndex ==> z == 1.0
  {
    MagnifyFactors[index] as real / MagnifyDenominator as real
  }

  /** One step of doMagnify(): inward when `zoomIn`, outward otherwise, and no
      move at either end of the table. A step that moves magnifies exactly when
      it goes inward. */
  function StepMagnify(index: int, zoomIn: bool): (r: int)
    ensures 0 <= index < |MagnifyFactors| ==> 0 <= r < |MagnifyFactors|
    ensures 0 <= index < |MagnifyFactors| && r != index ==>
      (zoomIn <==> MagnifyZoom(r) > MagnifyZoom(index))
    ensures r == index || r == index + 1 || r == index - 1
    ensures zoomIn && 0 <= index < TopMagnifyIndex ==> r == index + 1
    ensures !zoomIn && 0 < index < |MagnifyFactors| ==> r == index - 1
  {
    if zoomIn && index < |MagnifyFactors| - 1 then index + 1
    else if !zoomIn && index > 0 then index - 1
    else index
  }

  /** At the ends of the table a step towards the end changes nothing. */
  lemma StepMagnifyAtBounds()
    ensures StepMagnify(TopMagnifyIndex, true) == TopMagnifyIndex
    ensures StepMagnify(0, false) == 0
  {
  }

  /** A step in followed by a step out, from below the top, restores the index;
      likewise a step out then in from above the bottom. */
  lemma StepMagnifyRoundTrip(index: int)
    requires 0 <= index < |MagnifyFactors|
    ensures index < TopMagnifyIndex ==> StepMagnify(StepMagnify(index, true), false) == index
    ensures index > 0 ==> StepMagnify(StepMagnify(index, false), true) == index
  {
  }

  /** The Ctrl-wheel branch of mouseWheelMoved(): a negative rotation steps
      inward, a positive one outward, and no rotation does nothing. */
  function WheelStep(index: int, rotation: int): (r: int)
    ensures rotation == 0 ==> r == index
    ensures rotation != 0 ==> r == StepMagnify(index, rotation < 0)
  {
    if rotation < 0 && index < |MagnifyFactors| - 1 then index + 1
    else if rotation > 0 && index > 0 then index - 1
    else index
  }

  // ---------------------------------------------------------------------
  // Name display modes

  /** The name modes None, Colony, Fleets and Both. */
  const NameModeCount: int := 4

  /** doNameChange(): `(nameMode + 1) % 4` with Java's remainder. */
  function NextNameMode(mode: int): (r: int)
    ensures 0 <= mode < NameModeCount ==> 0 <= r < NameModeCount
    ensures 0 <= mode < NameModeCount - 1 ==> r == mode + 1
    ensures mode == NameModeCount - 1 ==> r == 0
  {
    JavaRem(mode + 1, NameModeCount)
  }

  /** Four name changes in a row bring the mode back to where it was. */
  lemma NameModeCycle(mode: int)
    requires 0 <= mode < NameModeCount
    ensures NextNameMode(NextNameMode(NextNameMode(NextNameMode(mode)))) == mode
  {
  }
}
