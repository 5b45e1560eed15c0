/**
 * The viewport logic of `org.progx.math.equation.EquationDisplay`: the
 * argument checks of its constructor, the list of equations it draws, the
 * maps between plot positions and pixels, and the pan and zoom handlers.
 * Doubles are taken as reals; the component's width and height, which Swing
 * supplies, are parameters.
 */
module MathEquation {
  import opened Wrappers

  /** An equation object, identified by its reference. */
  datatype Equation = Equation(id: nat)

  /** The private `DrawableEquation` wrapper: an equation and the colour it is drawn in. */
  datatype Drawable = Drawable(equation: Equation, color: int)

  /** A mouse position in pixels. */
  datatype Point = Point(x: int, y: int)

  /** The ten constructor arguments, which are also the display's viewport fields. */
  datatype Viewport = Viewport(originX: real, originY: real, minX: real, maxX: real, minY: real, maxY: real,
                               majorX: real, minorX: int, majorY: real, minorY: int)

  /** The wheel step: the float `1.1f` widened to a double. */
  const ZoomCoefficient: real := 1.100000023841858

  const MinXMessage := "minX must be < to maxX"
  const OriginXMessage := "originX must be between minX and maxX"
  const MinYMessage := "minY must be < to maxY"
  const OriginYMessage := "originY must be between minY and maxY"
  const MinorXMessage := "minorX must be > 0"
  const MinorYMessage := "minorY must be > 0"
  const MajorXMessage := "majorX must be > 0.0"
  const MajorYMessage := "majorY must be > 0.0"

  // ---------------------------------------------------------------------
  // Constructor arguments

  /** The arguments the constructor accepts. */
  predicate WellFormed(v: Viewport) {
    && v.minX < v.maxX && v.minX <= v.originX <= v.maxX
    && v.minY < v.maxY && v.minY <= v.originY <= v.maxY
    && v.minorX > 0 && v.minorY > 0 && v.majorX > 0.0 && v.majorY > 0.0
  }

  /** Both ranges are non-empty, so every map below is defined; panning and zooming keep this. */
  predicate Spans(v: Viewport) {
    v.minX < v.maxX && v.minY < v.maxY
  }

  /**
   * The constructor's checks in source order: `None` when the arguments are
   * accepted, otherwise the message of the first check that fails.
   */
  function Check(v: Viewport): (r: Option<string>)
    ensures r.None? <==> WellFormed(v)
    ensures v.minX >= v.maxX ==> r == Some(MinXMessage)
    ensures v.minX < v.maxX && !(v.minX <= v.originX <= v.maxX) ==> r == Some(OriginXMessage)
    ensures r.Some? && v.minX < v.maxX && v.minX <= v.originX <= v.maxX && v.minY < v.maxY && v.minY <= v.originY <= v.maxY
            ==> r.value in {MinorXMessage, MinorYMessage, MajorXMessage, MajorYMessage}
  {
    if v.minX >= v.maxX then Some(MinXMessage)
    else if v.originX < v.minX then Some(OriginXMessage)
    else if v.originX > v.maxX then Some(OriginXMessage)
    else if v.minY >= v.maxY then Some(MinYMessage)
    else if v.originY < v.minY then Some(OriginYMessage)
    else if v.originY > v.maxY then Some(OriginYMessage)
    else if v.minorX <= 0 then Some(MinorXMessage)
    else if v.minorY <= 0 then Some(MinorYMessage)
    else if v.majorX <= 0.0 then Some(MajorXMessage)
    else if v.majorY <= 0.0 then Some(MajorYMessage)
    else None
  }

  /** An accepted viewport has non-empty ranges. */
  lemma WellFormedSpans(v: Viewport)
    requires Check(v).None?
    ensures Spans(v) && v.minX <= v.originX <= v.maxX && v.minY <= v.originY <= v.maxY
  {
  }

  // ---------------------------------------------------------------------
  // Positions and pixels

  /** `xPositionToPixel`: position `minX` is pixel 0 and `maxX` is pixel `width`. */
  function XPositionToPixel(v: Viewport, position: real, width: real): real
    requires Spans(v)
  {
    (position - v.minX) * width / (v.maxX - v.minX)
  }

  /** `yPositionToPixel`: screen rows grow downwards, so `minY` is the bottom row. */
  function YPositionToPixel(v: Viewport, position: real, height: real): real
    requires Spans(v)
  {
    height - (position - v.minY) * height / (v.maxY - v.minY)
  }

  /** `xPixelToPosition`: measured from the pixel of the origin, not from `minX`. */
  function XPixelToPosition(v: Viewport, pixel: real, width: real): real
    requires Spans(v) && width != 0.0
  {
    (pixel - XPositionToPixel(v, v.originX, width)) * (v.maxX - v.minX) / width
  }

  /** `yPixelToPosition`. */
  function YPixelToPosition(v: Viewport, pixel: real, height: real): real
    requires Spans(v) && height != 0.0
  {
    (height - pixel - YPositionToPixel(v, v.originY, height)) * (v.maxY - v.minY) / height
  }

  /** A scaled offset lies within `[0, w]` exactly when the offset lies within `[0, s]`. */
  lemma InRangeScaled(d: real, w: real, s: real)
    requires s > 0.0
    ensures w > 0.0 ==> (0.0 <= d * w / s <= w <==> 0.0 <= d <= s)
  {
    if w > 0.0 {
      var t := d * w / s;
      assert t * s == d * w;
      assert (s - d) * w == (w - t) * s;
      if d < 0.0 {
        assert d * w < 0.0;
      } else {
        assert d * w >= 0.0;
        NonNegative(d * w, s);
      }
      if s - d < 0.0 {
        assert (s - d) * w < 0.0;
      } else {
        assert (s - d) * w >= 0.0;
        assert w - t == (s - d) * w / s;
        NonNegative((s - d) * w, s);
      }
    }
  }

  /** Scaling by a positive ratio keeps the sign. */
  lemma NegativeScaled(x: real, s: real, w: real)
    requires s > 0.0
    ensures w > 0.0 ==> (x * s / w < 0.0 <==> x < 0.0)
  {
    if w > 0.0 {
      var t := x * s / w;
      assert t * w == x * s;
      if x < 0.0 {
        assert x * s < 0.0;
      } else if t < 0.0 {
        assert t * w < 0.0;
      }
    }
  }

  /** A position is drawn within the component's width exactly when it lies within `[minX, maxX]`. */
  lemma XPositionOnPanel(v: Viewport, position: real, width: real)
    requires Spans(v) && width > 0.0
    ensures 0.0 <= XPositionToPixel(v, position, width) <= width <==> v.minX <= position <= v.maxX
  {
    InRangeScaled(position - v.minX, width, v.maxX - v.minX);
  }

  /** A position is drawn within the component's height exactly when it lies within `[minY, maxY]`. */
  lemma YPositionOnPanel(v: Viewport, position: real, height: real)
    requires Spans(v) && height > 0.0
    ensures 0.0 <= YPositionToPixel(v, position, height) <= height <==> v.minY <= position <= v.maxY
  {
    InRangeScaled(position - v.minY, height, v.maxY - v.minY);
  }

  /** Pixels left of the vertical axis map to negative positions, and only those. */
  lemma XPixelSign(v: Viewport, pixel: real, width: real)
    requires Spans(v) && width > 0.0
    ensures XPixelToPosition(v, pixel, width) < 0.0 <==> pixel < XPositionToPixel(v, v.originX, width)
  {
    NegativeScaled(pixel - XPositionToPixel(v, v.originX, width), v.maxX - v.minX, width);
  }

  /** A real identity used by the map lemmas: `a * w / s * s / w == a`. */
  lemma ScaleBack(a: real, w: real, s: real)
    requires w != 0.0 && s != 0.0
    ensures a * w / s * s / w == a
  {
    var b := a * w / s;
    assert b * s == a * w;
    assert b * s / w == a;
  }

  /** A non-negative quotient of a non-negative by a positive. */
  lemma NonNegative(a: real, s: real)
    requires a >= 0.0 && s > 0.0
    ensures a / s >= 0.0
  {
    var t := a / s;
    assert t * s == a;
  }

  /** A positive quotient of positives. */
  lemma Positive(a: real, s: real)
    requires a > 0.0 && s > 0.0
    ensures a / s > 0.0
  {
    var t := a / s;
    assert t * s == a;
  }

  /** The horizontal map sends the ends of the range to the edges of the component, in order. */
  lemma XPositionToPixelEnds(v: Viewport, width: real, p: real, q: real)
    requires Spans(v) && width > 0.0
    ensures XPositionToPixel(v, v.minX, width) == 0.0
    ensures XPositionToPixel(v, v.maxX, width) == width
    ensures p < q ==> XPositionToPixel(v, p, width) < XPositionToPixel(v, q, width)
  {
    var s := v.maxX - v.minX;
    assert (v.maxX - v.minX) * width / s == width;
    if p < q {
      assert (q - v.minX) * width - (p - v.minX) * width == (q - p) * width;
      assert (q - v.minX) * width / s - (p - v.minX) * width / s == (q - p) * width / s;
      Positive((q - p) * width, s);
    }
  }

  /** The vertical map sends `minY` to the bottom edge and `maxY` to the top, reversing order. */
  lemma YPositionToPixelEnds(v: Viewport, height: real, p: real, q: real)
    requires Spans(v) && height > 0.0
    ensures YPositionToPixel(v, v.minY, height) == height
    ensures YPositionToPixel(v, v.maxY, height) == 0.0
    ensures p < q ==> YPositionToPixel(v, p, height) > YPositionToPixel(v, q, height)
  {
    var s := v.maxY - v.minY;
    assert (v.maxY - v.minY) * height / s == height;
    if p < q {
      assert (q - v.minY) * height - (p - v.minY) * height == (q - p) * height;
      assert (q - v.minY) * height / s - (p - v.minY) * height / s == (q - p) * height / s;
      Positive((q - p) * height, s);
    }
  }

  /**
   * Mapping a position to a pixel and back yields the position relative to
   * the origin: `p - originX`, not `p`.
   */
  lemma XPixelRoundTrip(v: Viewport, p: real, width: real)
    requires Spans(v) && width != 0.0
    ensures XPixelToPosition(v, XPositionToPixel(v, p, width), width) == p - v.originX
  {
    var s := v.maxX - v.minX;
    assert XPositionToPixel(v, p, width) - XPositionToPixel(v, v.originX, width) == (p - v.originX) * width / s;
    ScaleBack(p - v.originX, width, s);
  }

  /**
   * The vertical round trip is offset by `originY - minY - maxY`, so it gives
   * `p` back only when `originY == minY + maxY`, and unlike the horizontal one
   * it is not the position relative to the origin.
   */
  lemma YPixelRoundTrip(v: Viewport, p: real, height: real)
    requires Spans(v) && height != 0.0
    ensures YPixelToPosition(v, YPositionToPixel(v, p, height), height) == p + v.originY - v.minY - v.maxY
  {
    var s := v.maxY - v.minY;
    var py := YPositionToPixel(v, p, height);
    var axis := YPositionToPixel(v, v.originY, height);
    assert height - py - axis == (p + v.originY - v.minY - v.maxY) * height / s by {
      assert (p - v.minY) * height / s + (v.originY - v.minY) * height / s - height
          == (p - v.minY + v.originY - v.minY - s) * height / s;
    }
    ScaleBack(p + v.originY - v.minY - v.maxY, height, s);
  }

  // ---------------------------------------------------------------------
  // Pan and zoom

  /** The viewport after a drag from `start` to `end`: both ranges shift by the positions the pointer crossed. */
  function Panned(v: Viewport, start: Point, end: Point, width: real, height: real): (r: Viewport)
    requires Spans(v) && width != 0.0 && height != 0.0
    ensures Spans(r)
    ensures r.maxX - r.minX == v.maxX - v.minX && r.maxY - r.minY == v.maxY - v.minY
    ensures r.originX == v.originX && r.originY == v.originY
  {
    var dx := XPixelToPosition(v, end.x as real, width) - XPixelToPosition(v, start.x as real, width);
    var v1 := v.(minX := v.minX - dx, maxX := v.maxX - dx);
    var dy := YPixelToPosition(v1, end.y as real, height) - YPixelToPosition(v1, start.y as real, height);
    v1.(minY := v1.minY - dy, maxY := v1.maxY - dy)
  }

  /** `(a - b) * s / w` for the distance two pixels are apart. */
  lemma XDistance(v: Viewport, a: real, b: real, width: real)
    requires Spans(v) && width != 0.0
    ensures XPixelToPosition(v, a, width) - XPixelToPosition(v, b, width) == (a - b) * (v.maxX - v.minX) / width
  {
    var axis := XPositionToPixel(v, v.originX, width);
    var s := v.maxX - v.minX;
    assert (a - axis) * s - (b - axis) * s == (a - b) * s;
  }

  lemma YDistance(v: Viewport, a: real, b: real, height: real)
    requires Spans(v) && height != 0.0
    ensures YPixelToPosition(v, a, height) - YPixelToPosition(v, b, height) == (b - a) * (v.maxY - v.minY) / height
  {
    var axis := YPositionToPixel(v, v.originY, height);
    var s := v.maxY - v.minY;
    assert (height - a - axis) * s - (height - b - axis) * s == (b - a) * s;
  }

  /** Where a drag puts the low ends of the ranges. */
  lemma PannedLowEnds(v: Viewport, start: Point, end: Point, width: real, height: real)
    requires Spans(v) && width != 0.0 && height != 0.0
    ensures var r := Panned(v, start, end, width, height);
            r.minX == v.minX - (end.x - start.x) as real * (v.maxX - v.minX) / width &&
            r.minY == v.minY - (start.y - end.y) as real * (v.maxY - v.minY) / height
  {
    var r := Panned(v, start, end, width, height);
    XDistance(v, end.x as real, start.x as real, width);
    YDistance(v.(minX := r.minX, maxX := r.maxX), end.y as real, start.y as real, height);
  }

  /**
   * Dragging moves the plot with the pointer: after the drag every position
   * is drawn exactly `end - start` pixels away from where it was drawn before.
   */
  lemma PanFollowsPointer(v: Viewport, start: Point, end: Point, width: real, height: real, p: real)
    requires Spans(v) && width != 0.0 && height != 0.0
    ensures var r := Panned(v, start, end, width, height);
            XPositionToPixel(r, p, width) == XPositionToPixel(v, p, width) + (end.x - start.x) as real
    ensures var r := Panned(v, start, end, width, height);
            YPositionToPixel(r, p, height) == YPositionToPixel(v, p, height) + (end.y - start.y) as real
  {
    var r := Panned(v, start, end, width, height);
    var dx, dy := (end.x - start.x) as real, (start.y - end.y) as real;
    PannedLowEnds(v, start, end, width, height);
    PanMovesColumns(v, r, width, p, dx);
    PanMovesRows(v, r, height, p, dy);
    assert (end.y - start.y) as real == -dy;
  }

  /** A range shifted by `d * span / width` positions draws everything `d` pixels further right. */
  lemma PanMovesColumns(v: Viewport, r: Viewport, width: real, p: real, d: real)
    requires Spans(v) && Spans(r) && width != 0.0
    requires r.maxX - r.minX == v.maxX - v.minX
    requires r.minX == v.minX - d * (v.maxX - v.minX) / width
    ensures XPositionToPixel(r, p, width) == XPositionToPixel(v, p, width) + d
  {
    ShiftedMap(v.minX, v.maxX - v.minX, width, p, d);
  }

  /** A range shifted by `d * span / height` positions draws everything `d` pixels higher. */
  lemma PanMovesRows(v: Viewport, r: Viewport, height: real, p: real, d: real)
    requires Spans(v) && Spans(r) && height != 0.0
    requires r.maxY - r.minY == v.maxY - v.minY
    requires r.minY == v.minY - d * (v.maxY - v.minY) / height
    ensures YPositionToPixel(r, p, height) == YPositionToPixel(v, p, height) - d
  {
    ShiftedMap(v.minY, v.maxY - v.minY, height, p, d);
  }

  /** Moving the low end of a range by `d * s / w` positions moves every pixel by `d`. */
  lemma ShiftedMap(m: real, s: real, w: real, p: real, d: real)
    requires s != 0.0 && w != 0.0
    ensures (p - (m - d * s / w)) * w / s == (p - m) * w / s + d
  {
    var e := d * s / w;
    assert e * w == d * s;
    assert (p - m + e) * w == (p - m) * w + d * s;
    assert ((p - m) * w + d * s) / s == (p - m) * w / s + d;
  }

  /** The viewport after one wheel notch: both ranges shrink by the coefficient for a negative rotation, grow otherwise, about their centres. */
  function Zoomed(v: Viewport, rotation: int): (r: Viewport)
    requires Spans(v)
    ensures Spans(r)
    ensures r.originX == v.originX && r.originY == v.originY
  {
    var distanceX := v.maxX - v.minX;
    var distanceY := v.maxY - v.minY;
    var cursorX := v.minX + distanceX / 2.0;
    var cursorY := v.minY + distanceY / 2.0;
    var dX := if rotation < 0 then distanceX / ZoomCoefficient else distanceX * ZoomCoefficient;
    var dY := if rotation < 0 then distanceY / ZoomCoefficient else distanceY * ZoomCoefficient;
    v.(minX := cursorX - dX / 2.0, maxX := cursorX + dX / 2.0, minY := cursorY - dY / 2.0, maxY := cursorY + dY / 2.0)
  }

  /** A wheel notch keeps the centre of the view and scales both spans by the coefficient. */
  lemma ZoomKeepsCentre(v: Viewport, rotation: int)
    requires Spans(v)
    ensures var r := Zoomed(v, rotation);
            r.minX + r.maxX == v.minX + v.maxX && r.minY + r.maxY == v.minY + v.maxY
    ensures var r := Zoomed(v, rotation);
            rotation < 0 ==> (r.maxX - r.minX) * ZoomCoefficient == v.maxX - v.minX &&
                             (r.maxY - r.minY) * ZoomCoefficient == v.maxY - v.minY
    ensures var r := Zoomed(v, rotation);
            rotation >= 0 ==> r.maxX - r.minX == (v.maxX - v.minX) * ZoomCoefficient &&
                              r.maxY - r.minY == (v.maxY - v.minY) * ZoomCoefficient
  {
  }

  /** Zooming in one notch and out one notch restores the viewport, over the reals. */
  lemma {:induction false} ZoomInThenOut(v: Viewport)
    requires Spans(v)
    ensures Zoomed(Zoomed(v, -1), 1) == v
  {
    var r := Zoomed(v, -1);
    ZoomKeepsCentre(v, -1);
    var w := Zoomed(r, 1);
    ZoomKeepsCentre(r, 1);
    assert w.maxX - w.minX == v.maxX - v.minX && w.minX + w.maxX == v.minX + v.maxX;
    assert w.maxY - w.minY == v.maxY - v.minY && w.minY + w.maxY == v.minY + v.maxY;
  }

  // ---------------------------------------------------------------------
  // The equation list

  /** The equations of a list of wrappers, in order. */
  function EquationsOf(ds: seq<Drawable>): (es: seq<Equation>)
    ensures |es| == |ds| && forall i :: 0 <= i < |ds| ==> es[i] == ds[i].equation
  {
    seq(|ds|, i requires 0 <= i < |ds| => ds[i].equation)
  }

  predicate Distinct(es: seq<Equation>) {
    forall i, j :: 0 <= i < j < |es| ==> es[i] != es[j]
  }

  /** The position of the first wrapper holding `e`, or `|ds|` when there is none. */
  function IndexOf(ds: seq<Drawable>, e: Equation): (i: nat)
    ensures i <= |ds|
    ensures i < |ds| ==> ds[i].equation == e
    ensures forall j :: 0 <= j < i ==> ds[j].equation != e
    ensures i == |ds| <==> e !in EquationsOf(ds)
  {
    if |ds| == 0 then 0
    else if ds[0].equation == e then 0
    else 1 + IndexOf(ds[1..], e)
  }

  /**
   * `addEquation` as written: its duplicate guard asks a list of wrappers
   * whether it contains the bare equation, which no wrapper equals, so every
   * non-null equation is appended.
   */
  function AddedAsWritten(ds: seq<Drawable>, e: Option<Equation>, color: int): seq<Drawable> {
    if e.None? then ds else ds + [Drawable(e.value, color)]
  }

  /** `addEquation` as its guard intends: a null or already-listed equation leaves the list alone. */
  function Added(ds: seq<Drawable>, e: Option<Equation>, color: int): (r: seq<Drawable>)
    ensures e.None? || e.value in EquationsOf(ds) ==> r == ds
    ensures e.Some? && e.value !in EquationsOf(ds) ==> r == ds + [Drawable(e.value, color)]
  {
    if e.None? || IndexOf(ds, e.value) < |ds| then ds else ds + [Drawable(e.value, color)]
  }

  /** `removeEquation`: drops the first wrapper holding the equation, keeping the rest in order. */
  function Removed(ds: seq<Drawable>, e: Option<Equation>): (r: seq<Drawable>)
    ensures e.None? || e.value !in EquationsOf(ds) ==> r == ds
    ensures e.Some? && e.value in EquationsOf(ds) ==>
              var i := IndexOf(ds, e.value);
              |r| == |ds| - 1 && r == ds[..i] + ds[i + 1..] && multiset(r) == multiset(ds) - multiset{ds[i]}
  {
    if e.None? then ds
    else
      var i := IndexOf(ds, e.value);
      if i == |ds| then ds
      else
        assert ds == ds[..i] + [ds[i]] + ds[i + 1..];
        ds[..i] + ds[i + 1..]
  }

  /** The intended add keeps every equation listed at most once and lists the added one. */
  lemma AddedKeepsDistinct(ds: seq<Drawable>, e: Option<Equation>, color: int)
    requires Distinct(EquationsOf(ds))
    ensures Distinct(EquationsOf(Added(ds, e, color)))
    ensures e.Some? ==> e.value in EquationsOf(Added(ds, e, color))
  {
    var r := Added(ds, e, color);
    if e.Some? && e.value !in EquationsOf(ds) {
      assert EquationsOf(r)[|ds|] == e.value;
    }
  }

  /** Removing a listed equation from a duplicate-free list removes it from the display. */
  lemma RemovedDropsEquation(ds: seq<Drawable>, e: Equation)
    requires Distinct(EquationsOf(ds))
    ensures e !in EquationsOf(Removed(ds, Some(e)))
    ensures Distinct(EquationsOf(Removed(ds, Some(e))))
  {
    var i := IndexOf(ds, e);
    if i < |ds| {
      var r := Removed(ds, Some(e));
      forall k | 0 <= k < |r|
        ensures r[k].equation != e
        ensures forall k' :: k < k' < |r| ==> r[k].equation != r[k'].equation
      {
        assert r[k] == if k < i then ds[k] else ds[k + 1];
        forall k' | k < k' < |r|
          ensures r[k].equation != r[k'].equation
        {
          assert r[k'] == if k' < i then ds[k'] else ds[k' + 1];
        }
      }
    }
  }

  /** Adding a new equation and removing it again restores the list. */
  lemma AddThenRemove(ds: seq<Drawable>, e: Equation, color: int)
    requires e !in EquationsOf(ds)
    ensures Removed(Added(ds, Some(e), color), Some(e)) == ds
  {
    var a := ds + [Drawable(e, color)];
    assert EquationsOf(a)[|ds|] == e;
    assert IndexOf(a, e) == |ds| by {
      assert forall j :: 0 <= j < |ds| ==> a[j].equation == EquationsOf(ds)[j];
    }
    assert a[..|ds|] == ds;
  }

  /**
   * The guard as written lets the same equation in twice, and one
   * `removeEquation` then leaves it on the display.
   */
  lemma AddedAsWrittenKeepsRemoved(e: Equation, color: int)
    ensures var twice := AddedAsWritten(AddedAsWritten([], Some(e), color), Some(e), color);
            twice == [Drawable(e, color), Drawable(e, color)] &&
            !Distinct(EquationsOf(twice)) &&
            e in EquationsOf(Removed(twice, Some(e)))
  {
    var twice := AddedAsWritten(AddedAsWritten([], Some(e), color), Some(e), color);
    assert EquationsOf(twice)[0] == EquationsOf(twice)[1];
    assert Removed(twice, Some(e)) == [Drawable(e, color)];
    assert EquationsOf([Drawable(e, color)])[0] == e;
  }

  // ---------------------------------------------------------------------
  // The display

  /**
   * The display: its viewport fields, the equations it draws, the equations
   * whose change events it listens to (an equation added twice holds the
   * listener twice), and the point a drag started from.
   */
  class EquationDisplay {
    var originX: real
    var originY: real
    var minX: real
    var maxX: real
    var minY: real
    var maxY: real
    var majorX: real
    var minorX: int
    var majorY: real
    var minorY: int
    var equations: seq<Drawable>
    var listeners: multiset<Equation>
    var dragStart: Option<Point>

    /** The viewport the fields hold. */
    function View(): Viewport
      reads this`originX, this`originY, this`minX, this`maxX, this`minY, this`maxY
      reads this`majorX, this`minorX, this`majorY, this`minorY
    {
      Viewport(originX, originY, minX, maxX, minY, maxY, majorX, minorX, majorY, minorY)
    }

    /** The listener registrations match the list, which holds each equation once. */
    predicate Valid()
      reads this`minX, this`maxX, this`minY, this`maxY, this`equations, this`listeners
    {
      minX < maxX && minY < maxY &&
      listeners == multiset(EquationsOf(equations)) && Distinct(EquationsOf(equations))
    }

    /** Stores an accepted viewport; the list starts empty. */
    constructor (v: Viewport)
      requires WellFormed(v)
      ensures Valid() && View() == v
      ensures equations == [] && listeners == multiset{} && dragStart.None?
    {
      originX, originY := v.originX, v.originY;
      minX, maxX, minY, maxY := v.minX, v.maxX, v.minY, v.maxY;
      majorX, minorX, majorY, minorY := v.majorX, v.minorX, v.majorY, v.minorY;
      equations := [];
      listeners := multiset{};
      dragStart := None;
    }

    /** The public constructor: rejects the arguments with the first failing check's message, or builds the display. */
    static method Create(v: Viewport) returns (r: Result<EquationDisplay, string>)
      ensures Check(v).Some? ==> r == Failure(Check(v).value)
      ensures Check(v).None? ==> r.Success? && fresh(r.value) && r.value.Valid() && r.value.View() == v &&
                                 r.value.equations == []
    {
      var err := Check(v);
      if err.Some? {
        return Failure(err.value);
      }
      var d := new EquationDisplay(v);
      return Success(d);
    }

    /** The search loop of `removeEquation`: the first wrapper holding `e`, or `|equations|`. */
    method FindDrawable(e: Equation) returns (i: nat)
      ensures i == IndexOf(equations, e)
    {
      i := 0;
      while i < |equations|
        invariant i <= |equations|
        invariant forall j :: 0 <= j < i ==> equations[j].equation != e
      {
        if equations[i].equation == e {
          IndexOfFirst(equations, e, i);
          return;
        }
        i := i + 1;
      }
      IndexOfFirst(equations, e, i);
    }

    /**
     * `addEquation` with its duplicate guard doing what it evidently means:
     * a null or already-listed equation changes nothing; otherwise the
     * display subscribes to it and appends its wrapper.
     */
    method AddEquation(e: Option<Equation>, color: int)
      requires Valid()
      modifies this`equations, this`listeners
      ensures Valid()
      ensures equations == Added(old(equations), e, color)
      ensures e.Some? && e.value !in EquationsOf(old(equations)) ==> listeners == old(listeners) + multiset{e.value}
      ensures e.None? || e.value in EquationsOf(old(equations)) ==> listeners == old(listeners)
    {
      if e.None? {
        return;
      }
      var i := FindDrawable(e.value);
      if i < |equations| {
        return;
      }
      AddedKeepsDistinct(equations, e, color);
      listeners := listeners + multiset{e.value};
      equations := equations + [Drawable(e.value, color)];
      assert EquationsOf(equations) == EquationsOf(old(equations)) + [e.value];
    }

    /**
     * `removeEquation`: a null or unlisted equation changes nothing;
     * otherwise the display unsubscribes and drops the first wrapper
     * holding it.
     */
    method RemoveEquation(e: Option<Equation>)
      requires Valid()
      modifies this`equations, this`listeners
      ensures Valid()
      ensures equations == Removed(old(equations), e)
      ensures e.Some? ==> e.value !in EquationsOf(equations) && listeners == old(listeners) - multiset{e.value}
      ensures e.None? ==> listeners == old(listeners)
    {
      if e.None? {
        return;
      }
      var i := FindDrawable(e.value);
      if i == |equations| {
        return;
      }
      RemovedDropsEquation(equations, e.value);
      RemovedListeners(equations, i);
      listeners := listeners - multiset{e.value};
      equations := equations[..i] + equations[i + 1..];
    }

    /** `PanHandler.mousePressed`: remembers where the drag starts. */
    method MousePressed(p: Point)
      modifies this`dragStart
      ensures dragStart == Some(p)
    {
      dragStart := Some(p);
    }

    /**
     * `PanMotionHandler.mouseDragged`: shifts both ranges by the distance the
     * pointer moved, measured in positions, and makes the end the new start.
     */
    method MouseDragged(end: Point, width: real, height: real)
      requires dragStart.Some? && minX < maxX && minY < maxY && width != 0.0 && height != 0.0
      modifies this`minX, this`maxX, this`minY, this`maxY, this`dragStart
      ensures View() == Panned(old(View()), old(dragStart.value), end, width, height)
      ensures dragStart == Some(end)
    {
      var start := dragStart.value;
      var distance := XPixelToPosition(View(), end.x as real, width) - XPixelToPosition(View(), start.x as real, width);
      minX := minX - distance;
      maxX := maxX - distance;
      distance := YPixelToPosition(View(), end.y as real, height) - YPixelToPosition(View(), start.y as real, height);
      minY := minY - distance;
      maxY := maxY - distance;
      dragStart := Some(end);
    }

    /** `ZoomHandler.mouseWheelMoved`. */
    method MouseWheelMoved(rotation: int)
      requires minX < maxX && minY < maxY
      modifies this`minX, this`maxX, this`minY, this`maxY
      ensures View() == Zoomed(old(View()), rotation)
    {
      var distanceX := maxX - minX;
      var distanceY := maxY - minY;
      var cursorX := minX + distanceX / 2.0;
      var cursorY := minY + distanceY / 2.0;
      if rotation < 0 {
        distanceX := distanceX / ZoomCoefficient;
        distanceY := distanceY / ZoomCoefficient;
      } else {
        distanceX := distanceX * ZoomCoefficient;
        distanceY := distanceY * ZoomCoefficient;
      }
      minX := cursorX - distanceX / 2.0;
      maxX := cursorX + distanceX / 2.0;
      minY := cursorY - distanceY / 2.0;
      maxY := cursorY + distanceY / 2.0;
    }
  }

  /** Dropping wrapper `i` drops one registration of its equation. */
  lemma RemovedListeners(ds: seq<Drawable>, i: nat)
    requires i < |ds|
    ensures multiset(EquationsOf(ds[..i] + ds[i + 1..])) == multiset(EquationsOf(ds)) - multiset{ds[i].equation}
  {
    var es := EquationsOf(ds);
    assert es == es[..i] + [ds[i].equation] + es[i + 1..];
    assert EquationsOf(ds[..i] + ds[i + 1..]) == es[..i] + es[i + 1..];
  }

  /** A first match found by a left-to-right scan is `IndexOf`. */
  lemma {:induction false} IndexOfFirst(ds: seq<Drawable>, e: Equation, i: nat)
    requires i <= |ds|
    requires i < |ds| ==> ds[i].equation == e
    requires forall j :: 0 <= j < i ==> ds[j].equation != e
    ensures IndexOf(ds, e) == i
    decreases i
  {
    if i > 0 {
      IndexOfFirst(ds[1..], e, i - 1);
    }
  }
}
