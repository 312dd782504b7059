/** The coordinate transforms of RawTurtle (src/index.js): world points to
    canvas pixels and back, and the delta-only pair used to size text. */
module Coords {

  datatype Point = Point(x: real, y: real)

  /** The world window: lower-left and upper-right corners. */
  datatype Window = Window(llx: real, lly: real, urx: real, ury: real)

  /** The window every turtle starts with. */
  const DefaultWindow := Window(-100.0, -100.0, 100.0, 100.0)

  /** A window whose sides have non-zero extent; the transforms divide by them. */
  predicate NonDegenerate(win: Window)
  {
    win.urx != win.llx && win.ury != win.lly
  }

  /** The canvas names its origin with two letters, vertical then horizontal;
      only the letters `T` and `R` change the transform. */
  predicate TopOrigin(code: string)
  {
    |code| >= 1 && code[0] == 'T'
  }

  predicate RightOrigin(code: string)
  {
    |code| >= 2 && code[1] == 'R'
  }

  /** One axis of `convertTurtleCoordinate`: scale by `size / (hi - lo)`, then
      add (flipped) or subtract the scaled lower bound. */
  function AxisToCanvas(size: real, lo: real, hi: real, v: real, flipped: bool): real
    requires hi != lo
  {
    var k := size / (hi - lo);
    if flipped then k * v + k * lo else k * v - k * lo
  }

  /** One axis of `convertCanvasCoordinate`. */
  function AxisFromCanvas(size: real, lo: real, hi: real, c: real, flipped: bool): real
    requires hi != lo && size != 0.0
  {
    var k := size / (hi - lo);
    (hi - lo) / size * (if flipped then c - k * lo else c + k * lo)
  }

  /** `convertTurtleCoordinate`: the world point `p` as a canvas pixel of a
      `w` by `h` canvas whose origin is named by `code`; the vertical result is
      negated. */
  function ToCanvas(win: Window, w: real, h: real, code: string, p: Point): Point
    requires NonDegenerate(win)
  {
    Point(AxisToCanvas(w, win.llx, win.urx, p.x, RightOrigin(code)),
          -AxisToCanvas(h, win.lly, win.ury, p.y, TopOrigin(code)))
  }

  /** `convertCanvasCoordinate`. */
  function FromCanvas(win: Window, w: real, h: real, code: string, c: Point): Point
    requires NonDegenerate(win) && w != 0.0 && h != 0.0
  {
    Point(AxisFromCanvas(w, win.llx, win.urx, c.x, RightOrigin(code)),
          AxisFromCanvas(h, win.lly, win.ury, -c.y, TopOrigin(code)))
  }

  /** `turtleToCanvas`: a world displacement in pixels. */
  function DeltaToCanvas(win: Window, w: real, h: real, d: Point): Point
    requires NonDegenerate(win)
  {
    Point(d.x / (win.urx - win.llx) * w, d.y / (win.ury - win.lly) * h)
  }

  /** `canvasToTurtle`: a pixel displacement in world units. */
  function DeltaToTurtle(win: Window, w: real, h: real, d: Point): Point
    requires NonDegenerate(win) && w != 0.0 && h != 0.0
  {
    Point(d.x * (win.urx - win.llx) / w, d.y * (win.ury - win.lly) / h)
  }

  lemma ReciprocalScales(size: real, span: real)
    requires size != 0.0 && span != 0.0
    ensures span / size * (size / span) == 1.0
  {
  }

  /** Each axis of the canvas transform is a bijection: either way round, the
      two directions cancel. */
  lemma {:induction false} AxisRoundTrip(size: real, lo: real, hi: real, v: real, c: real, flipped: bool)
    requires hi != lo && size != 0.0
    ensures AxisFromCanvas(size, lo, hi, AxisToCanvas(size, lo, hi, v, flipped), flipped) == v
    ensures AxisToCanvas(size, lo, hi, AxisFromCanvas(size, lo, hi, c, flipped), flipped) == c
  {
    var k := size / (hi - lo);
    var j := (hi - lo) / size;
    ReciprocalScales(size, hi - lo);
    assert j * k == 1.0;
    var t := AxisToCanvas(size, lo, hi, v, flipped);
    assert (if flipped then t - k * lo else t + k * lo) == k * v;
    assert j * (k * v) == (j * k) * v;
    var u := if flipped then c - k * lo else c + k * lo;
    assert AxisFromCanvas(size, lo, hi, c, flipped) == j * u;
    assert k * (j * u) == (j * k) * u;
  }

  /** `convertCanvasCoordinate` undoes `convertTurtleCoordinate` for every
      point, window, canvas size and origin code, and the other way round. */
  lemma {:induction false} CanvasRoundTrip(win: Window, w: real, h: real, code: string, p: Point, c: Point)
    requires NonDegenerate(win) && w != 0.0 && h != 0.0
    ensures FromCanvas(win, w, h, code, ToCanvas(win, w, h, code, p)) == p
    ensures ToCanvas(win, w, h, code, FromCanvas(win, w, h, code, c)) == c
  {
    AxisRoundTrip(w, win.llx, win.urx, p.x, c.x, RightOrigin(code));
    AxisRoundTrip(h, win.lly, win.ury, p.y, -c.y, TopOrigin(code));
  }

  lemma ScaleRoundTrip(v: real, span: real, size: real)
    requires span != 0.0 && size != 0.0
    ensures v / span * size * span / size == v
    ensures v * span / size / span * size == v
  {
    var a := v / span;
    assert a * span == v;
    assert a * size * span / size == a * span;
    var b := v * span / size;
    assert b * size == v * span;
    assert b / span * size == b * size / span;
  }

  lemma DeltaAxisRoundTrip(v: real, span: real, size: real)
    requires span != 0.0 && size != 0.0
    ensures (v / span * size) * span / size == v
  {
    ScaleRoundTrip(v, span, size);
  }

  lemma DeltaAxisRoundTripBack(v: real, span: real, size: real)
    requires span != 0.0 && size != 0.0
    ensures (v * span / size) / span * size == v
  {
    ScaleRoundTrip(v, span, size);
  }

  /** `canvasToTurtle` undoes `turtleToCanvas`, and the other way round. */
  lemma {:induction false} DeltaRoundTrip(win: Window, w: real, h: real, d: Point, e: Point)
    requires NonDegenerate(win) && w != 0.0 && h != 0.0
    ensures DeltaToTurtle(win, w, h, DeltaToCanvas(win, w, h, d)) == d
    ensures DeltaToCanvas(win, w, h, DeltaToTurtle(win, w, h, e)) == e
  {
    DeltaAxisRoundTrip(d.x, win.urx - win.llx, w);
    DeltaAxisRoundTrip(d.y, win.ury - win.lly, h);
    DeltaAxisRoundTripBack(e.x, win.urx - win.llx, w);
    DeltaAxisRoundTripBack(e.y, win.ury - win.lly, h);
  }

  lemma AxisDifference(size: real, lo: real, hi: real, v1: real, v2: real, flipped: bool)
    requires hi != lo
    ensures AxisToCanvas(size, lo, hi, v1, flipped) - AxisToCanvas(size, lo, hi, v2, flipped)
            == (v1 - v2) / (hi - lo) * size
  {
    var k := size / (hi - lo);
    assert k * v1 - k * v2 == k * (v1 - v2);
    assert (v1 - v2) / (hi - lo) * size == size / (hi - lo) * (v1 - v2);
  }

  /** The two pairs agree: the pixel displacement between two converted points
      is the converted world displacement, with the vertical sign flipped as
      `convertTurtleCoordinate` flips it. */
  lemma {:induction false} ToCanvasIsAffine(win: Window, w: real, h: real, code: string, p: Point, q: Point)
    requires NonDegenerate(win)
    ensures ToCanvas(win, w, h, code, p).x - ToCanvas(win, w, h, code, q).x
            == DeltaToCanvas(win, w, h, Point(p.x - q.x, p.y - q.y)).x
    ensures ToCanvas(win, w, h, code, p).y - ToCanvas(win, w, h, code, q).y
            == -DeltaToCanvas(win, w, h, Point(p.x - q.x, p.y - q.y)).y
  {
    AxisDifference(w, win.llx, win.urx, p.x, q.x, RightOrigin(code));
    AxisDifference(h, win.lly, win.ury, p.y, q.y, TopOrigin(code));
  }

  /** With the default window and the canvas's top-left origin, the window's
      top-left corner is pixel (0, 0), its bottom-right corner is pixel (w, h),
      and the world origin is the canvas centre. */
  lemma DefaultWindowFillsCanvas(w: real, h: real)
    ensures ToCanvas(DefaultWindow, w, h, "TL", Point(-100.0, 100.0)) == Point(0.0, 0.0)
    ensures ToCanvas(DefaultWindow, w, h, "TL", Point(100.0, -100.0)) == Point(w, h)
    ensures ToCanvas(DefaultWindow, w, h, "TL", Point(0.0, 0.0)) == Point(w / 2.0, h / 2.0)
  {
    assert TopOrigin("TL") && !RightOrigin("TL");
  }

  /** For a top-left canvas the window's top edge lands on pixel row 0, and
      its bottom edge on row `h`, exactly when the window is vertically
      symmetric about 0 (`lly == -ury`): the top-origin branch adds the
      scaled lower bound where the top edge would have to be subtracted. */
  lemma {:induction false} VerticalEdgesOnCanvasIffSymmetric(win: Window, w: real, h: real, x: real)
    requires NonDegenerate(win) && h != 0.0
    ensures ToCanvas(win, w, h, "TL", Point(x, win.ury)).y == 0.0 <==> win.lly == -win.ury
    ensures ToCanvas(win, w, h, "TL", Point(x, win.lly)).y == h <==> win.lly == -win.ury
  {
    assert TopOrigin("TL");
    var span := win.ury - win.lly;
    var k := h / span;
    assert k != 0.0;
    assert ToCanvas(win, w, h, "TL", Point(x, win.ury)).y == -(k * (win.ury + win.lly));
    assert ToCanvas(win, w, h, "TL", Point(x, win.lly)).y == -(k * (win.lly + win.lly));
    assert k * span == h;
    assert -(k * (win.lly + win.lly)) == h <==> k * (-(win.lly + win.lly)) == k * span;
  }
}
