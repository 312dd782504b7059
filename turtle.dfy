/** The RawTurtle class of src/index.js: its state, and every motion, pen,
    stamp, shape, event and coordinate operation, each proved against the
    rules of module TurtleLogic. The canvas it draws on is outside the model:
    the draw calls it would make are appended to `drawLog`, and the stamp
    handles the canvas would return are passed in. */
module Turtle {
  import opened Vec2D
  import opened Coords
  import opened TurtleLogic

  /** What `distance` returns: a vector, the TypeError of reading an
      index of `undefined` or `null`, or a vector with a `NaN` component. */
  datatype DistanceOutcome = DistanceVec(v: Vec) | DistanceThrows | DistanceNotNumeric

  /** What `circle` had resolved when it threw. */
  datatype CircleAttempt = CircleAttempt(extent: real, steps: int, failure: Failure)

  class RawTurtle {
    const trig: Trig
    /** The name `PEN_<n>` of the pen marker registered on the canvas. */
    const penName: string
    const canvasW: real
    const canvasH: real
    /** The canvas's `x0y0`: its origin is the top-left corner. */
    const originCode: string := "TL"

    var x: real
    var y: real
    /** The heading, in degrees in either angle mode. */
    var orient: real
    var mode: string
    var anglemode: AngleMode
    var window: Window

    var shown: bool
    var pendown: bool
    var pencolor: string
    var fillcolor: Option<string>
    var pensize: real
    var speed: Option<real>
    var resizemode: Option<string>
    var stretchfactor: (real, real)
    var outline: Option<real>
    var tilt: real
    /** `None` once a division by zero has made the shear non-finite. */
    var shear: Option<real>
    var fill: bool
    var tracer: Option<real>
    var delay: Option<real>
    var shapetrafo: Matrix
    var turtleshape: string

    var stamps: seq<Handle>
    /** The click listeners, by button number. */
    var clickListeners: map<int, seq<nat>>
    /** The draw calls made on the canvas so far. */
    var drawLog: seq<DrawCall>

    predicate Valid()
      reads this
    {
      NonDegenerate(window) && trig.pi > 0.0
    }

    function CurrentSurface(): Surface
      reads this
    {
      Surface(window, canvasW, canvasH, originCode)
    }

    function CurrentPose(): Pose
      reads this
    {
      Pose(x, y, orient)
    }

    function PenSnapshot(): PenState
      reads this
    {
      PenState(shown, pendown, pencolor, fillcolor, pensize, speed, resizemode, stretchfactor, outline, tilt)
    }

    /** A new turtle at the origin, heading along the x axis, pen down, in the
        standard mode with the default window; the heading starts as the vector
        (1, 0), whose numeric value `atan(0 / 1)` is 0. */
    constructor(trig: Trig, penName: string, canvasW: real, canvasH: real)
      requires trig.pi > 0.0
      ensures Valid()
      ensures this.trig == trig && this.penName == penName
      ensures this.canvasW == canvasW && this.canvasH == canvasH
      ensures CurrentPose() == Pose(0.0, 0.0, 0.0)
      ensures mode == "standard" && anglemode == Degree && window == DefaultWindow
      ensures PenSnapshot() == PenState(true, true, "black", None, 1.0, None, None, (1.0, 1.0), None, 0.0)
      ensures !fill && tracer.None? && delay.None? && shear == Some(0.0)
      ensures shapetrafo == InitialTransform && turtleshape == "turtle"
      ensures stamps == [] && clickListeners == map[] && drawLog == []
    {
      this.trig := trig;
      this.penName := penName;
      this.canvasW := canvasW;
      this.canvasH := canvasH;
      x, y, orient := 0.0, 0.0, 0.0;
      mode, anglemode, window := "standard", Degree, DefaultWindow;
      shown, pendown, pencolor, fillcolor, pensize := true, true, "black", None, 1.0;
      speed, resizemode, stretchfactor, outline, tilt := None, None, (1.0, 1.0), None, 0.0;
      fill, tracer, delay, shear := false, None, None, Some(0.0);
      shapetrafo, turtleshape := InitialTransform, "turtle";
      stamps, clickListeners, drawLog := [], map[], [];
    }

    /** The tail of `#move`: the line (pen down) and the redrawn pen marker. */
    method Redraw(before: Point)
      requires Valid()
      modifies this`drawLog
      ensures drawLog == old(drawLog) + MoveEvents(CurrentSurface(), before, CurrentPose(), pendown,
                                                   pencolor, pensize, penName, trig.pi)
    {
      var after := CanvasPoint(CurrentSurface(), Point(x, y));
      if pendown {
        drawLog := drawLog + [Line(CanvasPoint(CurrentSurface(), before), after, pencolor, pensize)];
      }
      drawLog := drawLog + [PlaceShape(after, penName, ToRad(orient, trig.pi))];
    }

    method Forward(distance: real)
      requires Valid()
      modifies this`x, this`y, this`drawLog
      ensures Valid()
      ensures CurrentPose() == ForwardPose(old(CurrentPose()), distance, trig)
      ensures drawLog == old(drawLog) + MoveEvents(CurrentSurface(), Point(old(x), old(y)), CurrentPose(),
                                                   pendown, pencolor, pensize, penName, trig.pi)
    {
      var before := Point(x, y);
      x := x + trig.cos(ToRad(orient, trig.pi)) * distance;
      y := y - trig.sin(ToRad(orient, trig.pi)) * distance;
      Redraw(before);
    }

    /** `back`, `backward` and `bk`. */
    method Back(distance: real)
      requires Valid()
      modifies this`x, this`y, this`drawLog
      ensures Valid()
      ensures CurrentPose() == ForwardPose(old(CurrentPose()), -distance, trig)
      ensures ForwardPose(CurrentPose(), distance, trig) == old(CurrentPose())
      ensures drawLog == old(drawLog) + MoveEvents(CurrentSurface(), Point(old(x), old(y)), CurrentPose(),
                                                   pendown, pencolor, pensize, penName, trig.pi)
    {
      Forward(-distance);
      BackUndoesForward(old(CurrentPose()), -distance, trig);
    }

    method Left(angle: real)
      requires Valid()
      modifies this`orient, this`drawLog
      ensures Valid()
      ensures CurrentPose() == old(CurrentPose()).(orient := LeftOrient(anglemode, old(orient), angle, trig.pi))
      ensures drawLog == old(drawLog) + MoveEvents(CurrentSurface(), Point(x, y), CurrentPose(),
                                                   pendown, pencolor, pensize, penName, trig.pi)
    {
      var before := Point(x, y);
      orient := LeftOrient(anglemode, orient, angle, trig.pi);
      Redraw(before);
    }

    /** `right(a)` is `left(-a)`. */
    method Right(angle: real)
      requires Valid()
      modifies this`orient, this`drawLog
      ensures Valid()
      ensures CurrentPose() == old(CurrentPose()).(orient := LeftOrient(anglemode, old(orient), -angle, trig.pi))
      ensures drawLog == old(drawLog) + MoveEvents(CurrentSurface(), Point(x, y), CurrentPose(),
                                                   pendown, pencolor, pensize, penName, trig.pi)
    {
      Left(-angle);
    }

    /** `goto`, `setpos` and `setposition`; `moved` is false when the target is
        not a pair of numbers, and then nothing changes. */
    method Goto(tx: JsValue, ty: JsValue) returns (moved: bool)
      requires Valid()
      modifies this`x, this`y, this`drawLog
      ensures Valid()
      ensures moved <==> PointArgOf(tx, ty).Target?
      ensures moved ==> Point(x, y) == PointArgOf(tx, ty).p
      ensures moved ==> drawLog == old(drawLog) + MoveEvents(CurrentSurface(), Point(old(x), old(y)), CurrentPose(),
                                                             pendown, pencolor, pensize, penName, trig.pi)
      ensures !moved ==> x == old(x) && y == old(y) && drawLog == old(drawLog)
    {
      var target := PointArgOf(tx, ty);
      moved := target.Target?;
      if moved {
        var before := Point(x, y);
        x, y := target.p.x, target.p.y;
        Redraw(before);
      }
    }

    method SetX(v: real)
      requires Valid()
      modifies this`x, this`drawLog
      ensures Valid()
      ensures CurrentPose() == old(CurrentPose()).(x := v)
      ensures drawLog == old(drawLog) + MoveEvents(CurrentSurface(), Point(old(x), y), CurrentPose(),
                                                   pendown, pencolor, pensize, penName, trig.pi)
    {
      var before := Point(x, y);
      x := v;
      Redraw(before);
    }

    method SetY(v: real)
      requires Valid()
      modifies this`y, this`drawLog
      ensures Valid()
      ensures CurrentPose() == old(CurrentPose()).(y := v)
      ensures drawLog == old(drawLog) + MoveEvents(CurrentSurface(), Point(x, old(y)), CurrentPose(),
                                                   pendown, pencolor, pensize, penName, trig.pi)
    {
      var before := Point(x, y);
      y := v;
      Redraw(before);
    }

    /** `setheading` and `seth`, through the public `orient` setter. */
    method SetHeading(angle: real)
      requires Valid()
      modifies this`orient, this`drawLog
      ensures Valid()
      ensures CurrentPose() == old(CurrentPose()).(orient := SetOrient(anglemode, angle, trig.pi))
      ensures drawLog == old(drawLog) + MoveEvents(CurrentSurface(), Point(x, y), CurrentPose(),
                                                   pendown, pencolor, pensize, penName, trig.pi)
    {
      var before := Point(x, y);
      orient := SetOrient(anglemode, angle, trig.pi);
      Redraw(before);
    }

    /** `home`: back to the origin with heading 0, drawing on the way when the
        pen is down. */
    method Home()
      requires Valid()
      modifies this`x, this`y, this`orient, this`drawLog
      ensures Valid()
      ensures CurrentPose() == Pose(0.0, 0.0, 0.0)
      ensures drawLog == old(drawLog) + MoveEvents(CurrentSurface(), Point(old(x), old(y)), CurrentPose(),
                                                   pendown, pencolor, pensize, penName, trig.pi)
    {
      var before := Point(x, y);
      x, y := 0.0, 0.0;
      orient := SetOrient(anglemode, 0.0, trig.pi);
      HomeHeadingIsZero(anglemode, trig.pi);
      Redraw(before);
    }

    /** `reset`: only the position returns to the origin; nothing is drawn. */
    method Reset()
      requires Valid()
      modifies this`x, this`y
      ensures Valid()
      ensures CurrentPose() == Pose(0.0, 0.0, old(orient))
    {
      x, y := 0.0, 0.0;
    }

    /** `circle`: the extent defaults to a full circle and the step count to
        `CircleSteps`; the call then throws at `Math.radians`, which is not a
        function, before anything moves. */
    method Circle(radius: real, extent: Option<real>, steps: Option<int>) returns (r: CircleAttempt)
      requires Valid()
      ensures r.extent == Pick(extent, FullCircle(anglemode, trig.pi))
      ensures r.steps == if steps.Some? then steps.value else CircleSteps(radius, r.extent, FullCircle(anglemode, trig.pi))
      ensures steps.None? ==> r.steps >= 1
      ensures r.failure == NotAFunction("Math.radians")
    {
      var full := FullCircle(anglemode, trig.pi);
      var e := if extent.Some? then extent.value else full;
      var n := if steps.Some? then steps.value else CircleSteps(radius, e, full);
      CircleStepsBounds(radius, radius, e, e, full);
      r := CircleAttempt(e, n, NotAFunction("Math.radians"));
    }

    /** The body of `circle`'s loop as `#motion` runs it: speed, tracer and
        delay are zeroed around the turn and then restored. */
    method MotionTurn(w2: real)
      requires Valid()
      modifies this`orient, this`speed, this`tracer, this`delay
      ensures Valid()
      ensures orient == ScaledHeading(anglemode, old(orient), w2, trig.pi)
      ensures speed == old(speed) && tracer == old(tracer) && delay == old(delay)
    {
      var s, t, d := speed, tracer, delay;
      speed, tracer, delay := Some(0.0), Some(0.0), Some(0.0);
      orient := ScaledHeading(anglemode, orient, w2, trig.pi);
      speed, tracer, delay := s, t, d;
    }

    /** `stamp`: draw the turtle shape at the current pose and remember the
        handle the canvas returned. */
    method Stamp(handle: Handle) returns (id: Handle)
      requires Valid()
      modifies this`stamps, this`drawLog
      ensures id == handle
      ensures stamps == old(stamps) + [handle]
      ensures drawLog == old(drawLog) + [PlaceShape(CanvasPoint(CurrentSurface(), Point(x, y)), turtleshape, ToRad(orient, trig.pi))]
    {
      drawLog := drawLog + [PlaceShape(CanvasPoint(CurrentSurface(), Point(x, y)), turtleshape, ToRad(orient, trig.pi))];
      stamps := stamps + [handle];
      id := handle;
    }

    /** `clearstamp`: splice the id out and remove its shape from the canvas. */
    method ClearStamp(id: Handle)
      requires Valid()
      modifies this`stamps, this`drawLog
      ensures stamps == ClearStampList(old(stamps), id)
      ensures drawLog == old(drawLog) + [RemoveShape(id)]
    {
      stamps := ClearStampList(stamps, id);
      drawLog := drawLog + [RemoveShape(id)];
    }

    /** `clearstamps`: splice out the selected stamps, then remove each one's
        shape from the canvas in order. */
    method ClearStamps(n: Option<real>)
      requires Valid()
      modifies this`stamps, this`drawLog
      ensures stamps == ClearStampsSplice(old(stamps), n).kept
      ensures drawLog == old(drawLog) + RemovalEvents(ClearStampsSplice(old(stamps), n).removed)
    {
      var spliced := ClearStampsSplice(stamps, n);
      stamps := spliced.kept;
      var i := 0;
      while i < |spliced.removed|
        invariant 0 <= i <= |spliced.removed|
        invariant stamps == spliced.kept
        invariant drawLog == old(drawLog) + RemovalEvents(spliced.removed[..i])
      {
        assert spliced.removed[..i + 1][..i] == spliced.removed[..i];
        drawLog := drawLog + [RemoveShape(spliced.removed[i])];
        i := i + 1;
      }
      assert spliced.removed[..i] == spliced.removed;
    }

    /** `position` and `pos`. */
    function Position(): (r: Vec)
      reads this
      ensures r.x == x && r.y == y
    {
      var args := LocalNormalizeArgs(Obj(Some(x), Some(y), [x, y]), Undefined);
      Vec(args.first.n, args.second.n)
    }

    /** `heading`: the stored heading, converted with `toRad` in radians mode. */
    function Heading(): (r: real)
      reads this
      ensures anglemode == Degree ==> r == orient
      ensures anglemode == AngleMode.Radians ==> r == orient * trig.pi / 180.0
    {
      GetOrient(anglemode, orient, trig.pi)
    }

    /** `distance(x0, y0)`: the point is read as `DistancePoint` reads it;
        the result is, despite the name, the componentwise absolute
        difference between that point and the turtle, a vector. */
    function Distance(x0: JsValue, y0: JsValue): (r: DistanceOutcome)
      reads this
      ensures r == DistanceThrows <==> x0 == Undefined || x0 == Null
      ensures r.DistanceVec? <==> DistancePoint(x0, y0).Some?
      ensures r.DistanceVec? ==> var p := DistancePoint(x0, y0).value;
        && r.v.x >= 0.0 && r.v.y >= 0.0
        && (r.v == Vec(0.0, 0.0) <==> p == Point(x, y))
        && (r.v.x == p.x - x || r.v.x == x - p.x)
        && (r.v.y == p.y - y || r.v.y == y - p.y)
    {
      if x0 == Undefined || x0 == Null then DistanceThrows
      else match DistancePoint(x0, y0)
        case Some(p) => DistanceVec(Abs(Substract(Vec(p.x, p.y), Vec(x, y))))
        case None => DistanceNotNumeric
    }

    method Degrees()
      modifies this`anglemode
      ensures anglemode == Degree
    {
      anglemode := Degree;
    }

    method Radians()
      modifies this`anglemode
      ensures anglemode == AngleMode.Radians
    {
      anglemode := AngleMode.Radians;
    }

    /** `pendown`, `pd` and `down`. */
    method PenDown()
      modifies this`pendown
      ensures pendown
    {
      pendown := true;
    }

    /** `penup`, `pu` and `up`. */
    method PenUp()
      modifies this`pendown
      ensures !pendown
    {
      pendown := false;
    }

    /** `pensize` and `width`: a missing or zero width reads the size, any
        other width sets it. */
    method PenSize(width: Option<real>) returns (r: Option<real>)
      modifies this`pensize
      ensures width.None? || width == Some(0.0) ==> r == Some(old(pensize)) && pensize == old(pensize)
      ensures width.Some? && width.value != 0.0 ==> r.None? && pensize == width.value
    {
      if width.None? || width == Some(0.0) {
        r := Some(pensize);
      } else {
        pensize := width.value;
        r := None;
      }
    }

    /** `pencolor` with a colour string: a missing or empty string reads the
        colour, any other sets it. */
    method PenColor(color: Option<string>) returns (r: Option<string>)
      modifies this`pencolor
      ensures color.None? || color == Some("") ==> r == Some(old(pencolor)) && pencolor == old(pencolor)
      ensures color.Some? && color.value != "" ==> r.None? && pencolor == color.value
    {
      if color.None? || color == Some("") {
        r := Some(pencolor);
      } else {
        pencolor := color.value;
        r := None;
      }
    }

    /** `fillcolor` with a colour string, read or set like `pencolor`. */
    method FillColor(color: Option<string>) returns (r: Option<Option<string>>)
      modifies this`fillcolor
      ensures color.None? || color == Some("") ==> r == Some(old(fillcolor)) && fillcolor == old(fillcolor)
      ensures color.Some? && color.value != "" ==> r.None? && fillcolor == color
    {
      if color.None? || color == Some("") {
        r := Some(fillcolor);
      } else {
        fillcolor := color;
        r := None;
      }
    }

    /** `showturtle` / `st` (true) and `hideturtle` / `ht` (false). */
    method SetShown(visible: bool)
      modifies this`shown
      ensures shown == visible
    {
      shown := visible;
    }

    /** `begin_fill` (true) and `end_fill` (false). */
    method SetFilling(filling: bool)
      modifies this`fill
      ensures fill == filling
    {
      fill := filling;
    }

    /** `pen(...dicts)`: apply the dictionaries in order, then report the
        settings; `None` when a dictionary's resize mode made it throw. */
    method Pen(dicts: seq<PenArg>) returns (r: Option<PenState>)
      requires Valid()
      modifies this`shown, this`pendown, this`pencolor, this`fillcolor, this`pensize, this`speed,
               this`resizemode, this`stretchfactor, this`outline, this`tilt
      ensures Valid()
      ensures PenSnapshot() == PenFold(old(PenSnapshot()), dicts).state
      ensures r.None? <==> PenFold(old(PenSnapshot()), dicts).threw
      ensures r.Some? ==> r.value == PenSnapshot()
    {
      var i := 0;
      var threw := false;
      while i < |dicts| && !threw
        invariant 0 <= i <= |dicts|
        invariant Valid()
        invariant PenFold(old(PenSnapshot()), dicts[..i]) == PenRun(PenSnapshot(), threw)
      {
        assert dicts[..i + 1][..i] == dicts[..i];
        var run := ApplyPenArg(PenSnapshot(), dicts[i]);
        SetPen(run.state);
        threw := run.threw;
        i := i + 1;
      }
      if threw {
        PenFoldStopsAtThrow(old(PenSnapshot()), dicts, i);
        r := None;
      } else {
        assert dicts[..i] == dicts;
        r := Some(PenSnapshot());
      }
    }

    method SetPen(p: PenState)
      modifies this`shown, this`pendown, this`pencolor, this`fillcolor, this`pensize, this`speed,
               this`resizemode, this`stretchfactor, this`outline, this`tilt
      ensures PenSnapshot() == p
    {
      shown, pendown, pencolor, fillcolor, pensize := p.shown, p.pendown, p.pencolor, p.fillcolor, p.pensize;
      speed, resizemode, stretchfactor, outline, tilt := p.speed, p.resizemode, p.stretchfactor, p.outline, p.tilt;
    }

    /** `shapesize`: read, reject a zero stretch, or update and then throw at
        the trailing `#resizemode(...)` call. */
    method ShapeSize(wid: Option<real>, len: Option<real>, ol: Option<real>) returns (r: ShapeSizeOutcome)
      modifies this`stretchfactor, this`outline
      ensures var step := StretchUpdate(old(stretchfactor), old(outline), wid, len, ol);
        stretchfactor == step.stretch && outline == step.outline && r == step.outcome
    {
      var step := StretchUpdate(stretchfactor, outline, wid, len, ol);
      stretchfactor, outline, r := step.stretch, step.outline, step.outcome;
    }

    /** `shapetransform`: read, reject a singular matrix, or store the new
        matrix and its decomposition into stretch factor, shear and tilt, and
        then throw at the trailing `#resizemode(...)` call. */
    method ShapeTransform(t11: Option<real>, t12: Option<real>, t21: Option<real>, t22: Option<real>)
      returns (r: TransformOutcome)
      requires Valid()
      modifies this`shapetrafo, this`stretchfactor, this`shear, this`tilt
      ensures var step := TransformUpdate(old(shapetrafo), t11, t12, t21, t22);
        && shapetrafo == step.m && r == step.outcome
        && (StoresMatrix(step) ==>
              Decomposition(stretchfactor, shear, tilt) == Decompose(shapetrafo, trig))
        && (!StoresMatrix(step) ==>
              stretchfactor == old(stretchfactor) && shear == old(shear) && tilt == old(tilt))
    {
      var step := TransformUpdate(shapetrafo, t11, t12, t21, t22);
      shapetrafo, r := step.m, step.outcome;
      if StoresMatrix(step) {
        var d := Decompose(shapetrafo, trig);
        stretchfactor, shear, tilt := d.stretch, d.shear, d.tilt;
      }
    }

    /** `onclick(fun, btn, add)`. */
    method OnClick(fun: ListenerArg, btn: int, add: bool)
      modifies this`clickListeners
      ensures clickListeners == OnClickTable(old(clickListeners), fun, btn, add)
    {
      if fun.NullListener? {
        clickListeners := map[];
      }
      if !add {
        clickListeners := map[];
      }
      if fun.Listener? {
        var current := if btn in clickListeners then clickListeners[btn] else [];
        clickListeners := clickListeners[btn := current + [fun.id]];
      }
    }

    /** `mode`: a missing or empty name reads the mode, any other sets it. */
    method Mode(m: Option<string>) returns (r: Option<string>)
      modifies this`mode
      ensures m.None? || m == Some("") ==> r == Some(old(mode)) && mode == old(mode)
      ensures m.Some? && m.value != "" ==> r.None? && mode == m.value
    {
      if m.None? || m == Some("") {
        r := Some(mode);
      } else {
        mode := m.value;
        r := None;
      }
    }

    /** `setworldcoordinates`: switch to world mode and install the window. */
    method SetWorldCoordinates(win: Window)
      requires Valid() && NonDegenerate(win)
      modifies this`mode, this`window
      ensures Valid()
      ensures mode == "world" && window == win
    {
      if mode != "world" {
        mode := "world";
      }
      window := win;
    }

    /** `convertTurtleCoordinate`: the canvas pixel of a world point, which
        `convertCanvasCoordinate` maps back to the point. */
    function ConvertTurtleCoordinate(p: Point): (c: Point)
      requires Valid()
      reads this
      ensures canvasW != 0.0 && canvasH != 0.0 ==> FromCanvas(window, canvasW, canvasH, originCode, c) == p
    {
      if canvasW != 0.0 && canvasH != 0.0 then
        CanvasRoundTrip(window, canvasW, canvasH, originCode, p, p);
        ToCanvas(window, canvasW, canvasH, originCode, p)
      else
        ToCanvas(window, canvasW, canvasH, originCode, p)
    }

    /** `convertCanvasCoordinate`: the world point of a canvas pixel, which
        `convertTurtleCoordinate` maps back to the pixel. */
    function ConvertCanvasCoordinate(c: Point): (p: Point)
      requires Valid() && canvasW != 0.0 && canvasH != 0.0
      reads this
      ensures ToCanvas(window, canvasW, canvasH, originCode, p) == c
    {
      CanvasRoundTrip(window, canvasW, canvasH, originCode, c, c);
      FromCanvas(window, canvasW, canvasH, originCode, c)
    }

    /** `turtleToCanvas`: a world displacement in pixels. */
    function TurtleToCanvas(d: Point): (e: Point)
      requires Valid()
      reads this
      ensures canvasW != 0.0 && canvasH != 0.0 ==> DeltaToTurtle(window, canvasW, canvasH, e) == d
    {
      if canvasW != 0.0 && canvasH != 0.0 then
        DeltaRoundTrip(window, canvasW, canvasH, d, d);
        DeltaToCanvas(window, canvasW, canvasH, d)
      else
        DeltaToCanvas(window, canvasW, canvasH, d)
    }

    /** `canvasToTurtle`: a pixel displacement in world units. */
    function CanvasToTurtle(e: Point): (d: Point)
      requires Valid() && canvasW != 0.0 && canvasH != 0.0
      reads this
      ensures DeltaToCanvas(window, canvasW, canvasH, d) == e
    {
      DeltaRoundTrip(window, canvasW, canvasH, e, e);
      DeltaToTurtle(window, canvasW, canvasH, e)
    }
  }
}
