/** The pure rules behind RawTurtle (src/index.js): how each operation changes
    the pose, the heading, the stamp list, the pen settings, the shape
    transform and the click listeners, and which draw calls a move emits.
    The class in module Turtle is proved against these functions. */
module TurtleLogic {
  import opened Vec2D
  import opened Coords

  /** The host's `Math.PI`, `Math.cos`, `Math.sin` and `Math.atan2`, left
      uninterpreted. */
  datatype Trig = Trig(pi: real, cos: real -> real, sin: real -> real, atan2: (real, real) -> real)

  function ToRad(deg: real, pi: real): real
  {
    deg * pi / 180.0
  }

  function ToDeg(rad: real, pi: real): real
    requires pi != 0.0
  {
    rad / pi * 180.0
  }

  datatype AngleMode = Degree | Radians

  /** `#fullcircle`. */
  function FullCircle(mode: AngleMode, pi: real): real
  {
    if mode == Degree then 360.0 else 2.0 * pi
  }

  /** Position and heading; the heading is kept in degrees. */
  datatype Pose = Pose(x: real, y: real, orient: real)

  function Location(p: Pose): Point
  {
    Point(p.x, p.y)
  }

  // ---------------------------------------------------------------- motion

  /** `forward`: step along the heading; the vertical coordinate decreases by
      the sine, as the source writes it. */
  function ForwardPose(p: Pose, distance: real, t: Trig): Pose
  {
    Pose(p.x + t.cos(ToRad(p.orient, t.pi)) * distance,
         p.y - t.sin(ToRad(p.orient, t.pi)) * distance,
         p.orient)
  }

  /** `back(d)` is `forward(-d)`: it returns to where `forward(d)` started,
      whatever cosine and sine the host supplies, and neither moves the heading. */
  lemma BackUndoesForward(p: Pose, d: real, t: Trig)
    ensures ForwardPose(p, d, t).orient == p.orient
    ensures ForwardPose(ForwardPose(p, d, t), -d, t) == p
    ensures ForwardPose(p, 0.0, t) == p
  {
  }

  /** The public `orient` setter: normalise the angle, first converting it
      with `toRad` in radians mode. */
  function SetOrient(mode: AngleMode, angle: real, pi: real): real
  {
    if mode == Degree then Normalize(angle) else Normalize(ToRad(angle, pi))
  }

  /** The public `orient` getter, used by `heading()`. */
  function GetOrient(mode: AngleMode, orient: real, pi: real): real
  {
    if mode == Degree then orient else ToRad(orient, pi)
  }

  /** `left(angle)`: subtract the angle (converted with `toRad` in radians
      mode) from the stored heading and normalise. */
  function LeftOrient(mode: AngleMode, orient: real, angle: real, pi: real): real
  {
    if mode == Degree then Normalize(orient - angle) else Normalize(orient - ToRad(angle, pi))
  }

  /** In degree mode `left(a)` leaves a heading of magnitude below 360, with
      the sign of `h - a`, a whole number of turns away from `h - a`. */
  lemma LeftHeadingRange(h: real, a: real, pi: real)
    ensures -360.0 < LeftOrient(Degree, h, a, pi) < 360.0
    ensures h - a >= 0.0 ==> LeftOrient(Degree, h, a, pi) >= 0.0
    ensures h - a <= 0.0 ==> LeftOrient(Degree, h, a, pi) <= 0.0
    ensures IsWholeTurns(h - a - LeftOrient(Degree, h, a, pi))
  {
    NormalizeLaws(h - a);
  }

  /** `right(a)` is `left(-a)`, so turning left and then right by the same
      angle restores the heading up to whole turns, in either angle mode. */
  lemma {:induction false} LeftThenRightRestoresHeading(mode: AngleMode, h: real, a: real, pi: real)
    ensures IsWholeTurns(LeftOrient(mode, LeftOrient(mode, h, a, pi), -a, pi) - h)
  {
    var d := if mode == Degree then a else ToRad(a, pi);
    assert mode == Radians ==> ToRad(-a, pi) == -d;
    var h1 := LeftOrient(mode, h, a, pi);
    var h2 := LeftOrient(mode, h1, -a, pi);
    assert h1 == Normalize(h - d);
    assert h2 == Normalize(h1 + d);
    NormalizeLaws(h - d);
    NormalizeLaws(h1 + d);
    WholeTurnsAdd(h - d - h1, h1 + d - h2);
    assert (h - d - h1) + (h1 + d - h2) == h - h2;
    NegatedWholeTurns(h - h2);
  }

  lemma NegatedWholeTurns(d: real)
    requires IsWholeTurns(d)
    ensures IsWholeTurns(-d)
  {
    var i := (d / 360.0).Floor;
    var q := d / 360.0;
    assert q == i as real;
    assert -d / 360.0 == -q;
    assert ((-i) as real).Floor == -i;
  }

  /** `home` and `setheading(0)` leave the heading at exactly 0 in either mode. */
  lemma HomeHeadingIsZero(mode: AngleMode, pi: real)
    ensures SetOrient(mode, 0.0, pi) == 0.0
  {
    NormalizeLaws(0.0);
  }

  /** `setheading(a)` in degree mode keeps an angle of magnitude below 360 and
      otherwise stores it modulo 360, JavaScript style. */
  lemma SetHeadingDegrees(a: real, pi: real)
    ensures -360.0 < SetOrient(Degree, a, pi) < 360.0
    ensures IsWholeTurns(a - SetOrient(Degree, a, pi))
    ensures -360.0 < a < 360.0 ==> SetOrient(Degree, a, pi) == a
  {
    NormalizeLaws(a);
  }

  /** The point that `goto(x, y)` and `distance(x, y)` take from their
      arguments, through the local `normalizeArgs` of src/index.js:
      `undefined` or `null` as the first argument throws, and non-numeric
      components are not a point. */
  datatype PointArg = Target(p: Point) | TargetThrows | NonNumericTarget

  function PointArgOf(x: JsValue, y: JsValue): PointArg
  {
    match LocalNormalizeArgs(x, y)
    case PropertyOfNothing => TargetThrows
    case Args(a, b) => if a.Num? && b.Num? then Target(Point(a.n, b.n)) else NonNumericTarget
  }

  /** `goto` accepts two numbers or one pair; it throws on a missing first
      argument, and an `{x, y}` object that is not also a pair is not a target,
      because the local `normalizeArgs` has no branch for it. */
  lemma GotoArguments(a: real, b: real, y: JsValue)
    ensures PointArgOf(Num(a), Num(b)) == Target(Point(a, b))
    ensures PointArgOf(Obj(None, None, [a, b]), Undefined) == Target(Point(a, b))
    ensures PointArgOf(AsJsValue(Vec(a, b)), Undefined) == Target(Point(a, b))
    ensures PointArgOf(Undefined, y) == TargetThrows && PointArgOf(Null, y) == TargetThrows
    ensures PointArgOf(Obj(Some(a), Some(b), []), Undefined) == NonNumericTarget
    ensures PointArgOf(Num(a), Undefined) == NonNumericTarget
  {
  }

  /** The point `distance(x0, y0)` measures from: the arguments go through
      the local `normalizeArgs`, then into `new Vec2D([x, y])`, whose own
      `normalizeArgs` keeps the pair only when both are defined (otherwise
      both components are `NaN`); `substract` then coerces each component
      with `ToNumber`. `None` is a result with a `NaN` component. */
  function DistancePoint(x0: JsValue, y0: JsValue): Option<Point>
  {
    match LocalNormalizeArgs(x0, y0)
    case PropertyOfNothing => None
    case Args(a, b) =>
      if a == Undefined || b == Undefined then None
      else if ToNumber(a).Some? && ToNumber(b).Some? then Some(Point(ToNumber(a).value, ToNumber(b).value))
      else None
  }

  /** `distance` measures from every point `goto` accepts, and also from
      the values JavaScript's subtraction coerces: `null` counts as 0 and a
      one-element array as its element; an omitted second coordinate gives
      no number. */
  lemma DistanceArguments(x0: JsValue, y0: JsValue, a: real, b: real)
    ensures PointArgOf(x0, y0).Target? ==> DistancePoint(x0, y0) == Some(PointArgOf(x0, y0).p)
    ensures DistancePoint(Num(a), Null) == Some(Point(a, 0.0))
    ensures DistancePoint(Obj(None, None, [a]), Num(b)) == Some(Point(a, b))
    ensures DistancePoint(Num(a), Undefined) == None
    ensures x0 == Undefined || x0 == Null ==> DistancePoint(x0, y0) == None
  {
  }

  /** The turn in `circle`'s loop, `orient = toDeg(toRad(orient) * w2)`,
      through the public getter and setter. */
  function ScaledHeading(mode: AngleMode, orient: real, w2: real, pi: real): real
    requires pi != 0.0
  {
    SetOrient(mode, ToDeg(ToRad(GetOrient(mode, orient, pi), pi) * w2, pi), pi)
  }

  lemma DegreesRoundTrip(d: real, pi: real)
    requires pi != 0.0
    ensures ToDeg(ToRad(d, pi), pi) == d
  {
    assert d * pi / 180.0 / pi == d / 180.0;
  }

  /** In degree mode a turn by a factor of one only normalises the heading:
      `toDeg` undoes `toRad`. */
  lemma ScaledHeadingByOne(o: real, pi: real)
    requires pi != 0.0
    ensures ScaledHeading(Degree, o, 1.0, pi) == Normalize(o)
  {
    DegreesRoundTrip(o, pi);
  }

  // ---------------------------------------------------------------- circle

  function MinReal(a: real, b: real): real
  {
    if a <= b then a else b
  }

  /** The factor `min(11 + |radius| / 6, 59)` of the default step count. */
  function CircleFactor(radius: real): real
  {
    MinReal(11.0 + AbsReal(radius) / 6.0, 59.0)
  }

  /** One plus the floor of `factor * magnitude / fullcircle`. */
  function StepsFor(factor: real, magnitude: real, fullcircle: real): int
    requires fullcircle > 0.0
  {
    1 + (factor * magnitude / fullcircle).Floor
  }

  /** The default step count of `circle`:
      `1 + parseInt(min(11 + |radius| / 6, 59) * |extent| / fullcircle)`,
      with `parseInt` of a non-negative number read as its floor. */
  function CircleSteps(radius: real, extent: real, fullcircle: real): int
    requires fullcircle > 0.0
  {
    StepsFor(CircleFactor(radius), AbsReal(extent), fullcircle)
  }

  /** The factor lies between 11 and 59 and grows with the radius's magnitude. */
  lemma CircleFactorRange(r1: real, r2: real)
    requires AbsReal(r1) <= AbsReal(r2)
    ensures 11.0 <= CircleFactor(r1) <= CircleFactor(r2) <= 59.0
  {
  }

  lemma StepsForMonotone(a: real, b: real, c: real, d: real, f: real)
    requires 0.0 <= a <= b && 0.0 <= c <= d && f > 0.0
    ensures 1 <= StepsFor(a, c, f) <= StepsFor(b, d, f)
  {
    assert a * c <= b * c;
    assert b * c <= b * d;
    assert 0.0 <= a * c;
    assert a * c / f <= b * d / f;
  }

  /** The default step count is at least 1, grows (weakly) with the radius's
      magnitude and with the extent's, and never exceeds `1 + 59 * |extent| /
      fullcircle`. */
  lemma {:induction false} CircleStepsBounds(r1: real, r2: real, e1: real, e2: real, full: real)
    requires full > 0.0
    requires AbsReal(r1) <= AbsReal(r2) && AbsReal(e1) <= AbsReal(e2)
    ensures CircleSteps(r1, e1, full) >= 1
    ensures CircleSteps(r1, e1, full) <= CircleSteps(r2, e2, full)
    ensures CircleSteps(r1, e1, full) <= StepsFor(59.0, AbsReal(e1), full)
  {
    CircleFactorRange(r1, r2);
    StepsForMonotone(CircleFactor(r1), CircleFactor(r2), AbsReal(e1), AbsReal(e2), full);
    StepsForMonotone(CircleFactor(r1), 59.0, AbsReal(e1), AbsReal(e1), full);
  }

  /** A full circle of radius 60 takes 22 steps in either angle mode:
      `min(11 + 10, 59) = 21`, times one full turn, plus one. */
  lemma CircleStepsRadius60(pi: real)
    requires pi > 0.0
    ensures CircleSteps(60.0, 360.0, 360.0) == 22
    ensures CircleSteps(60.0, 2.0 * pi, 2.0 * pi) == 22
  {
    assert CircleFactor(60.0) == 21.0;
    assert 21.0 * (2.0 * pi) / (2.0 * pi) == 21.0;
  }

  // ---------------------------------------------------------------- stamps

  /** A stamp handle, as the canvas returns it from `drawShape`. */
  type Handle = nat

  /** `Array.prototype.indexOf`: the first position of `h`, or -1. */
  function IndexOf(s: seq<Handle>, h: Handle): (i: int)
    ensures -1 <= i < |s|
    ensures i == -1 <==> h !in s
    ensures i >= 0 ==> s[i] == h && h !in s[..i]
  {
    if s == [] then -1
    else if s[0] == h then 0
    else
      var j := IndexOf(s[1..], h);
      assert j >= 0 ==> s[1..][..j] == s[1..j + 1];
      if j == -1 then -1 else j + 1
  }

  /** What `splice` leaves in the array and what it returns. */
  datatype Spliced = Spliced(kept: seq<Handle>, removed: seq<Handle>)

  /** `Array.prototype.splice(start, deleteCount)`: a negative start counts
      from the end, and both arguments are clamped to the array. */
  function Splice(s: seq<Handle>, start: int, deleteCount: int): Spliced
  {
    var a := if start < 0 then (if |s| + start < 0 then 0 else |s| + start)
             else (if start < |s| then start else |s|);
    var c := if deleteCount < 0 then 0 else if deleteCount < |s| - a then deleteCount else |s| - a;
    Spliced(s[..a] + s[a + c..], s[a..a + c])
  }

  /** `clearstamp(id)`: `splice(indexOf(id), 1)`. */
  function ClearStampList(s: seq<Handle>, id: Handle): seq<Handle>
  {
    Splice(s, IndexOf(s, id), 1).kept
  }

  /** `clearstamps(n)`: `splice(n < 0 ? n : 0, n)`, where `splice` truncates
      both arguments toward zero; an omitted `n` reads as a delete count of 0. */
  function ClearStampsSplice(s: seq<Handle>, n: Option<real>): Spliced
  {
    match n
    case None => Splice(s, 0, 0)
    case Some(k) => Splice(s, if k < 0.0 then Trunc(k) else 0, Trunc(k))
  }

  /** `clearstamp` of a stamp in the list removes its first occurrence and
      nothing else. */
  lemma ClearStampRemovesIt(s: seq<Handle>, id: Handle)
    requires id in s
    ensures var i := IndexOf(s, id);
      ClearStampList(s, id) == s[..i] + s[i + 1..] && multiset(ClearStampList(s, id)) == multiset(s) - multiset{id}
  {
    var i := IndexOf(s, id);
    SpliceOne(s, i);
    MultisetWithout(s, i);
  }

  lemma MultisetWithout(s: seq<Handle>, i: int)
    requires 0 <= i < |s|
    ensures multiset(s[..i] + s[i + 1..]) == multiset(s) - multiset{s[i]}
  {
    assert s == s[..i] + [s[i]] + s[i + 1..];
  }

  lemma SpliceOne(s: seq<Handle>, i: int)
    requires 0 <= i < |s|
    ensures Splice(s, i, 1) == Spliced(s[..i] + s[i + 1..], [s[i]])
  {
  }

  /** `clearstamp` of an id that is not in the list removes the newest stamp,
      because `indexOf` returns -1 and `splice(-1, 1)` takes the last element. */
  lemma ClearStampOfUnknownDropsNewest(s: seq<Handle>, id: Handle)
    requires id !in s && s != []
    ensures ClearStampList(s, id) == s[..|s| - 1]
  {
  }

  /** Clearing a freshly pushed stamp undoes `stamp`. */
  lemma StampThenClearStamp(s: seq<Handle>, h: Handle)
    requires h !in s
    ensures ClearStampList(s + [h], h) == s
  {
    assert IndexOf(s + [h], h) == |s|;
  }

  /** `clearstamps(n)` with `n >= 1` removes the `min(t, len)` oldest stamps,
      `t` being `n` truncated, and keeps the rest in order; with `n < 1` or no
      `n` it removes nothing. */
  lemma ClearStampsRemovesOldest(s: seq<Handle>, n: Option<real>)
    ensures n.Some? && n.value >= 1.0 ==>
      var t := Trunc(n.value);
      t >= 1 && t as real <= n.value < t as real + 1.0 &&
      var m := if t < |s| then t else |s|;
      ClearStampsSplice(s, n) == Spliced(s[m..], s[..m])
    ensures n.None? || n.value < 1.0 ==> ClearStampsSplice(s, n) == Spliced(s, [])
  {
    if n.Some? {
      var t := Trunc(n.value);
      if n.value < 0.0 {
        assert Splice(s, t, t).removed == [];
      } else if n.value < 1.0 {
        assert t == 0;
      }
    }
  }

  // ---------------------------------------------------------------- drawing

  /** The drawing surface as the turtle sees it: its world window, the
      canvas size and the canvas's origin code. */
  datatype Surface = Surface(win: Window, w: real, h: real, code: string)

  /** The draw calls the turtle makes on its canvas. */
  datatype DrawCall =
    | Line(from: Point, to: Point, color: string, width: real)
    | PlaceShape(at: Point, shape: string, rotate: real)
    | RemoveShape(id: Handle)

  function CanvasPoint(s: Surface, p: Point): Point
    requires NonDegenerate(s.win)
  {
    ToCanvas(s.win, s.w, s.h, s.code, p)
  }

  /** `#move`: a line from the old to the new position, converted to canvas
      pixels, when the pen is down; then the pen marker redrawn at the new pose. */
  function MoveEvents(s: Surface, before: Point, after: Pose, down: bool, color: string,
                      width: real, pen: string, pi: real): seq<DrawCall>
    requires NonDegenerate(s.win)
  {
    (if down then [Line(CanvasPoint(s, before), CanvasPoint(s, Location(after)), color, width)] else [])
    + [PlaceShape(CanvasPoint(s, Location(after)), pen, ToRad(after.orient, pi))]
  }

  function LineCount(log: seq<DrawCall>): nat
  {
    if log == [] then 0 else LineCount(log[..|log| - 1]) + (if log[|log| - 1].Line? then 1 else 0)
  }

  /** A move emits exactly one line iff the pen is down, from the converted
      old position to the converted new one in the pen's colour and width, and
      always ends by redrawing the pen marker at the new pose. */
  lemma MoveDrawsLineIffPenDown(s: Surface, before: Point, after: Pose, down: bool, color: string,
                                width: real, pen: string, pi: real)
    requires NonDegenerate(s.win)
    ensures var ev := MoveEvents(s, before, after, down, color, width, pen, pi);
      && LineCount(ev) == (if down then 1 else 0)
      && (down ==> ev[0] == Line(CanvasPoint(s, before), CanvasPoint(s, Location(after)), color, width))
      && ev[|ev| - 1] == PlaceShape(CanvasPoint(s, Location(after)), pen, ToRad(after.orient, pi))
  {
    var ev := MoveEvents(s, before, after, down, color, width, pen, pi);
    if down {
      assert ev[..1] == [ev[0]];
      assert LineCount(ev[..1]) == 1;
    } else {
      assert LineCount(ev[..0]) == 0;
    }
  }

  /** The `RemoveShape` calls `clearstamps` makes, in the order it made them. */
  function RemovalEvents(ids: seq<Handle>): (r: seq<DrawCall>)
    ensures |r| == |ids| && forall i :: 0 <= i < |ids| ==> r[i] == RemoveShape(ids[i])
  {
    if ids == [] then [] else RemovalEvents(ids[..|ids| - 1]) + [RemoveShape(ids[|ids| - 1])]
  }

  // ---------------------------------------------------------------- pen

  /** The settings `pen()` reads and writes. */
  datatype PenState = PenState(
    shown: bool,
    pendown: bool,
    pencolor: string,
    fillcolor: Option<string>,
    pensize: real,
    speed: Option<real>,
    resizemode: Option<string>,
    stretchfactor: (real, real),
    outline: Option<real>,
    tilt: real)

  /** One dictionary passed to `pen()`; `None` is an undefined entry. */
  datatype PenDict = PenDict(
    shown: Option<bool>,
    pendown: Option<bool>,
    pencolor: Option<string>,
    fillcolor: Option<string>,
    pensize: Option<real>,
    speed: Option<real>,
    resizemode: Option<string>,
    stretchfactor: Option<(real, real)>,
    outline: Option<real>,
    tilt: Option<real>)

  /** An argument of `pen()`: a dictionary, or `null`/`undefined`, which
      cannot be destructured. */
  datatype PenArg = Dict(dict: PenDict) | Nullish

  /** The state after some dictionaries, and whether one of them threw. */
  datatype PenRun = PenRun(state: PenState, threw: bool)

  function Pick<T>(o: Option<T>, current: T): T
  {
    if o.Some? then o.value else current
  }

  /** The resize modes whose setter branch calls the missing
      `this.modifyShape`, so that assigning them throws a TypeError. */
  predicate ThrowingResizeMode(d: PenDict)
  {
    d.resizemode.Some? && d.resizemode.value in {"auto", "user", "noresize"}
  }

  /** One step of the `reduce` in `pen()`: the defined entries are assigned in
      source order; assigning a throwing resize mode stops after that write. */
  function ApplyPenDict(s: PenState, d: PenDict): PenRun
  {
    var s1 := s.(shown := Pick(d.shown, s.shown), pendown := Pick(d.pendown, s.pendown),
                 pencolor := Pick(d.pencolor, s.pencolor),
                 fillcolor := if d.fillcolor.Some? then d.fillcolor else s.fillcolor,
                 pensize := Pick(d.pensize, s.pensize),
                 speed := if d.speed.Some? then d.speed else s.speed,
                 resizemode := if d.resizemode.Some? then d.resizemode else s.resizemode);
    if ThrowingResizeMode(d) then PenRun(s1, true)
    else PenRun(s1.(stretchfactor := Pick(d.stretchfactor, s.stretchfactor),
                    outline := if d.outline.Some? then d.outline else s.outline,
                    tilt := Pick(d.tilt, s.tilt)), false)
  }

  /** One argument of `pen()`: a `null` or `undefined` argument throws a
      TypeError at the destructuring, before any setting is written. */
  function ApplyPenArg(s: PenState, a: PenArg): PenRun
  {
    match a
    case Dict(d) => ApplyPenDict(s, d)
    case Nullish => PenRun(s, true)
  }

  /** The arguments that make `pen()` throw. */
  predicate ThrowingArg(a: PenArg)
  {
    a.Nullish? || ThrowingResizeMode(a.dict)
  }

  /** `pen(...dicts)`: the dictionaries applied left to right, stopping at
      the first throw. */
  function PenFold(s: PenState, ds: seq<PenArg>): PenRun
  {
    if ds == [] then PenRun(s, false)
    else
      var prev := PenFold(s, ds[..|ds| - 1]);
      if prev.threw then prev else ApplyPenArg(prev.state, ds[|ds| - 1])
  }

  /** The entry `given` of an argument; `null` and `undefined` define none. */
  function Entry<T>(a: PenArg, given: PenDict -> Option<T>): Option<T>
  {
    if a.Dict? then given(a.dict) else None
  }

  /** The value the last dictionary that defines the entry `given` sets, or
      `current` when none defines it. */
  function LastGiven<T>(ds: seq<PenArg>, given: PenDict -> Option<T>, current: T): T
  {
    if ds == [] then current
    else if Entry(ds[|ds| - 1], given).Some? then Entry(ds[|ds| - 1], given).value
    else LastGiven(ds[..|ds| - 1], given, current)
  }

  /** `LastGiven` is what its name says: `current` when no dictionary
      defines the entry, otherwise the value of the last one that does. */
  lemma {:induction false} LastGivenIsLast<T>(ds: seq<PenArg>, given: PenDict -> Option<T>, current: T, i: int)
    ensures (forall k :: 0 <= k < |ds| ==> Entry(ds[k], given).None?) ==> LastGiven(ds, given, current) == current
    ensures 0 <= i < |ds| && Entry(ds[i], given).Some? && (forall j :: i < j < |ds| ==> Entry(ds[j], given).None?) ==>
              LastGiven(ds, given, current) == Entry(ds[i], given).value
  {
    if ds != [] {
      var init := ds[..|ds| - 1];
      LastGivenIsLast(init, given, current, i);
      assert forall k :: 0 <= k < |init| ==> init[k] == ds[k];
    }
  }

  /** An optional entry as a setting of an optional field: defined exactly
      when the entry is. */
  function Defined<T>(o: Option<T>): Option<Option<T>>
  {
    if o.Some? then Some(o) else None
  }

  /** Later dictionaries win: after a `pen()` call that did not throw, every
      setting is the one the last dictionary defining it gave, or the one the
      turtle had when no dictionary defines it. */
  lemma {:induction false} PenLaterDictsWin(s: PenState, ds: seq<PenArg>)
    requires !PenFold(s, ds).threw
    ensures PenFold(s, ds).state.shown == LastGiven(ds, (d: PenDict) => d.shown, s.shown)
    ensures PenFold(s, ds).state.pendown == LastGiven(ds, (d: PenDict) => d.pendown, s.pendown)
    ensures PenFold(s, ds).state.pencolor == LastGiven(ds, (d: PenDict) => d.pencolor, s.pencolor)
    ensures PenFold(s, ds).state.fillcolor == LastGiven(ds, (d: PenDict) => Defined(d.fillcolor), s.fillcolor)
    ensures PenFold(s, ds).state.pensize == LastGiven(ds, (d: PenDict) => d.pensize, s.pensize)
    ensures PenFold(s, ds).state.speed == LastGiven(ds, (d: PenDict) => Defined(d.speed), s.speed)
    ensures PenFold(s, ds).state.resizemode == LastGiven(ds, (d: PenDict) => Defined(d.resizemode), s.resizemode)
    ensures PenFold(s, ds).state.stretchfactor == LastGiven(ds, (d: PenDict) => d.stretchfactor, s.stretchfactor)
    ensures PenFold(s, ds).state.outline == LastGiven(ds, (d: PenDict) => Defined(d.outline), s.outline)
    ensures PenFold(s, ds).state.tilt == LastGiven(ds, (d: PenDict) => d.tilt, s.tilt)
  {
    if ds != [] {
      var init, last := ds[..|ds| - 1], ds[|ds| - 1];
      PenLaterDictsWin(s, init);
      var prev := PenFold(s, init).state;
      assert PenFold(s, ds) == ApplyPenDict(prev, last.dict);
      ApplyPenDictOverlays(prev, last.dict);
    }
  }

  /** A dictionary that does not throw overwrites exactly its defined entries. */
  lemma ApplyPenDictOverlays(s: PenState, d: PenDict)
    requires !ApplyPenDict(s, d).threw
    ensures var p := ApplyPenDict(s, d).state;
      && p.shown == Pick(d.shown, s.shown) && p.pendown == Pick(d.pendown, s.pendown)
      && p.pencolor == Pick(d.pencolor, s.pencolor) && p.fillcolor == Pick(Defined(d.fillcolor), s.fillcolor)
      && p.pensize == Pick(d.pensize, s.pensize) && p.speed == Pick(Defined(d.speed), s.speed)
      && p.resizemode == Pick(Defined(d.resizemode), s.resizemode)
      && p.stretchfactor == Pick(d.stretchfactor, s.stretchfactor)
      && p.outline == Pick(Defined(d.outline), s.outline) && p.tilt == Pick(d.tilt, s.tilt)
  {
  }

  /** `pen()` throws exactly when one of its arguments is `null` or
      `undefined` or sets a throwing resize mode. */
  lemma {:induction false} PenThrowsIffThrowingArg(s: PenState, ds: seq<PenArg>)
    ensures PenFold(s, ds).threw <==> exists i :: 0 <= i < |ds| && ThrowingArg(ds[i])
  {
    if ds != [] {
      var init := ds[..|ds| - 1];
      PenThrowsIffThrowingArg(s, init);
      if exists i :: 0 <= i < |init| && ThrowingArg(init[i]) {
        var i :| 0 <= i < |init| && ThrowingArg(init[i]);
        assert ds[i] == init[i];
      }
      if exists i :: 0 <= i < |ds| && ThrowingArg(ds[i]) {
        var i :| 0 <= i < |ds| && ThrowingArg(ds[i]);
        if i < |init| {
          assert init[i] == ds[i];
        }
      }
    }
  }

  /** Once a prefix has thrown, the later dictionaries are never applied. */
  lemma {:induction false} PenFoldStopsAtThrow(s: PenState, ds: seq<PenArg>, i: nat)
    requires i <= |ds| && PenFold(s, ds[..i]).threw
    ensures PenFold(s, ds) == PenFold(s, ds[..i])
    decreases |ds| - i
  {
    if i < |ds| {
      assert ds[..i + 1][..i] == ds[..i];
      PenFoldStopsAtThrow(s, ds, i + 1);
    } else {
      assert ds[..i] == ds;
    }
  }

  /** A `null` or `undefined` argument throws with the settings the earlier
      dictionaries wrote, and no later dictionary is applied. */
  lemma {:induction false} PenStopsAtNullish(s: PenState, ds: seq<PenArg>, i: nat)
    requires i < |ds| && ds[i].Nullish?
    ensures PenFold(s, ds) == PenRun(PenFold(s, ds[..i]).state, true)
  {
    assert ds[..i + 1][..i] == ds[..i];
    PenFoldStopsAtThrow(s, ds, i + 1);
  }

  // ---------------------------------------------------------------- shape

  /** The stretch factors and outline `shapesize` leaves, and what it does:
      report them, reject a zero stretch, or throw at the trailing
      `this.#resizemode(...)` call after its writes. */
  datatype ShapeSizeOutcome = CurrentSize(wid: real, len: real, outline: Option<real>) | SizeThrew(f: Failure)

  datatype Failure = ZeroStretch | SingularTransform | NotAFunction(name: string)

  datatype ShapeSizeStep = ShapeSizeStep(stretch: (real, real), outline: Option<real>, outcome: ShapeSizeOutcome)

  function StretchUpdate(stretch: (real, real), outline: Option<real>,
                     wid: Option<real>, len: Option<real>, ol: Option<real>): ShapeSizeStep
  {
    if wid.None? && len.None? && ol.None? then
      ShapeSizeStep(stretch, outline, CurrentSize(stretch.0, stretch.1, outline))
    else if wid == Some(0.0) || len == Some(0.0) then
      ShapeSizeStep(stretch, outline, SizeThrew(ZeroStretch))
    else
      ShapeSizeStep((Pick(wid, stretch.0), Pick(len, Pick(wid, stretch.1))),
                    if ol.Some? then ol else outline,
                    SizeThrew(NotAFunction("#resizemode")))
  }

  /** `shapesize` rejects a zero stretch without writing anything; otherwise
      an omitted `stretch_len` takes the new `stretch_wid`, an omitted value
      keeps the stored one, and the call ends by throwing. */
  lemma ShapeSizeRules(stretch: (real, real), outline: Option<real>,
                       wid: Option<real>, len: Option<real>, ol: Option<real>)
    ensures var r := StretchUpdate(stretch, outline, wid, len, ol);
      && (wid == Some(0.0) || len == Some(0.0) ==> r == ShapeSizeStep(stretch, outline, SizeThrew(ZeroStretch)))
      && (wid.Some? && wid.value != 0.0 && len.None? ==> r.stretch == (wid.value, wid.value))
      && (wid.None? && len.Some? && len.value != 0.0 ==> r.stretch == (stretch.0, len.value))
      && ((wid.Some? || len.Some? || ol.Some?) ==> r.outcome.SizeThrew?)
      && (wid.None? && len.None? && ol.None? ==> r.outcome == CurrentSize(stretch.0, stretch.1, outline))
  {
  }

  datatype Matrix = Matrix(m11: real, m12: real, m21: real, m22: real)

  function Det(m: Matrix): real
  {
    m.m11 * m.m22 - m.m12 * m.m21
  }

  /** The matrix `shapetransform` stores at construction. */
  const InitialTransform := Matrix(1.0, 1.0, 1.0, 1.0)

  datatype TransformOutcome = CurrentTransform(m: Matrix) | TransformThrew(f: Failure)
  datatype TransformStep = TransformStep(m: Matrix, outcome: TransformOutcome)

  /** `shapetransform`: no argument reports the matrix; otherwise omitted
      entries keep their stored values, a singular result is rejected, and a
      regular one is stored before the trailing `#resizemode(...)` call throws. */
  function TransformUpdate(m: Matrix, t11: Option<real>, t12: Option<real>,
                          t21: Option<real>, t22: Option<real>): TransformStep
  {
    if t11.None? && t12.None? && t21.None? && t22.None? then TransformStep(m, CurrentTransform(m))
    else
      var n := Matrix(Pick(t11, m.m11), Pick(t12, m.m12), Pick(t21, m.m21), Pick(t22, m.m22));
      if Det(n) == 0.0 then TransformStep(m, TransformThrew(SingularTransform))
      else TransformStep(n, TransformThrew(NotAFunction("#resizemode")))
  }

  /** A singular matrix leaves the stored matrix as it was; a regular one
      replaces exactly the entries given; and the stored matrix stays regular
      once it is. */
  lemma {:induction false} ShapeTransformKeepsRegular(m: Matrix, t11: Option<real>, t12: Option<real>,
                                                      t21: Option<real>, t22: Option<real>)
    ensures var r := TransformUpdate(m, t11, t12, t21, t22);
      && (r.outcome == TransformThrew(SingularTransform) ==> r.m == m)
      && (r.m != m ==> Det(r.m) != 0.0)
      && (Det(m) != 0.0 ==> Det(r.m) != 0.0)
      && (r.outcome.TransformThrew? && r.outcome.f != SingularTransform ==>
            r.m == Matrix(Pick(t11, m.m11), Pick(t12, m.m12), Pick(t21, m.m21), Pick(t22, m.m22)))
  {
  }

  /** The matrix a turtle starts with is itself singular, so setting only
      `t11 = 1` on a new turtle is rejected. */
  lemma InitialTransformIsSingular()
    ensures Det(InitialTransform) == 0.0
    ensures TransformUpdate(InitialTransform, Some(1.0), None, None, None)
            == TransformStep(InitialTransform, TransformThrew(SingularTransform))
  {
  }

  /** `shapetransform` stores a matrix exactly when it is regular. */
  predicate StoresMatrix(step: TransformStep)
  {
    step.outcome.TransformThrew? && step.outcome.f != SingularTransform
  }

  /** What `shapetransform` writes once a regular matrix is stored: the
      stretch factor, the shear (`None` where JavaScript divides by zero and
      gets a non-finite number) and the tilt. */
  datatype Decomposition = Decomposition(stretch: (real, real), shear: Option<real>, tilt: real)

  /** `m` rotated by the angle whose sine and cosine are `sa` and `ca`. */
  function Rotated(m: Matrix, sa: real, ca: real): Matrix
  {
    Matrix(ca * m.m11 - sa * m.m21, ca * m.m12 - sa * m.m22,
           sa * m.m11 + ca * m.m21, sa * m.m12 + ca * m.m22)
  }

  /** `atan2(-m21, m11) % PI_2`, the tilt of `m`. */
  function TiltOf(m: Matrix, t: Trig): (r: real)
    requires t.pi > 0.0
    ensures -2.0 * t.pi < r < 2.0 * t.pi
  {
    RemainderLaws(t.atan2(-m.m21, m.m11), 2.0 * t.pi);
    Remainder(t.atan2(-m.m21, m.m11), 2.0 * t.pi)
  }

  /** The decomposition of a stored matrix: rotate it back by its tilt, take
      the diagonal as the stretch factor and `a12 / a22` as the shear. */
  function Decompose(m: Matrix, t: Trig): Decomposition
    requires t.pi > 0.0
  {
    var alfa := TiltOf(m, t);
    var a := Rotated(m, t.sin(alfa), t.cos(alfa));
    Decomposition((a.m11, a.m22), if a.m22 == 0.0 then None else Some(a.m12 / a.m22), alfa)
  }

  /** A rotation scales the determinant by `sin² + cos²`. */
  lemma RotatedDeterminant(m: Matrix, sa: real, ca: real)
    ensures Det(Rotated(m, sa, ca)) == (sa * sa + ca * ca) * Det(m)
  {
    var a := Rotated(m, sa, ca);
    calc {
      Det(a);
      (ca * m.m11 - sa * m.m21) * (sa * m.m12 + ca * m.m22) - (ca * m.m12 - sa * m.m22) * (sa * m.m11 + ca * m.m21);
      ca * ca * (m.m11 * m.m22 - m.m12 * m.m21) + sa * sa * (m.m11 * m.m22 - m.m12 * m.m21);
    }
  }

  /** When the host's sine and cosine of the tilt are those of a true
      rotation that clears the lower-left entry, the stretch factors multiply
      to the determinant of the stored matrix, so for a regular matrix both
      are non-zero and the shear is a number; the tilt is below a full turn. */
  lemma DecomposeKeepsArea(m: Matrix, t: Trig)
    requires t.pi > 0.0
    requires t.sin(TiltOf(m, t)) * t.sin(TiltOf(m, t)) + t.cos(TiltOf(m, t)) * t.cos(TiltOf(m, t)) == 1.0
    requires t.sin(TiltOf(m, t)) * m.m11 + t.cos(TiltOf(m, t)) * m.m21 == 0.0
    ensures Decompose(m, t).stretch.0 * Decompose(m, t).stretch.1 == Det(m)
    ensures Det(m) != 0.0 ==> Decompose(m, t).shear.Some? && Decompose(m, t).stretch.0 != 0.0
    ensures -2.0 * t.pi < Decompose(m, t).tilt < 2.0 * t.pi
  {
    var alfa := TiltOf(m, t);
    var sa, ca := t.sin(alfa), t.cos(alfa);
    RotatedDeterminant(m, sa, ca);
    var a := Rotated(m, sa, ca);
    assert a.m21 == 0.0;
    assert Det(a) == a.m11 * a.m22;
  }

  // ---------------------------------------------------------------- events

  /** The `fun` argument of `onclick`: `null`, a function, or anything else. */
  datatype ListenerArg = NullListener | Listener(id: nat) | NotAListener

  /** `onclick(fun, btn, add)` on the click table, keyed by button number:
      `null` or a missing `add === true` starts from an empty table; a
      function is then appended under its button. */
  function OnClickTable(t: map<int, seq<nat>>, fun: ListenerArg, btn: int, add: bool): map<int, seq<nat>>
  {
    var base := if fun.NullListener? || !add then map[] else t;
    if fun.Listener? then base[btn := (if btn in base then base[btn] else []) + [fun.id]]
    else base
  }

  /** Without `add` a function replaces the whole table; with `add` it is
      appended under its button and every other button keeps its list; `null`
      clears the table. */
  lemma OnClickRules(t: map<int, seq<nat>>, f: nat, btn: int)
    ensures OnClickTable(t, Listener(f), btn, false) == map[btn := [f]]
    ensures var r := OnClickTable(t, Listener(f), btn, true);
      && r.Keys == t.Keys + {btn}
      && r[btn] == (if btn in t then t[btn] else []) + [f]
      && forall b :: b in t && b != btn ==> r[b] == t[b]
    ensures OnClickTable(t, NullListener, btn, true) == map[]
    ensures OnClickTable(t, NotAListener, btn, true) == t
  {
    assert [] + [f] == [f];
  }
}
