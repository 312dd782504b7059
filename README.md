# A verified model of the turtle-graphics core

This project is a Dafny model of the core of a JavaScript turtle-graphics
library built on PIXI. It covers five parts:

- **Vectors and arguments.** The `Vec2D` helpers and the argument normalisers
  of `src/util.js`.
- **Coordinates.** The world-to-canvas transforms of `RawTurtle` in
  `src/index.js`.
- **The turtle.** The `RawTurtle` state and operations: motion, headings,
  `circle`'s step count, stamps, the pen, shape size and transform, click
  listeners, mode and world coordinates.
- **Shapes.** The `Shape` class of `src/shape.js` and its identity cache.
- **The canvas.** The bookkeeping of `PixiCanvas` in `src/canvas.js`: the
  colour-name table, `convertColor`'s dispatch, the shape-name registry,
  `clear` and the text-style memo `#fontCache`.

JavaScript numbers are modelled as `real`. JavaScript's `%` (truncating) is
written out. Values that can be `undefined` are `Option`s. PIXI objects are
replaced by numeric handles.

Modules, one file each:

| file | module | source |
|---|---|---|
| `vec2d.dfy` | `Vec2D` | `src/util.js`, local helpers of `src/index.js` |
| `coords.dfy` | `Coords` | coordinate transforms of `src/index.js` |
| `turtle_logic.dfy` | `TurtleLogic` | the rules behind `RawTurtle`, as functions |
| `turtle.dfy` | `Turtle` | class `RawTurtle`, proved against `TurtleLogic` |
| `shapes.dfy` | `Shapes` | `src/shape.js` |
| `colours.dfy` | `Colours` | `colourNameToHex`, `convertColor` |
| `canvas.dfy` | `Canvas` | class `PixiCanvas`: registry, `clear`, `#fontCache` |

The model follows the code as written, including where it behaves in ways a
reader might not expect:

- **Circle steps.** A full circle of radius 60 takes 22 steps. The
  formula adds one to `min(11 + 10, 59)`.
- **Top-left origin.** `convertTurtleCoordinate`'s top-origin branch puts
  the window's edges on the canvas edges only for windows symmetric about 0.
  This is proved as an if-and-only-if.
- **Initial shape transform.** The matrix a turtle starts with is
  `[1, 1, 1, 1]`, which is singular.
- **`circle` always throws.** It calls `Math.radians`, which does not exist,
  before its loop starts.
- **`resizemode` throws.** In `shapesize` and `shapetransform` the trailing
  `this.#resizemode(...)` calls an accessor value. Assigning the resize modes
  `auto`, `user` or `noresize` in `pen` calls the missing `this.modifyShape`.
- **`goto` ignores `{x, y}` objects.** It uses the local `normalizeArgs` of
  `src/index.js`, which has no branch for them.
- **Binary shapes throw.** `registerShape` calls its `FinalizationRegistry`
  object as a function, which throws a TypeError. For binary data this
  happens after the name has been registered, so the name stays taken. For
  image data it happens inside the loader callback, so the promise returned
  never settles.
- **Shape data is never defaulted.** In `Shape`, `data ?? []` never applies
  to a new shape. A `null` or `undefined` data object is a `WeakMap` key,
  so the constructor throws before that line matters.

## Model

| member | source | states |
|---|---|---|
| Vec2D.NormalizeArgsOfPoint | src/util.js:12-13 | an `{x, y}` object alone becomes the pair of its `x` and `y` |
| Vec2D.NormalizeArgsOfPair | src/util.js:14-15 | a value with elements 0 and 1 (and no `x`/`y`) alone becomes the pair of those elements |
| Vec2D.NormalizeArgsPassThrough | src/util.js:16-17 | with a second argument, or a first that is neither point nor pair, both come back unchanged |
| Vec2D.NormalizeArgsIdempotent | src/util.js:11-19 | normalising a normalised pair changes nothing |
| Vec2D.LocalNormalizeArgsDiffersOnlyOnPoints | src/index.js:268-274 | the local copy agrees with the util.js one except on an `{x, y}` object that is not a pair, which it passes through |
| Vec2D.ConstructedIndicesMatchFields | src/util.js:21-26 | a constructed vector's elements 0 and 1 equal its `x` and `y`, and `toJSON` is `[x, y]` |
| Vec2D.ConstructCopies | src/util.js:21-26 | `new Vec2D(v)` copies a vector, `new Vec2D([a, b])` builds `(a, b)` |
| Vec2D.SubstractUndoesAdd | src/util.js:38-43 | `substract(add(a, b), b) == a` and `add(substract(a, b), b) == a` |
| Vec2D.InnerProductIsComponentwise | src/util.js:44-46 | `innerProduct` is the commutative componentwise product vector; the dot product is only the sum of its components |
| Vec2D.ScalarProductLaws | src/util.js:47-49 | scaling by 1 is the identity, scalings compose by multiplying, and scaling is the inner product with `(k, k)` |
| Vec2D.AbsLaws | src/util.js:50-52 | `abs` has non-negative components of the same magnitude, is idempotent and ignores sign |
| Vec2D.Trunc | src/util.js:9 | the truncation of JavaScript's `%`: magnitude at most the quotient's, less than one below it, with its sign |
| Vec2D.RemainderLaws | src/index.js:996 | JavaScript's `a % b` for `b > 0` lies strictly between `-b` and `b`, has the sign of `a`, is a whole number of `b` from `a`, and is `a` when `a` is smaller in magnitude |
| Vec2D.NormalizeLaws | src/util.js:9 | `degrees % 360` has magnitude below 360 and the input's sign, is a whole number of turns from the input, and leaves small angles alone |
| Coords.CanvasRoundTrip | src/index.js:1069-1135 | `convertCanvasCoordinate` undoes `convertTurtleCoordinate` and the other way round, for any window, non-zero canvas size and origin code |
| Coords.DeltaRoundTrip | src/index.js:1136-1159 | `canvasToTurtle` undoes `turtleToCanvas` and the other way round |
| Coords.ToCanvasIsAffine | src/index.js:1069-1147 | the pixel difference of two converted points is the converted world difference, the vertical one negated |
| Coords.DefaultWindowFillsCanvas | src/index.js:1056-1059 | with the default window and a top-left canvas, the corners map to `(0, 0)` and `(w, h)` and the origin to the centre |
| Coords.VerticalEdgesOnCanvasIffSymmetric | src/index.js:1069-1108 | on a top-left canvas the window's top edge lands on row 0 (bottom edge on row `h`) iff `lly == -ury` |
| TurtleLogic.BackUndoesForward | src/index.js:629-648 | `back(d)` returns to where `forward(d)` started, `forward` keeps the heading, `forward(0)` stays put |
| TurtleLogic.LeftHeadingRange | src/index.js:649-657 | in degree mode `left(a)` leaves a heading below 360 in magnitude, with the sign of `h - a`, whole turns from `h - a` |
| TurtleLogic.LeftThenRightRestoresHeading | src/index.js:649-663 | `left(a)` then `right(a)` restores the heading up to whole turns, in either angle mode |
| TurtleLogic.HomeHeadingIsZero | src/index.js:698-704 | `home` stores heading exactly 0 in either angle mode |
| TurtleLogic.SetHeadingDegrees | src/index.js:596-605 | the `orient` setter in degree mode stores the angle modulo 360, unchanged when below 360 in magnitude |
| TurtleLogic.GotoArguments | src/index.js:667-673 | `goto` takes two numbers, a pair, or util.js's array-backed `Vec2D`; a missing first argument throws; an `{x, y}` object that is not a pair is not a target |
| TurtleLogic.DistanceArguments | src/index.js:268-292 | `distance` accepts every point `goto` accepts, reads `null` as 0 and a one-element array as its element, gives no number for an omitted second coordinate, and throws on a missing first argument |
| TurtleLogic.DegreesRoundTrip | src/index.js:263-264 | `toDeg(toRad(d)) == d` |
| TurtleLogic.ScaledHeadingByOne | src/index.js:714-717 | in degree mode the loop's turn by a factor of 1 only normalises the heading |
| TurtleLogic.CircleFactorRange | src/index.js:707 | `min(11 + abs(r) / 6, 59)` lies in [11, 59] and grows with the radius's magnitude |
| TurtleLogic.CircleStepsBounds | src/index.js:706-707 | the default step count is at least 1, grows with radius and extent, and is at most `1 + floor(59 * abs(extent) / fullcircle)` |
| TurtleLogic.CircleStepsRadius60 | src/index.js:706-707 | a full circle of radius 60 takes 22 steps in both angle modes |
| TurtleLogic.IndexOf | src/index.js:753 | `indexOf`: -1 iff absent, otherwise the first position holding the id |
| TurtleLogic.ClearStampRemovesIt | src/index.js:752-755 | `clearstamp` of a present id removes exactly its first occurrence |
| TurtleLogic.ClearStampOfUnknownDropsNewest | src/index.js:752-755 | `clearstamp` of an unknown id removes the newest stamp (`splice(-1, 1)`) |
| TurtleLogic.StampThenClearStamp | src/index.js:744-755 | clearing a freshly pushed stamp restores the list |
| TurtleLogic.ClearStampsRemovesOldest | src/index.js:756-761 | `clearstamps(n)` removes the `min(t, len)` oldest stamps for `n >= 1`, where `t` is `n` truncated by `splice`, and nothing for `n < 1` or none |
| TurtleLogic.MoveDrawsLineIffPenDown | src/index.js:564-579 | `#move` draws exactly one line iff the pen is down, between the converted positions in the pen's colour and width, and always ends by redrawing the pen marker |
| TurtleLogic.RemovalEvents | src/index.js:758-760 | one `removeShape` per removed stamp, in order |
| TurtleLogic.LastGivenIsLast | src/index.js:826-850 | `LastGiven` of an entry is the value the last dictionary defining it gives, or the current value when none defines it |
| TurtleLogic.PenLaterDictsWin | src/index.js:825-850 | after a `pen` call that did not throw, each of the ten settings is `LastGiven` for that entry: later dictionaries win, and an entry no dictionary defines keeps its value |
| TurtleLogic.PenThrowsIffThrowingArg | src/index.js:826-838 | `pen` throws iff one of its arguments is `null` or `undefined` (the destructuring) or sets resize mode `auto`, `user` or `noresize` (whose setter, lines 481-516, calls the missing `modifyShape`) |
| TurtleLogic.PenStopsAtNullish | src/index.js:826-838 | a `null` or `undefined` argument throws at the destructuring, keeping what the earlier dictionaries wrote and applying no later one |
| TurtleLogic.PenFoldStopsAtThrow | src/index.js:826-850 | once a dictionary throws, the later ones are never applied |
| TurtleLogic.ShapeSizeRules | src/index.js:950-960 | a zero stretch is rejected with nothing written; an omitted length takes the new width; an update ends by throwing; no argument reports the stretch and outline |
| TurtleLogic.ShapeTransformKeepsRegular | src/index.js:983-995 | a singular result leaves the matrix alone, omitted entries keep their values, and a stored matrix stays regular |
| TurtleLogic.TiltOf | src/index.js:996 | the tilt `atan2(-m21, m11) % PI_2` lies strictly within a full turn either way |
| TurtleLogic.RotatedDeterminant | src/index.js:998-999 | rotating the matrix by an angle scales its determinant by `sin² + cos²` |
| TurtleLogic.DecomposeKeepsArea | src/index.js:996-1002 | when the host's sine and cosine of the tilt form a rotation that clears the lower-left entry, the stored stretch factors multiply to the determinant, so a regular matrix gets non-zero stretch factors and a finite shear |
| TurtleLogic.InitialTransformIsSingular | src/index.js:982 | the initial `[1, 1, 1, 1]` is singular, so `shapetransform(1)` on a new turtle is rejected |
| TurtleLogic.OnClickRules | src/index.js:1013-1024 | without `add` a function replaces the table; with `add` it is appended under its button and other buttons keep theirs; `null` clears the table |
| Turtle.RawTurtle.constructor | src/index.js:356-404 | a new turtle at the origin with heading 0, pen down and black, shear 0, default window, standard mode, degrees, no stamps or listeners |
| Turtle.RawTurtle.Redraw | src/index.js:564-579 | the draw calls of `#move` are appended to the log |
| Turtle.RawTurtle.Forward | src/index.js:629-636 | the pose moves by `(cos, -sin)` times the distance and the move is drawn |
| Turtle.RawTurtle.Back | src/index.js:640-648 | `forward(-d)`, so a following `forward(d)` returns to the old pose |
| Turtle.RawTurtle.Left | src/index.js:649-657 | only the heading changes, to `LeftOrient` of the old one; the move is drawn |
| Turtle.RawTurtle.Right | src/index.js:661-663 | `left(-a)` |
| Turtle.RawTurtle.Goto | src/index.js:667-673 | moves to the normalised target and draws, or reports a target that is not two numbers and changes nothing |
| Turtle.RawTurtle.SetX | src/index.js:680-684 | only `x` changes |
| Turtle.RawTurtle.SetY | src/index.js:685-689 | only `y` changes |
| Turtle.RawTurtle.SetHeading | src/index.js:690-694 | only the heading changes, through the `orient` setter |
| Turtle.RawTurtle.Home | src/index.js:698-704 | pose becomes `(0, 0, 0)` and the move is drawn |
| Turtle.RawTurtle.Reset | src/index.js:909-913 | the position becomes the origin and the heading is kept |
| Turtle.RawTurtle.Circle | src/index.js:705-710 | the extent defaults to a full circle and the steps to the formula (at least 1); the call throws at `Math.radians` |
| Turtle.RawTurtle.MotionTurn | src/index.js:551-556 | `#motion` around the loop's turn restores speed, tracer and delay |
| Turtle.RawTurtle.Stamp | src/index.js:744-751 | the handle is pushed and returned, and the turtle shape is drawn at the pose |
| Turtle.RawTurtle.ClearStamp | src/index.js:752-755 | the list becomes `splice(indexOf(id), 1)` of the old one and the shape is removed |
| Turtle.RawTurtle.ClearStamps | src/index.js:756-761 | the selected stamps are spliced out and each is removed from the canvas in order |
| Turtle.RawTurtle.Position | src/index.js:768-770 | the current `x` and `y` |
| Turtle.RawTurtle.Heading | src/index.js:787-789 | the heading in degrees, or `toRad` of it in radians mode |
| Turtle.RawTurtle.Distance | src/index.js:790-793 | a missing first argument throws; otherwise the point is `DistancePoint` of the arguments, a point gives the componentwise absolute difference (zero iff the turtle is at the point) and anything else a `NaN` component |
| Turtle.RawTurtle.Degrees | src/index.js:794-796 | switches to degrees |
| Turtle.RawTurtle.Radians | src/index.js:797-799 | switches to radians |
| Turtle.RawTurtle.PenDown | src/index.js:800-802 | pen down |
| Turtle.RawTurtle.PenUp | src/index.js:809-811 | pen up |
| Turtle.RawTurtle.PenSize | src/index.js:818-821 | a missing or zero width reads the size, any other sets it |
| Turtle.RawTurtle.PenColor | src/index.js:875-878 | a missing or empty colour reads it, a string sets it |
| Turtle.RawTurtle.FillColor | src/index.js:879-882 | a missing or empty colour reads it, a string sets it |
| Turtle.RawTurtle.SetShown | src/index.js:925-934 | `showturtle` and `hideturtle` |
| Turtle.RawTurtle.SetFilling | src/index.js:903-908 | `begin_fill` and `end_fill` |
| Turtle.RawTurtle.Pen | src/index.js:825-863 | the loop applies the dictionaries as `PenFold` does and reports the settings, or nothing when one threw |
| Turtle.RawTurtle.ShapeSize | src/index.js:950-960 | stretch, outline and outcome are those of `StretchUpdate` |
| Turtle.RawTurtle.ShapeTransform | src/index.js:983-1003 | matrix and outcome are those of `TransformUpdate`; a stored matrix also writes its `Decompose`ition into stretch factor, shear and tilt, which stay unchanged on the read and singular paths |
| Turtle.RawTurtle.OnClick | src/index.js:1013-1024 | the click table becomes `OnClickTable` of the old one |
| Turtle.RawTurtle.Mode | src/index.js:1049-1055 | a missing or empty name reads the mode, any other sets it |
| Turtle.RawTurtle.SetWorldCoordinates | src/index.js:1060-1068 | world mode with the given window |
| Turtle.RawTurtle.ConvertTurtleCoordinate | src/index.js:1069-1108 | the pixel of a point, which `convertCanvasCoordinate` maps back to the point |
| Turtle.RawTurtle.ConvertCanvasCoordinate | src/index.js:1109-1135 | the point of a pixel, which `convertTurtleCoordinate` maps back to the pixel |
| Turtle.RawTurtle.TurtleToCanvas | src/index.js:1136-1147 | a world displacement in pixels, which `canvasToTurtle` maps back |
| Turtle.RawTurtle.CanvasToTurtle | src/index.js:1148-1159 | a pixel displacement in world units, which `turtleToCanvas` maps back |
| Shapes.Shape.constructor | src/shape.js:9-11 | the getters `type` and `data` return the constructor's arguments |
| Shapes.Shape.OptionsCopy | src/shape.js:37-39 | the `options` getter returns a fresh copy with the same entries |
| Shapes.Shape.AddComponent | src/shape.js:40-44 | exactly one `{poly, fill, outline}` entry is appended and earlier entries are kept |
| Shapes.InsertKeepsWellFiled | src/shape.js:13-19 | filing a new shape under its own keys keeps every shape filed under the keys it was built from, and keeps every other entry |
| Shapes.EmptyMapsKeepWellFiled | src/shape.js:13-16 | the maps a throwing call leaves behind keep the cache well filed |
| Shapes.ShapeCache.constructor | src/shape.js:21 | an empty cache and the `EMPTY` options |
| Shapes.ShapeCache.Construct | src/shape.js:6-20 | a hit returns the cached instance and changes nothing; a miss throws for `null` keys after creating the intermediate maps, or files and returns a fresh shape |
| Shapes.ShapeCache.ConstructMissing | src/shape.js:9-19 | the miss path of the constructor |
| Shapes.ShapeCache.ConstructDefault | src/shape.js:1-19 | `new Shape(type_, data)` is `Construct` with the shared `EMPTY` options: a hit returns the cached shape, `null` data throws, anything else files a shape whose options are `EMPTY` |
| Shapes.ShapeCache.ConstructDefaultTwice | src/shape.js:1-8 | two option-less shapes with the same type name and data are the identical instance |
| Shapes.ShapeCache.ConstructTwice | src/shape.js:6-8 | the same type, data and options give the identical instance |
| Colours.ToLower | src/canvas.js:33 | `toLowerCase` keeps the length and lowers each ASCII letter |
| Colours.ToLowerIdempotent | src/canvas.js:33 | lowering twice is lowering once |
| Colours.ColourLookupIgnoresCase | src/canvas.js:33-34 | a name and its lower-case form find the same entry, or are both unknown |
| Colours.RedInAnyCase | src/canvas.js:33-36 | any name lowering to "red" gives `#ff0000`; one lowering to "reddish" is unknown and reported as given |
| Colours.IndianRedIsUnknown | src/canvas.js:17 | any name lowering to "indianred" is unknown, because the table's key has a trailing space |
| Colours.IndianRedWithTrailingSpace | src/canvas.js:17 | any name lowering to "indianred ", with the space, is found as `#cd5c5c` |
| Colours.TrimStart | src/canvas.js:54 | the trimmed string is a suffix of the input that does not start with a space |
| Colours.ConvertColorNumbers | src/canvas.js:45-46 | a number is returned unchanged iff it lies in `[0, 0xFFFFFF]`; any other number is an unknown format |
| Colours.ConvertColorByName | src/canvas.js:51-59 | a string that is neither a `#` code nor an `rgb` text goes to the name table |
| Colours.ConvertColorExamples | src/canvas.js:51-56 | leading spaces do not hide an `rgb` text; a `#` code goes to PIXI |
| Canvas.DataOutcome | src/canvas.js:192-293 | image data (a path or an image shape) gives a promise that never settles; binary data throws at the `FinalizationRegistry` call; a polygon shape whose items are all iterable, a compound shape whose items are all components with drawable `poly` arrays, and an array of pairs register; any other polygon or compound shape throws a TypeError in `fromTuples`; anything else is unsupported, each as an if-and-only-if |
| Canvas.MalformedShapes | src/canvas.js:214-251 | a polygon holding an `addcomponent` record, a compound shape holding vertices and a shape whose data is not an array throw; a compound shape built from vertex arrays registers |
| Canvas.Unprotected | src/canvas.js:300-301 | exactly the unprotected stage objects are destroyed |
| Canvas.UnprotectedKeepsOrder | src/canvas.js:300-301 | the filter keeps the list's order: filtering a concatenation concatenates the filtered parts |
| Canvas.RegisterRejectsNameInUse | src/canvas.js:187-189 | a registered or inherited name is rejected and the registry is unchanged |
| Canvas.ThrowingDataKeepsName | src/canvas.js:190-293 | the name is registered before the options and the data are examined, so it stays registered when the call then throws, which it does exactly for `null` options, unsupported data, binary data and undrawable polygon or compound shapes |
| Canvas.UnregisterFreesName | src/canvas.js:295-298 | after `unregisterShape` the name can be registered again |
| Canvas.ClearKeepsProtected | src/canvas.js:313 | `clear` keeps exactly the protected entries, whatever `includeProtected` is, and is idempotent on them |
| Canvas.ClearRemovesListeners | src/canvas.js:307-312 | listeners are removed from unprotected containers, and from all with `includeProtected` |
| Canvas.SortByKeySorted | src/canvas.js:329 | the sorted settings are strictly ordered by key and a permutation of the settings |
| Canvas.SortedUnique | src/canvas.js:329 | two strictly sorted permutations of each other are equal |
| Canvas.FontPathOrderFree | src/canvas.js:328-337 | settings with the same pairs in any key order walk the same path |
| Canvas.FontLookupRepeats | src/canvas.js:328-345 | a second lookup with the same path returns the identical style and changes nothing |
| Canvas.FontLookupKeepsTree | src/canvas.js:328-345 | no node holds both a style and an inner map under `"data"`; styles are never lost; a new style gets a new handle |
| Canvas.PixiCanvas.constructor | src/canvas.js:87-327 | the field initialisers: an empty stage list `#objects` (line 87), registry `#shapes` (line 170) and font cache `#_fontCache` (line 327) |
| Canvas.PixiCanvas.RegisterShape | src/canvas.js:186-294 | the outcome and the new registry are those of `RegisterOutcomeOf` (a taken name, then `null` options, then `DataOutcome`) and `RegisterShapes`; a rejected name changes nothing |
| Canvas.PixiCanvas.UnregisterShape | src/canvas.js:295-298 | an own entry is removed after its listeners; any other name throws and changes nothing |
| Canvas.PixiCanvas.Clear | src/canvas.js:299-314 | the stage list empties, its unprotected objects are destroyed in order, listeners are removed, only protected entries stay |
| Canvas.PixiCanvas.DestroyAll | src/canvas.js:302-306 | the spliced-out unprotected objects are destroyed one by one, in order |
| Canvas.PixiCanvas.FontCache | src/canvas.js:328-345 | the result and the new tree are those of `FontLookup` along the sorted settings |

## Left out

- Floating point: numbers are exact reals, so IEEE rounding, `NaN` and the infinities are not modelled.
- Trigonometry: `Math.PI`, `Math.cos`, `Math.sin` and `Math.atan2` are parameters of the turtle; `valueOf`'s `atan` and `Vec2D.rotate` (which calls `Vec2D` without `new`) are not modelled.
- The canvas a turtle draws on is outside the model. Its draw calls are appended to a log, the stamp handles it returns are parameters, and its width, height and origin code (`"TL"`) are constants of the turtle.
- PIXI rendering, the asynchronous image loader, the texture objects, `bgcolor`, `bgpic`, `write`, `removeShape` and the width and height setters of the canvas are not modelled; shapes, stage objects and text styles are handles.
- The pointer-event handlers registered with the pen marker are not modelled; only the click table they read is.
- `onrelease` and `ondrag` read undefined names and throw; `towards` (undefined `y2` and `Math.degrees`), `dot`, `write`, `color`, `shape`, `resizemode`, `shearfactor`, `tilt`, `settiltangle` and `tiltangle` are not modelled.
- The undo buffer, `undo` and `speed` do nothing in the source and are not modelled.
- Turtle.RawTurtle.constructor: the heading of a new turtle is the vector object `(1, 0)`, whose numeric value is 0; the model starts it at 0, so `heading()` of a new turtle returns 0, not the vector.
- Turtle.RawTurtle.Goto: a target that is not a pair of numbers is reported and not stored, while the source stores whatever `normalizeArgs` returned.
- Turtle.RawTurtle.Distance: an object argument is read as an array, so an empty array (0 in JavaScript), an array-like object that is not an array (`NaN`) and an object with its own `valueOf`, such as a `Vec2D` (a number), are not told apart: only a one-element object gives a number.
- Turtle.RawTurtle.SetWorldCoordinates: requires a non-degenerate window, because the transforms divide by its sides.
- Turtle.RawTurtle.ShapeTransform: a shear that JavaScript computes as a non-finite number (a division by zero) is `None`; which non-finite value it is is not modelled.
- Turtle.RawTurtle.PenColor: only colour strings; the colour-tuple path through `#convertColorTo255` is not modelled.
- Turtle.RawTurtle.FillColor: only colour strings, as for `PenColor`.
- Turtle.RawTurtle.OnClick: listeners are keyed by the button number rather than the string `button${btn}`, and functions are handles.
- TurtleLogic.CircleSteps: `parseInt` of the non-negative quotient is modelled as its floor, which differs for numbers JavaScript prints in exponent notation.
- Turtle.RawTurtle.Circle: the loop is not modelled because the call always throws before it; its turn is modelled by `MotionTurn`.
- Shapes: the shape types are strings rather than symbols, and data arrays and options are objects; primitive data values and `WeakMap` garbage collection are not modelled.
- Colours.ToLower: only ASCII letters are lowered; `IsSpace` knows only the ASCII white space characters.
- Colours.ConvertColorByName: the `rgb` string parsing and the PIXI converters are not modelled; the result names the converter and its input.
- Canvas.PixiCanvas.RegisterShape: the `protected` option is a boolean or undefined; other truthy or falsy values are not modelled, nor are the interactive and `on...` options.
- Canvas.DataOutcome: an item is iterable, a component record or something else; a string item (iterable), a `poly` that is not an array but has its own `map`, and the size PIXI computes for the drawn shape are not modelled.
- Canvas.SortByKey: keys are compared by Unicode code point, which agrees with JavaScript's UTF-16 order only on the Basic Multilingual Plane.
