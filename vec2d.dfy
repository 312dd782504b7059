/** The two-dimensional vector helpers of src/util.js, and the trimmed copies of
    `normalize` and `normalizeArgs` that src/index.js keeps for RawTurtle.
    JavaScript numbers are modelled as `real`. */
module Vec2D {

  datatype Option<T> = None | Some(value: T)

  /** A JavaScript value as the argument helpers look at it: `undefined`,
      `null`, a number, or an object (a plain object, an array or a vector)
      described by its numeric `x`/`y` properties and its indexed elements. */
  datatype JsValue =
    | Undefined
    | Null
    | Num(n: real)
    | Obj(px: Option<real>, py: Option<real>, items: seq<real>)

  /** The pair `normalizeArgs` returns, or the TypeError JavaScript raises
      when it reads a property of `undefined` or `null`. */
  datatype Args = Args(first: JsValue, second: JsValue) | PropertyOfNothing

  /** An immutable vector with numeric components. */
  datatype Vec = Vec(x: real, y: real)

  /** `normalizeArgs` of src/util.js: an object with `x` and `y` when no second
      argument is given, then a value with elements 0 and 1, otherwise the two
      arguments unchanged. */
  function NormalizeArgs(x: JsValue, y: JsValue): Args
  {
    match x
    case Undefined => PropertyOfNothing
    case Null => PropertyOfNothing
    case Num(_) => Args(x, y)
    case Obj(px, py, items) =>
      if px.Some? && py.Some? && y == Undefined then Args(Num(px.value), Num(py.value))
      else if |items| >= 2 && y == Undefined then Args(Num(items[0]), Num(items[1]))
      else Args(x, y)
  }

  /** The copy of `normalizeArgs` in src/index.js, which lacks the `{x, y}` branch. */
  function LocalNormalizeArgs(x: JsValue, y: JsValue): Args
  {
    match x
    case Undefined => PropertyOfNothing
    case Null => PropertyOfNothing
    case Num(_) => Args(x, y)
    case Obj(_, _, items) =>
      if |items| >= 2 && y == Undefined then Args(Num(items[0]), Num(items[1]))
      else Args(x, y)
  }

  lemma NormalizeArgsOfPoint(x: JsValue)
    requires x.Obj? && x.px.Some? && x.py.Some?
    ensures NormalizeArgs(x, Undefined) == Args(Num(x.px.value), Num(x.py.value))
  {
  }

  lemma NormalizeArgsOfPair(x: JsValue)
    requires x.Obj? && (x.px.None? || x.py.None?) && |x.items| >= 2
    ensures NormalizeArgs(x, Undefined) == Args(Num(x.items[0]), Num(x.items[1]))
  {
  }

  /** Given a second argument, or a first argument that is neither a point nor
      a pair, both arguments come back unchanged. */
  lemma NormalizeArgsPassThrough(x: JsValue, y: JsValue)
    requires x != Undefined && x != Null
    requires y != Undefined || x.Num? || (x.Obj? && (x.px.None? || x.py.None?) && |x.items| < 2)
    ensures NormalizeArgs(x, y) == Args(x, y)
  {
  }

  /** Normalising what `normalizeArgs` produced is a no-op: its result is stable. */
  lemma NormalizeArgsIdempotent(x: JsValue, y: JsValue)
    requires NormalizeArgs(x, y).Args?
    ensures var r := NormalizeArgs(x, y); NormalizeArgs(r.first, r.second) == r
  {
  }

  /** The local copy agrees with src/util.js except on an `{x, y}` object that
      is not also a pair, which it passes through untouched. */
  lemma LocalNormalizeArgsDiffersOnlyOnPoints(x: JsValue, y: JsValue)
    ensures !(x.Obj? && x.px.Some? && x.py.Some? && y == Undefined) ==>
              LocalNormalizeArgs(x, y) == NormalizeArgs(x, y)
    ensures x.Obj? && x.px.Some? && x.py.Some? && |x.items| < 2 && y == Undefined ==>
              LocalNormalizeArgs(x, y) == Args(x, Undefined) != NormalizeArgs(x, y)
  {
  }

  /** The number JavaScript's `-` makes of a value, or `None` for `NaN`:
      `null` is 0, `undefined` is `NaN`, and an object is read as an array
      (joined into a string): one element gives that element, any other
      object gives `NaN`. */
  function ToNumber(v: JsValue): Option<real>
  {
    match v
    case Undefined => None
    case Null => Some(0.0)
    case Num(n) => Some(n)
    case Obj(_, _, items) => if |items| == 1 then Some(items[0]) else None
  }

  /** What `new Vec2D(x, y)` of src/util.js yields: a vector when both
      normalised components are numbers, an instance whose fields hold the
      non-numeric values otherwise, or the TypeError of `normalizeArgs`. */
  datatype Construction =
    | Vector(v: Vec)
    | NonNumeric(fx: JsValue, fy: JsValue)
    | ConstructorThrows

  function Construct(x: JsValue, y: JsValue): Construction
  {
    match NormalizeArgs(x, y)
    case PropertyOfNothing => ConstructorThrows
    case Args(a, b) => if a.Num? && b.Num? then Vector(Vec(a.n, b.n)) else NonNumeric(a, b)
  }

  /** A src/util.js vector seen as a JavaScript value: it is an array whose
      elements 0 and 1 are copies of its `x` and `y`. */
  function AsJsValue(v: Vec): JsValue
  {
    Obj(Some(v.x), Some(v.y), [v.x, v.y])
  }

  /** `toJSON` (and `toArray`). */
  function ToJSON(v: Vec): seq<real>
  {
    [v.x, v.y]
  }

  /** A constructed vector has element 0 equal to `x`, element 1 equal to `y`,
      and `toJSON()` returns `[x, y]`. */
  lemma ConstructedIndicesMatchFields(a: real, b: real)
    ensures Construct(Num(a), Num(b)) == Vector(Vec(a, b))
    ensures AsJsValue(Vec(a, b)).items == ToJSON(Vec(a, b)) == [a, b]
    ensures AsJsValue(Vec(a, b)).items[0] == AsJsValue(Vec(a, b)).px.value
    ensures AsJsValue(Vec(a, b)).items[1] == AsJsValue(Vec(a, b)).py.value
  {
  }

  /** `new Vec2D(v)` copies a vector, and `new Vec2D([a, b])` builds one from a pair. */
  lemma ConstructCopies(v: Vec, a: real, b: real)
    ensures Construct(AsJsValue(v), Undefined) == Vector(v)
    ensures Construct(Obj(None, None, [a, b]), Undefined) == Vector(Vec(a, b))
  {
  }

  function Add(a: Vec, b: Vec): Vec
  {
    Vec(a.x + b.x, a.y + b.y)
  }

  function Substract(a: Vec, b: Vec): Vec
  {
    Vec(a.x - b.x, a.y - b.y)
  }

  /** Despite its name this is the componentwise product, a vector. */
  function InnerProduct(a: Vec, b: Vec): Vec
  {
    Vec(a.x * b.x, a.y * b.y)
  }

  function ScalarProduct(a: Vec, k: real): Vec
  {
    Vec(a.x * k, a.y * k)
  }

  function AbsReal(r: real): real
  {
    if r < 0.0 then -r else r
  }

  function Abs(a: Vec): Vec
  {
    Vec(AbsReal(a.x), AbsReal(a.y))
  }

  /** `substract` undoes `add`, and `add` undoes `substract`. */
  lemma SubstractUndoesAdd(a: Vec, b: Vec)
    ensures Substract(Add(a, b), b) == a
    ensures Add(Substract(a, b), b) == a
  {
  }

  /** `innerProduct` is a vector, not the scalar dot product: the dot product
      is only the sum of its components. */
  lemma InnerProductIsComponentwise(a: Vec, b: Vec)
    ensures InnerProduct(a, b) == InnerProduct(b, a)
    ensures InnerProduct(a, b).x + InnerProduct(a, b).y == a.x * b.x + a.y * b.y
    ensures InnerProduct(a, Vec(1.0, 1.0)) == a
  {
  }

  /** Scaling by one is the identity, and scalings compose by multiplying the factors. */
  lemma ScalarProductLaws(a: Vec, k: real, m: real)
    ensures ScalarProduct(a, 1.0) == a
    ensures ScalarProduct(ScalarProduct(a, k), m) == ScalarProduct(a, k * m)
    ensures ScalarProduct(a, k) == InnerProduct(a, Vec(k, k))
  {
    assert a.x * k * m == a.x * (k * m);
    assert a.y * k * m == a.y * (k * m);
  }

  /** `abs` has non-negative components, keeps their magnitudes and is idempotent. */
  lemma AbsLaws(a: Vec)
    ensures Abs(a).x >= 0.0 && Abs(a).y >= 0.0
    ensures Abs(a).x == a.x || Abs(a).x == -a.x
    ensures Abs(a).y == a.y || Abs(a).y == -a.y
    ensures Abs(Abs(a)) == Abs(a)
    ensures Abs(ScalarProduct(a, -1.0)) == Abs(a)
  {
  }

  /** Truncation toward zero, as JavaScript's `%` uses it. */
  function Trunc(q: real): (t: int)
    ensures AbsReal(t as real) <= AbsReal(q) < AbsReal(t as real) + 1.0
    ensures q >= 0.0 ==> t >= 0
    ensures q <= 0.0 ==> t <= 0
  {
    if q >= 0.0 then q.Floor else -((-q).Floor)
  }

  /** `d` is a whole multiple of a full turn of 360 degrees. */
  predicate IsWholeTurns(d: real)
  {
    (d / 360.0).Floor as real == d / 360.0
  }

  /** JavaScript's `a % b` for a non-zero `b`: the quotient is truncated toward
      zero, so the remainder takes the sign of `a`. */
  function Remainder(a: real, b: real): real
    requires b != 0.0
  {
    a - Trunc(a / b) as real * b
  }

  /** For a positive divisor the remainder lies strictly between `-b` and
      `b`, has the sign of `a`, is a whole multiple of `b` away from it, and
      is `a` itself when `a` is already of smaller magnitude. */
  lemma RemainderLaws(a: real, b: real)
    requires b > 0.0
    ensures -b < Remainder(a, b) < b
    ensures a >= 0.0 ==> Remainder(a, b) >= 0.0
    ensures a <= 0.0 ==> Remainder(a, b) <= 0.0
    ensures a - Remainder(a, b) == Trunc(a / b) as real * b
    ensures -b < a < b ==> Remainder(a, b) == a
  {
    var t := Trunc(a / b) as real;
    QuotientOrder(a, b, t);
    QuotientOrder(a, b, t + 1.0);
    QuotientOrder(a, b, t - 1.0);
    QuotientOrder(a, b, 1.0);
    QuotientOrder(a, b, -1.0);
    QuotientOrder(a, b, 0.0);
  }

  /** Comparing a quotient by a positive number with `c` is comparing the
      dividend with `c` times the divisor. */
  lemma QuotientOrder(a: real, b: real, c: real)
    requires b > 0.0
    ensures c <= a / b <==> c * b <= a
    ensures c < a / b <==> c * b < a
  {
    assert a / b - c == (a - c * b) / b;
  }

  /** The numeric branch of `normalize`: `degrees % 360` with JavaScript's
      remainder. src/index.js keeps only this branch. */
  function Normalize(degrees: real): real
  {
    Remainder(degrees, 360.0)
  }

  /** `normalize` returns an angle of magnitude below 360, with the sign of
      its input, a whole number of turns away from it, and leaves angles of
      magnitude below 360 alone. */
  lemma NormalizeLaws(degrees: real)
    ensures -360.0 < Normalize(degrees) < 360.0
    ensures degrees >= 0.0 ==> Normalize(degrees) >= 0.0
    ensures degrees <= 0.0 ==> Normalize(degrees) <= 0.0
    ensures IsWholeTurns(degrees - Normalize(degrees))
    ensures -360.0 < degrees < 360.0 ==> Normalize(degrees) == degrees
  {
    RemainderLaws(degrees, 360.0);
    var t := Trunc(degrees / 360.0);
    assert (t as real * 360.0) / 360.0 == t as real;
  }

  /** Whole turns add up to whole turns. */
  lemma WholeTurnsAdd(d1: real, d2: real)
    requires IsWholeTurns(d1) && IsWholeTurns(d2)
    ensures IsWholeTurns(d1 + d2)
  {
    var i1 := (d1 / 360.0).Floor;
    var i2 := (d2 / 360.0).Floor;
    assert (d1 + d2) / 360.0 == d1 / 360.0 + d2 / 360.0;
    assert (d1 + d2) / 360.0 == (i1 + i2) as real;
    assert ((i1 + i2) as real).Floor == i1 + i2;
  }
}
