/** The Shape class of src/shape.js and its identity cache: constructing a
    shape with the same type name, the same data object and the same options
    object returns the very same instance. Objects are Dafny class instances,
    so "the same" is reference equality, as for the source's WeakMap keys. */
module Shapes {

  datatype Option<T> = None | Some(value: T)

  /** An option value of a shape (a rotation, a width, a flag, ...). */
  datatype OptionValue = Number(n: real) | Text(s: string) | Flag(b: bool)

  /** An options object. */
  class Options {
    var entries: map<string, OptionValue>

    constructor(entries: map<string, OptionValue>)
      ensures this.entries == entries
    {
      this.entries := entries;
    }
  }

  /** One element of a shape's data array: a point of a polygon, or a
      component added by `addcomponent`. */
  datatype Item =
    | Vertex(x: real, y: real)
    | Component(poly: seq<Item>, fill: Option<string>, outline: Option<string>)

  /** A data array, mutable in place. */
  class DataList {
    var items: seq<Item>

    constructor(items: seq<Item>)
      ensures this.items == items
    {
      this.items := items;
    }
  }

  class Shape {
    /** The `type`, `data` and `options` getters read these. */
    const type_: string
    const data: DataList
    const options: Options

    constructor(type_: string, data: DataList, options: Options)
      ensures this.type_ == type_ && this.data == data && this.options == options
    {
      this.type_ := type_;
      this.data := data;
      this.options := options;
    }

    /** The `options` getter: a fresh shallow copy, so callers cannot change
        the shape's own options. */
    method OptionsCopy() returns (copy: Options)
      ensures fresh(copy)
      ensures copy.entries == options.entries
    {
      copy := new Options(options.entries);
    }

    /** `addcomponent(poly, fill, outline)`: append a component to the data
        array in place; every other shape sharing that array sees it. */
    method AddComponent(poly: seq<Item>, fill: Option<string>, outline: Option<string>)
      modifies data
      ensures data.items == old(data.items) + [Component(poly, fill, outline)]
    {
      data.items := data.items + [Component(poly, fill, outline)];
    }
  }

  /** What `new Shape(...)` yields: a shape, or the TypeError the WeakMap
      raises for a `null` or `undefined` key. */
  datatype Construction = Built(shape: Shape) | Threw

  /** The shape cache, `type name -> data -> options -> shape`. */
  type Cache = map<string, map<DataList?, map<Options?, Shape>>>

  predicate Cached(c: Cache, type_: string, data: DataList?, options: Options?)
  {
    type_ in c && data in c[type_] && options in c[type_][data]
  }

  /** The cache after the insertions of a constructor call that did not hit:
      a map for the type and one for the data when missing, then the shape. */
  function Insert(c: Cache, type_: string, data: DataList?, options: Options?, s: Shape): Cache
  {
    var byData: map<DataList?, map<Options?, Shape>> := if type_ in c then c[type_] else map[];
    var byOptions: map<Options?, Shape> := if data in byData then byData[data] else map[];
    c[type_ := byData[data := byOptions[options := s]]]
  }

  /** The shape `s` was built from the keys `t`, `d` and `o`. */
  predicate Matches(s: Shape, t: string, d: DataList?, o: Options?)
  {
    s.type_ == t && s.data == d && s.options == o
  }

  /** The shapes filed under type `t` and data `d` were built from those keys
      and their own options key, and no key is `null`. */
  predicate FiledAt(c: Cache, t: string, d: DataList?)
    requires t in c && d in c[t]
  {
    d != null && forall o :: o in c[t][d] ==> o != null && Matches(c[t][d][o], t, d, o)
  }

  predicate WellFiled(c: Cache)
  {
    forall t, d :: t in c && d in c[t] ==> FiledAt(c, t, d)
  }

  /** Filing a shape under its own keys keeps the cache well filed, adds
      exactly that entry, and keeps every other entry. */
  lemma {:induction false} InsertKeepsWellFiled(c: Cache, s: Shape, t: string, d: DataList?, o: Options?)
    requires WellFiled(c) && !Cached(c, s.type_, s.data, s.options)
    ensures WellFiled(Insert(c, s.type_, s.data, s.options, s))
    ensures Cached(Insert(c, s.type_, s.data, s.options, s), s.type_, s.data, s.options)
    ensures Insert(c, s.type_, s.data, s.options, s)[s.type_][s.data][s.options] == s
    ensures Cached(c, t, d, o) ==>
      Cached(Insert(c, s.type_, s.data, s.options, s), t, d, o) && Insert(c, s.type_, s.data, s.options, s)[t][d][o] == c[t][d][o]
  {
    var c': Cache := Insert(c, s.type_, s.data, s.options, s);
    forall t1, d1 | t1 in c' && d1 in c'[t1]
      ensures FiledAt(c', t1, d1)
    {
      if t1 != s.type_ || d1 != s.data {
        assert c'[t1][d1] == c[t1][d1];
        assert FiledAt(c, t1, d1);
      }
    }
  }

  /** The empty maps a missing-key call creates before it throws keep the
      cache well filed and keep every entry. */
  lemma {:induction false} EmptyMapsKeepWellFiled(c: Cache, t: string, d: DataList?)
    requires WellFiled(c)
    ensures var byData: map<DataList?, map<Options?, Shape>> := if t in c then c[t] else map[];
      && WellFiled(c[t := byData])
      && (d != null ==> WellFiled(c[t := byData[d := if d in byData then byData[d] else map[]]]))
  {
    var byData: map<DataList?, map<Options?, Shape>> := if t in c then c[t] else map[];
    var c1: Cache := c[t := byData];
    forall t1, d1 | t1 in c1 && d1 in c1[t1]
      ensures FiledAt(c1, t1, d1)
    {
      assert FiledAt(c, t1, d1);
    }
    if d != null {
      var c2: Cache := c[t := byData[d := if d in byData then byData[d] else map[]]];
      forall t1, d1 | t1 in c2 && d1 in c2[t1]
        ensures FiledAt(c2, t1, d1)
      {
        if t1 != t || d1 != d {
          assert FiledAt(c, t1, d1);
        } else if d in byData {
          assert FiledAt(c, t1, d1);
        }
      }
    }
  }

  /** The static side of Shape: the cache and the `EMPTY` default options. */
  class ShapeCache {
    var cache: Cache
    /** `EMPTY`, the options object used when none is given. */
    const empty: Options

    predicate Valid()
      reads this
    {
      WellFiled(cache)
    }

    constructor()
      ensures Valid() && cache == map[] && fresh(empty) && empty.entries == map[]
    {
      cache := map[];
      empty := new Options(map[]);
    }

    /** `new Shape(type_, data, options)`. A cache hit returns the cached
        instance and changes nothing. Otherwise a `null` data object throws
        after the type's map is created, a `null` options object throws after
        the data's map is created, and any other call files and returns a
        fresh shape. */
    method Construct(type_: string, data: DataList?, options: Options?) returns (r: Construction)
      requires Valid()
      modifies this`cache
      ensures Valid()
      ensures Cached(old(cache), type_, data, options) ==>
        r == Built(old(cache)[type_][data][options]) && cache == old(cache)
      ensures !Cached(old(cache), type_, data, options) ==> MissOutcome(old(cache), type_, data, options, cache, r)
      ensures !Cached(old(cache), type_, data, options) && r.Built? ==> fresh(r.shape)
      ensures r.Built? ==> Cached(cache, type_, data, options) && cache[type_][data][options] == r.shape
    {
      if Cached(cache, type_, data, options) {
        r := Built(cache[type_][data][options]);
      } else {
        r := ConstructMissing(type_, data, options);
      }
    }

    /** What a call that misses the cache leaves behind: see `Construct`. */
    static predicate MissOutcome(c: Cache, type_: string, data: DataList?, options: Options?, c': Cache, r: Construction)
    {
      var byData: map<DataList?, map<Options?, Shape>> := if type_ in c then c[type_] else map[];
      var byOptions: map<Options?, Shape> := if data in byData then byData[data] else map[];
      && (data == null ==> r == Threw && c' == c[type_ := byData])
      && (data != null && options == null ==> r == Threw && c' == c[type_ := byData[data := byOptions]])
      && (data != null && options != null ==>
            && r.Built? && Matches(r.shape, type_, data, options)
            && c' == Insert(c, type_, data, options, r.shape))
    }

    method ConstructMissing(type_: string, data: DataList?, options: Options?) returns (r: Construction)
      requires Valid() && !Cached(cache, type_, data, options)
      modifies this`cache
      ensures Valid()
      ensures MissOutcome(old(cache), type_, data, options, cache, r)
      ensures r.Built? ==> fresh(r.shape)
      ensures r.Built? ==> Cached(cache, type_, data, options) && cache[type_][data][options] == r.shape
    {
      EmptyMapsKeepWellFiled(cache, type_, data);
      var byData: map<DataList?, map<Options?, Shape>> := if type_ in cache then cache[type_] else map[];
      if data == null {
        cache := cache[type_ := byData];
        r := Threw;
      } else {
        var byOptions: map<Options?, Shape> := if data in byData then byData[data] else map[];
        if options == null {
          cache := cache[type_ := byData[data := byOptions]];
          r := Threw;
        } else {
          var s := new Shape(type_, data, options);
          InsertKeepsWellFiled(cache, s, type_, data, options);
          cache := cache[type_ := byData[data := byOptions[options := s]]];
          r := Built(s);
        }
      }
    }

    /** Constructing twice with the same type name, data and options yields
        the identical instance, and the second call leaves the cache alone. */
    method ConstructTwice(type_: string, data: DataList, options: Options) returns (first: Shape, second: Shape)
      requires Valid()
      modifies this`cache
      ensures Valid()
      ensures first == second
      ensures first.type_ == type_ && first.data == data && first.options == options
    {
      var r1 := Construct(type_, data, options);
      var snapshot := cache;
      var r2 := Construct(type_, data, options);
      assert cache == snapshot;
      first, second := r1.shape, r2.shape;
    }

    /** `new Shape(type_, data)`: the omitted options default to the shared
        `EMPTY` object, so this is `Construct` with `empty`. */
    method ConstructDefault(type_: string, data: DataList?) returns (r: Construction)
      requires Valid()
      modifies this`cache
      ensures Valid()
      ensures Cached(old(cache), type_, data, empty) ==>
        r == Built(old(cache)[type_][data][empty]) && cache == old(cache)
      ensures !Cached(old(cache), type_, data, empty) ==> MissOutcome(old(cache), type_, data, empty, cache, r)
      ensures data == null <==> r == Threw
      ensures r.Built? ==> Matches(r.shape, type_, data, empty) && cache[type_][data][empty] == r.shape
    {
      r := Construct(type_, data, empty);
    }

    /** Two shapes built with the same type name and data and no options
        are one and the same instance, whose options are `EMPTY`. */
    method ConstructDefaultTwice(type_: string, data: DataList) returns (first: Shape, second: Shape)
      requires Valid()
      modifies this`cache
      ensures Valid()
      ensures first == second
      ensures Matches(first, type_, data, empty)
    {
      var r1 := ConstructDefault(type_, data);
      var r2 := ConstructDefault(type_, data);
      first, second := r1.shape, r2.shape;
    }
  }
}
