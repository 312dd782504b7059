/** The bookkeeping of PixiCanvas in src/canvas.js: the registry of shape
    names, `clear`, and the memo of text styles behind `#fontCache`. PIXI
    containers, stage objects and text styles are replaced by numeric
    handles; what PIXI draws is outside this model. */
module Canvas {

  datatype Option<T> = None | Some(value: T)

  /** The container registered under a shape name, with its `protected` flag. */
  datatype Container = Container(id: nat, protected: bool)

  /** An object on the stage (a graphics or text object), with its `protected` flag. */
  datatype StageObject = StageObject(id: nat, protected: bool)

  /** The four kinds of `Shape.types`. */
  datatype ShapeKind = PolygonShape | ImageShape | CompoundShape | BinaryShape

  /** An element of a data array: an array of some length, or anything else. */
  datatype Element = ArrayElement(length: nat) | NotAnArray

  /** An item of a shape's data array, as `registerShape` destructures it:
      - `IterableItem`: an array, such as a vertex `[x, y]`, or another iterable;
      - `ComponentItem`: the `{poly, fill, outline}` record `addcomponent`
        pushes, with `poly` an array of items, or `None` for anything else;
      - `OtherItem`: `null`, `undefined`, a number or another object. */
  datatype Item =
    | IterableItem
    | ComponentItem(poly: Option<seq<Item>>)
    | OtherItem

  /** The `data` given to `registerShape`; a shape carries its `data`, an
      array of items or (`None`) some other value. */
  datatype ShapeData =
    | AssetPath(path: string)
    | ShapeOf(kind: ShapeKind, items: Option<seq<Item>>)
    | ArrayData(elements: seq<Element>)
    | OtherData

  /** The `options` given to `registerShape`: `null`, or an object whose
      `protected` entry is `None` when undefined (an omitted `options` is
      the empty object). */
  datatype RegisterOptions = NullOptions | OptionsObject(protected: Option<bool>)

  /** What `registerShape` does:
      - `ImagePending`: return a promise for an image that never settles,
        because the loader callback throws at the call of the
        `FinalizationRegistry` before it can resolve it;
      - `Registered`: return the size of a drawn polygon or compound shape;
      - `NameTaken`: throw because the name is in use;
      - `UnsupportedData`: throw because the data is of no supported kind;
      - `RegistryNotCallable`: throw a TypeError for binary data, which
        calls the `FinalizationRegistry` object as if it were a function;
      - `MalformedShape`: throw a TypeError for a polygon or compound shape
        whose data `fromTuples` cannot map or destructure;
      - `OptionsNull`: throw a TypeError reading `protected` of `null`. */
  datatype RegisterOutcome =
    ImagePending | Registered | NameTaken | UnsupportedData | RegistryNotCallable | MalformedShape | OptionsNull

  /** The outcomes that throw once the name has been registered. */
  predicate ThrowsAfterInsert(r: RegisterOutcome)
  {
    r == UnsupportedData || r == RegistryNotCallable || r == MalformedShape || r == OptionsNull
  }

  /** The members of `Object.prototype`: looking one of them up on the plain
      registry object finds a truthy inherited value. */
  const PrototypeKeys: set<string> := {
    "constructor", "__defineGetter__", "__defineSetter__", "hasOwnProperty",
    "__lookupGetter__", "__lookupSetter__", "isPrototypeOf", "propertyIsEnumerable",
    "toString", "valueOf", "__proto__", "toLocaleString"}

  /** `this.#shapes[name]` is truthy: an own entry, or an inherited member. */
  predicate NameInUse(shapes: map<string, Container>, name: string)
  {
    name in shapes || name in PrototypeKeys
  }

  /** Every element of a data array is an array of length two (true of an
      empty array). */
  predicate AllPairs(elements: seq<Element>)
  {
    forall i :: 0 <= i < |elements| ==> elements[i] == ArrayElement(2)
  }

  /** `fromTuples` can destructure every item as `[x, y]`: each is iterable
      (an item of another length gives `undefined` coordinates, not a throw). */
  predicate Destructurable(items: seq<Item>)
  {
    forall i :: 0 <= i < |items| ==> items[i].IterableItem?
  }

  /** Every item of a compound shape is a component whose `poly` is an array
      `fromTuples` can destructure. */
  predicate DrawableComponents(items: seq<Item>)
  {
    forall i :: 0 <= i < |items| ==>
      items[i].ComponentItem? && items[i].poly.Some? && Destructurable(items[i].poly.value)
  }

  /** The shapes drawn with `fromTuples`. */
  predicate Tupled(kind: ShapeKind)
  {
    kind == PolygonShape || kind == CompoundShape
  }

  /** A polygon or compound shape's data can be drawn without a TypeError. */
  predicate Drawable(kind: ShapeKind, items: Option<seq<Item>>)
  {
    items.Some? && (if kind == PolygonShape then Destructurable(items.value) else DrawableComponents(items.value))
  }

  /** The dispatch of `registerShape` on the kind of data, once the name is in. */
  function DataOutcome(data: ShapeData): (r: RegisterOutcome)
    ensures r != NameTaken && r != OptionsNull
    ensures r == ImagePending <==> data.AssetPath? || (data.ShapeOf? && data.kind == ImageShape)
    ensures r == RegistryNotCallable <==> data.ShapeOf? && data.kind == BinaryShape
    ensures r == Registered <==>
      (data.ShapeOf? && Tupled(data.kind) && Drawable(data.kind, data.items)) || (data.ArrayData? && AllPairs(data.elements))
    ensures r == MalformedShape <==> data.ShapeOf? && Tupled(data.kind) && !Drawable(data.kind, data.items)
    ensures r == UnsupportedData <==> data == OtherData || (data.ArrayData? && !AllPairs(data.elements))
  {
    match data
    case AssetPath(_) => ImagePending
    case ShapeOf(ImageShape, _) => ImagePending
    case ShapeOf(BinaryShape, _) => RegistryNotCallable
    case ShapeOf(PolygonShape, items) => if Drawable(PolygonShape, items) then Registered else MalformedShape
    case ShapeOf(CompoundShape, items) => if Drawable(CompoundShape, items) then Registered else MalformedShape
    case ArrayData(elements) => if AllPairs(elements) then Registered else UnsupportedData
    case OtherData => UnsupportedData
  }

  /** Shapes whose items do not fit their kind throw: a polygon holding a
      component, a compound shape holding vertices, or a shape whose data is
      not an array; a compound shape built by `addcomponent` from vertex
      arrays registers. */
  lemma MalformedShapes(v: seq<Item>)
    requires Destructurable(v)
    ensures DataOutcome(ShapeOf(PolygonShape, Some(v + [ComponentItem(Some(v))]))) == MalformedShape
    ensures v != [] ==> DataOutcome(ShapeOf(CompoundShape, Some(v))) == MalformedShape
    ensures DataOutcome(ShapeOf(PolygonShape, None)) == MalformedShape
    ensures DataOutcome(ShapeOf(CompoundShape, Some([ComponentItem(Some(v)), ComponentItem(Some(v))]))) == Registered
    ensures DataOutcome(ShapeOf(PolygonShape, Some(v))) == Registered
  {
    var items := v + [ComponentItem(Some(v))];
    assert !items[|v|].IterableItem?;
    if v != [] {
      assert !v[0].ComponentItem?;
    }
  }

  /** The registry after `registerShape`: unchanged when the name is in use,
      otherwise holding a new container under the name, whatever the data. */
  function RegisterShapes(shapes: map<string, Container>, name: string, options: RegisterOptions, next: nat): map<string, Container>
  {
    if NameInUse(shapes, name) then shapes
    else shapes[name := Container(next, ProtectedFlag(options))]
  }

  /** `options.protected ?? false`; with `null` options the flag is never
      assigned and stays falsy. */
  function ProtectedFlag(options: RegisterOptions): bool
  {
    options.OptionsObject? && options.protected == Some(true)
  }

  function RegisterOutcomeOf(shapes: map<string, Container>, name: string, options: RegisterOptions, data: ShapeData): RegisterOutcome
  {
    if NameInUse(shapes, name) then NameTaken
    else if options == NullOptions then OptionsNull
    else DataOutcome(data)
  }

  /** The registry entries `clear` keeps: the protected ones. */
  function ProtectedShapes(shapes: map<string, Container>): map<string, Container>
  {
    map n | n in shapes && shapes[n].protected :: shapes[n]
  }

  /** The containers whose listeners `clear` removes. */
  function Unlistened(shapes: map<string, Container>, includeProtected: bool): set<nat>
  {
    set n | n in shapes && (!shapes[n].protected || includeProtected) :: shapes[n].id
  }

  /** The stage objects `clear` destroys, in order. */
  function Unprotected(objects: seq<StageObject>): (r: seq<StageObject>)
    ensures |r| <= |objects|
    ensures forall o :: o in r <==> o in objects && !o.protected
  {
    if objects == [] then []
    else if objects[0].protected then Unprotected(objects[1..])
    else [objects[0]] + Unprotected(objects[1..])
  }

  /** The filter keeps the order of the list: filtering a concatenation is
      concatenating the filtered parts. */
  lemma {:induction false} UnprotectedKeepsOrder(a: seq<StageObject>, b: seq<StageObject>)
    ensures Unprotected(a + b) == Unprotected(a) + Unprotected(b)
  {
    if a != [] {
      assert (a + b)[1..] == a[1..] + b;
      UnprotectedKeepsOrder(a[1..], b);
    } else {
      assert a + b == b;
    }
  }

  function Ids(objects: seq<StageObject>): (r: seq<nat>)
    ensures |r| == |objects|
    ensures forall i :: 0 <= i < |objects| ==> r[i] == objects[i].id
  {
    if objects == [] then [] else [objects[0].id] + Ids(objects[1..])
  }

  /** A name that is in use cannot be registered again, and the registry
      stays as it was. */
  lemma RegisterRejectsNameInUse(shapes: map<string, Container>, name: string, data: ShapeData, options: RegisterOptions, next: nat)
    requires name in shapes || name in PrototypeKeys
    ensures RegisterOutcomeOf(shapes, name, options, data) == NameTaken
    ensures RegisterShapes(shapes, name, options, next) == shapes
  {
  }

  /** A free name is registered before the options and the data are looked
      at: it stays registered, under a new container, when the call then
      throws, which it does exactly for `null` options, unsupported data,
      binary data and polygon or compound shapes that cannot be drawn. */
  lemma ThrowingDataKeepsName(shapes: map<string, Container>, name: string, data: ShapeData, options: RegisterOptions, next: nat)
    requires !NameInUse(shapes, name)
    ensures ThrowsAfterInsert(RegisterOutcomeOf(shapes, name, options, data)) <==>
      || options == NullOptions
      || data == OtherData
      || (data.ArrayData? && !AllPairs(data.elements))
      || (data.ShapeOf? && data.kind == BinaryShape)
      || (data.ShapeOf? && Tupled(data.kind) && !Drawable(data.kind, data.items))
    ensures options == NullOptions ==> RegisterOutcomeOf(shapes, name, options, data) == OptionsNull
    ensures name in RegisterShapes(shapes, name, options, next)
    ensures RegisterShapes(shapes, name, options, next)[name] == Container(next, options == OptionsObject(Some(true)))
    ensures forall n :: n in shapes ==> n in RegisterShapes(shapes, name, options, next)
  {
  }

  /** After `unregisterShape` the same name can be registered again. */
  lemma UnregisterFreesName(shapes: map<string, Container>, name: string, data: ShapeData, options: RegisterOptions, next: nat)
    requires name in shapes && name !in PrototypeKeys
    ensures RegisterOutcomeOf(shapes - {name}, name, options, data) != NameTaken
    ensures options != NullOptions ==> RegisterOutcomeOf(shapes - {name}, name, options, data) == DataOutcome(data)
    ensures name in RegisterShapes(shapes - {name}, name, options, next)
  {
  }

  /** `clear` keeps exactly the protected entries, whatever `includeProtected`
      is, and clearing twice keeps the same entries. */
  lemma ClearKeepsProtected(shapes: map<string, Container>)
    ensures forall n :: n in ProtectedShapes(shapes) <==> n in shapes && shapes[n].protected
    ensures forall n :: n in ProtectedShapes(shapes) ==> ProtectedShapes(shapes)[n] == shapes[n]
    ensures ProtectedShapes(ProtectedShapes(shapes)) == ProtectedShapes(shapes)
  {
  }

  /** Listeners are removed from every unprotected container, and from the
      protected ones too exactly when `includeProtected` is set. */
  lemma ClearRemovesListeners(shapes: map<string, Container>, n: string, includeProtected: bool)
    requires n in shapes
    ensures !shapes[n].protected || includeProtected ==> shapes[n].id in Unlistened(shapes, includeProtected)
    ensures includeProtected ==> Unlistened(shapes, true) == set m | m in shapes :: shapes[m].id
  {
  }

  /** Settings of a text style: key/value pairs in the order of `Object.keys`. */
  datatype FontValue = FontNumber(n: real) | FontText(s: string)

  type Setting = (string, FontValue)

  /** A path into the nested maps of the font cache: the settings, sorted. */
  type Path = seq<Setting>

  /** `String.prototype` ordering as `sort` uses it: lexicographic by
      character code, a proper prefix first. */
  predicate StrLess(a: string, b: string)
    decreases |a|
  {
    |b| > 0 && (|a| == 0 || a[0] < b[0] || (a[0] == b[0] && StrLess(a[1..], b[1..])))
  }

  lemma {:induction false} StrLessIrreflexive(a: string)
    ensures !StrLess(a, a)
    decreases |a|
  {
    if |a| > 0 {
      StrLessIrreflexive(a[1..]);
    }
  }

  lemma {:induction false} StrLessTransitive(a: string, b: string, c: string)
    requires StrLess(a, b) && StrLess(b, c)
    ensures StrLess(a, c)
    decreases |a|
  {
    if |a| > 0 && a[0] == b[0] && b[0] == c[0] {
      StrLessTransitive(a[1..], b[1..], c[1..]);
    }
  }

  lemma {:induction false} StrLessTotal(a: string, b: string)
    requires a != b
    ensures StrLess(a, b) || StrLess(b, a)
    decreases |a|
  {
    if |a| > 0 && |b| > 0 && a[0] == b[0] {
      assert a == [a[0]] + a[1..] && b == [b[0]] + b[1..];
      StrLessTotal(a[1..], b[1..]);
    }
  }

  lemma StrLessAsymmetric(a: string, b: string)
    requires StrLess(a, b)
    ensures !StrLess(b, a)
  {
    if StrLess(b, a) {
      StrLessTransitive(a, b, a);
      StrLessIrreflexive(a);
    }
  }

  /** The keys of an object are distinct. */
  predicate DistinctKeys(s: seq<Setting>)
  {
    forall i, j :: 0 <= i < j < |s| ==> s[i].0 != s[j].0
  }

  /** Strictly increasing keys. */
  predicate SortedByKey(s: seq<Setting>)
  {
    forall i, j :: 0 <= i < j < |s| ==> StrLess(s[i].0, s[j].0)
  }

  function InsertByKey(x: Setting, s: seq<Setting>): seq<Setting>
  {
    if s == [] then [x]
    else if StrLess(x.0, s[0].0) then [x] + s
    else [s[0]] + InsertByKey(x, s[1..])
  }

  /** `Object.keys(settings).sort()` with each key's value: with distinct
      keys, sorting the keys and reading their values is sorting the pairs
      by key. */
  function SortByKey(s: seq<Setting>): seq<Setting>
  {
    if s == [] then [] else InsertByKey(s[0], SortByKey(s[1..]))
  }

  /** Every key of `s` is above `key`. */
  predicate KeysAbove(key: string, s: seq<Setting>)
  {
    forall k :: 0 <= k < |s| ==> StrLess(key, s[k].0)
  }

  /** No key of `s` is `key`. */
  predicate KeysAvoid(key: string, s: seq<Setting>)
  {
    forall k :: 0 <= k < |s| ==> s[k].0 != key
  }

  lemma KeysAbovePermutation(key: string, t: seq<Setting>, u: seq<Setting>)
    requires multiset(t) == multiset(u) && KeysAbove(key, u)
    ensures KeysAbove(key, t)
  {
    forall i | 0 <= i < |t|
      ensures StrLess(key, t[i].0)
    {
      assert t[i] in multiset(u);
      var k :| 0 <= k < |u| && u[k] == t[i];
    }
  }

  lemma KeysAvoidPermutation(key: string, t: seq<Setting>, u: seq<Setting>)
    requires multiset(t) == multiset(u) && KeysAvoid(key, u)
    ensures KeysAvoid(key, t)
  {
    forall i | 0 <= i < |t|
      ensures t[i].0 != key
    {
      assert t[i] in multiset(u);
      var k :| 0 <= k < |u| && u[k] == t[i];
    }
  }

  lemma {:induction false} InsertByKeySorted(x: Setting, s: seq<Setting>)
    requires SortedByKey(s)
    requires KeysAvoid(x.0, s)
    ensures SortedByKey(InsertByKey(x, s))
    ensures multiset(InsertByKey(x, s)) == multiset(s) + multiset{x}
  {
    if s == [] {
    } else if StrLess(x.0, s[0].0) {
      var r := [x] + s;
      forall i, j | 0 <= i < j < |r|
        ensures StrLess(r[i].0, r[j].0)
      {
        if i == 0 && j > 1 {
          StrLessTransitive(x.0, s[0].0, s[j - 1].0);
        }
      }
    } else {
      var tail := s[1..];
      StrLessTotal(x.0, s[0].0);
      assert KeysAvoid(x.0, tail) by {
        forall k | 0 <= k < |tail| ensures tail[k].0 != x.0 {
          assert tail[k] == s[k + 1];
        }
      }
      InsertByKeySorted(x, tail);
      var t := InsertByKey(x, tail);
      assert KeysAbove(s[0].0, tail + [x]) by {
        forall k | 0 <= k < |tail| + 1 ensures StrLess(s[0].0, (tail + [x])[k].0) {
          if k < |tail| {
            assert tail[k] == s[k + 1];
          }
        }
      }
      KeysAbovePermutation(s[0].0, t, tail + [x]);
      var r := [s[0]] + t;
      assert s == [s[0]] + tail;
      forall i, j | 0 <= i < j < |r|
        ensures StrLess(r[i].0, r[j].0)
      {
        if i == 0 {
          assert r[j] == t[j - 1];
        }
      }
    }
  }

  lemma {:induction false} SortByKeySorted(s: seq<Setting>)
    requires DistinctKeys(s)
    ensures SortedByKey(SortByKey(s))
    ensures multiset(SortByKey(s)) == multiset(s)
  {
    if s != [] {
      var tail := s[1..];
      assert DistinctKeys(tail) by {
        forall i, j | 0 <= i < j < |tail| ensures tail[i].0 != tail[j].0 {
          assert tail[i] == s[i + 1] && tail[j] == s[j + 1];
        }
      }
      SortByKeySorted(tail);
      var t := SortByKey(tail);
      assert KeysAvoid(s[0].0, tail) by {
        forall k | 0 <= k < |tail| ensures tail[k].0 != s[0].0 {
          assert tail[k] == s[k + 1];
        }
      }
      KeysAvoidPermutation(s[0].0, t, tail);
      InsertByKeySorted(s[0], t);
      assert s == [s[0]] + tail;
    }
  }

  /** Two strictly sorted sequences with the same elements are equal. */
  lemma {:induction false} SortedUnique(a: seq<Setting>, b: seq<Setting>)
    requires SortedByKey(a) && SortedByKey(b)
    requires multiset(a) == multiset(b)
    ensures a == b
  {
    if a == [] {
      assert |multiset(b)| == 0;
    } else {
      SortedHeadsAgree(a, b);
      MultisetOfTail(a);
      MultisetOfTail(b);
      SortedUnique(a[1..], b[1..]);
    }
  }

  /** Two non-empty strictly sorted sequences with the same elements start
      with the same element, their least. */
  lemma SortedHeadsAgree(a: seq<Setting>, b: seq<Setting>)
    requires SortedByKey(a) && SortedByKey(b)
    requires multiset(a) == multiset(b) && |a| > 0
    ensures |b| > 0 && a[0] == b[0]
  {
    assert a[0] in multiset(b);
    var j :| 0 <= j < |b| && b[j] == a[0];
    assert b[0] in multiset(a);
    var i :| 0 <= i < |a| && a[i] == b[0];
    if j > 0 {
      if i == 0 {
        StrLessIrreflexive(b[0].0);
      } else {
        StrLessAsymmetric(a[0].0, a[i].0);
      }
      assert false;
    }
  }

  lemma MultisetOfTail<T>(s: seq<T>)
    requires |s| > 0
    ensures multiset(s[1..]) == multiset(s) - multiset{s[0]}
  {
    assert s == [s[0]] + s[1..];
  }

  /** The path `#fontCache` walks for the settings. */
  function FontPath(settings: seq<Setting>): Path
  {
    SortByKey(settings)
  }

  /** Two settings objects with the same key/value pairs, in any key order,
      walk the same path. */
  lemma FontPathOrderFree(s1: seq<Setting>, s2: seq<Setting>)
    requires DistinctKeys(s1) && DistinctKeys(s2)
    requires multiset(s1) == multiset(s2)
    ensures FontPath(s1) == FontPath(s2)
  {
    SortByKeySorted(s1);
    SortByKeySorted(s2);
    SortedUnique(FontPath(s1), FontPath(s2));
  }

  /** The nested maps of the font cache. A node reached along a path `p` is
      a map from keys to inner maps (one per key met after `p`, recorded in
      `keyNodes`), and may hold a text style under the key `"data"`
      (recorded in `styles`). */
  datatype FontTree = FontTree(keyNodes: set<(Path, string)>, styles: map<Path, nat>, nextStyle: nat)

  /** No node holds a text style and an inner map under the same key
      `"data"`, and every style handle was handed out before. */
  predicate WellFormedTree(t: FontTree)
  {
    forall p :: p in t.styles ==> (p, "data") !in t.keyNodes && t.styles[p] < t.nextStyle
  }

  /** What `#fontCache` returns: a text style; the inner map under `"data"`
      when a settings key `"data"` created one at the end of the path; or the
      TypeError of asking a text style for an inner map. */
  datatype FontResult = TextStyle(id: nat) | InnerMap(at: Path) | StyleInPath

  /** The key nodes after walking the first steps of `path`, or `None` when a
      step reaches a text style stored under `"data"`. */
  function Walk(keyNodes: set<(Path, string)>, styles: map<Path, nat>, path: Path): Option<set<(Path, string)>>
  {
    if path == [] then Some(keyNodes)
    else
      var prefix := path[..|path| - 1];
      var key := path[|path| - 1].0;
      match Walk(keyNodes, styles, prefix)
      case None => None
      case Some(nodes) => if key == "data" && prefix in styles then None else Some(nodes + {(prefix, key)})
  }

  /** The whole of `#fontCache` on the tree. */
  function FontLookup(t: FontTree, path: Path): (FontResult, FontTree)
  {
    match Walk(t.keyNodes, t.styles, path)
    case None => (StyleInPath, t)
    case Some(nodes) =>
      if (path, "data") in nodes then (InnerMap(path), t.(keyNodes := nodes))
      else if path in t.styles then (TextStyle(t.styles[path]), t.(keyNodes := nodes))
      else (TextStyle(t.nextStyle), FontTree(nodes, t.styles[path := t.nextStyle], t.nextStyle + 1))
  }

  /** The walk only adds key nodes, and each one along the path. */
  lemma {:induction false} WalkAdds(keyNodes: set<(Path, string)>, styles: map<Path, nat>, path: Path)
    requires Walk(keyNodes, styles, path).Some?
    ensures keyNodes <= Walk(keyNodes, styles, path).value
    ensures forall i :: 0 <= i < |path| ==> (path[..i], path[i].0) in Walk(keyNodes, styles, path).value
    ensures forall e :: e in Walk(keyNodes, styles, path).value ==>
              e in keyNodes || exists i :: 0 <= i < |path| && e == (path[..i], path[i].0)
  {
    if path != [] {
      var prefix := path[..|path| - 1];
      WalkAdds(keyNodes, styles, prefix);
      forall i | 0 <= i < |prefix|
        ensures prefix[..i] == path[..i] && prefix[i] == path[i]
      {
      }
      var nodes := Walk(keyNodes, styles, prefix).value;
      forall e | e in Walk(keyNodes, styles, path).value
        ensures e in keyNodes || exists i :: 0 <= i < |path| && e == (path[..i], path[i].0)
      {
        if e in nodes && e !in keyNodes {
          var i :| 0 <= i < |prefix| && e == (prefix[..i], prefix[i].0);
          assert e == (path[..i], path[i].0);
        }
      }
    }
  }

  /** A walk that got through once gets through again on the tree it left
      behind and adds nothing, as long as styles were only added at the end
      of the path. */
  lemma {:induction false} WalkAgain(keyNodes: set<(Path, string)>, styles: map<Path, nat>, styles': map<Path, nat>, path: Path)
    requires Walk(keyNodes, styles, path).Some?
    requires forall p :: p in styles' && p !in styles ==> |p| >= |path|
    ensures Walk(Walk(keyNodes, styles, path).value, styles', path) == Walk(keyNodes, styles, path)
  {
    if path != [] {
      var prefix := path[..|path| - 1];
      WalkAgain(keyNodes, styles, styles', prefix);
      assert |prefix| < |path|;
      var nodes := Walk(keyNodes, styles, path).value;
      var nodes0 := Walk(keyNodes, styles, prefix).value;
      WalkMonotone(nodes0, nodes, styles', prefix);
      WalkAdds(keyNodes, styles, path);
      WalkAdds(nodes0, styles', prefix);
      WalkAdds(nodes, styles', prefix);
      var again := Walk(nodes, styles', prefix).value;
      assert again == nodes;
      assert (prefix, path[|path| - 1].0) in nodes;
    }
  }

  /** Walking from more key nodes succeeds whenever walking from fewer does. */
  lemma {:induction false} WalkMonotone(small: set<(Path, string)>, large: set<(Path, string)>, styles: map<Path, nat>, path: Path)
    requires small <= large
    ensures Walk(small, styles, path).Some? <==> Walk(large, styles, path).Some?
    ensures Walk(small, styles, path).Some? ==> Walk(small, styles, path).value <= Walk(large, styles, path).value
  {
    if path != [] {
      WalkMonotone(small, large, styles, path[..|path| - 1]);
    }
  }

  /** Asking again with the same path returns the identical text style and
      leaves the tree alone. */
  lemma {:induction false} FontLookupRepeats(t: FontTree, path: Path)
    requires FontLookup(t, path).0.TextStyle?
    ensures FontLookup(FontLookup(t, path).1, path) == FontLookup(t, path)
  {
    var t' := FontLookup(t, path).1;
    WalkAgain(t.keyNodes, t.styles, t'.styles, path);
  }

  /** A lookup keeps the tree well formed, hands out a new handle only when
      it creates a style, and never forgets a style. */
  lemma {:induction false} FontLookupKeepsTree(t: FontTree, path: Path)
    requires WellFormedTree(t)
    ensures WellFormedTree(FontLookup(t, path).1)
    ensures t.styles.Keys <= FontLookup(t, path).1.styles.Keys
    ensures forall p :: p in t.styles ==> FontLookup(t, path).1.styles[p] == t.styles[p]
    ensures FontLookup(t, path).0.TextStyle? && path !in t.styles ==> FontLookup(t, path).0.id == t.nextStyle
  {
    var w := Walk(t.keyNodes, t.styles, path);
    if w.Some? {
      WalkAdds(t.keyNodes, t.styles, path);
      var t' := FontLookup(t, path).1;
      forall p | p in t'.styles
        ensures (p, "data") !in t'.keyNodes
      {
        if (p, "data") in w.value && (p, "data") !in t.keyNodes {
          var i :| 0 <= i < |path| && (p, "data") == (path[..i], path[i].0);
          WalkPrefixGuard(t.keyNodes, t.styles, path, i);
        }
      }
    }
  }

  /** A walk that got through never met a style at a step keyed `"data"`. */
  lemma {:induction false} WalkPrefixGuard(keyNodes: set<(Path, string)>, styles: map<Path, nat>, path: Path, i: nat)
    requires Walk(keyNodes, styles, path).Some?
    requires i < |path| && path[i].0 == "data"
    ensures path[..i] !in styles
  {
    var prefix := path[..|path| - 1];
    if i < |path| - 1 {
      assert prefix[..i] == path[..i] && prefix[i] == path[i];
      WalkPrefixGuard(keyNodes, styles, prefix, i);
    } else {
      assert path[..i] == prefix;
    }
  }

  class PixiCanvas {
    /** `#shapes`: the registry of shape names. */
    var shapes: map<string, Container>
    /** The next container handle. */
    var nextContainer: nat
    /** The containers whose listeners were removed. */
    var unlistened: set<nat>
    /** `#objects`: what was drawn on the stage, in order. */
    var objects: seq<StageObject>
    /** The stage objects destroyed so far, in order. */
    var destroyed: seq<nat>
    /** `#_fontCache`. */
    var fontCache: FontTree

    predicate Valid()
      reads this
    {
      && (forall n :: n in shapes ==> n !in PrototypeKeys && shapes[n].id < nextContainer)
      && WellFormedTree(fontCache)
    }

    constructor()
      ensures Valid()
      ensures shapes == map[] && objects == [] && destroyed == [] && unlistened == {}
      ensures fontCache == FontTree({}, map[], 0)
    {
      shapes := map[];
      nextContainer := 0;
      unlistened := {};
      objects := [];
      destroyed := [];
      fontCache := FontTree({}, map[], 0);
    }

    /** `registerShape(name, data, options)`. */
    method RegisterShape(name: string, data: ShapeData, options: RegisterOptions) returns (r: RegisterOutcome)
      requires Valid()
      modifies this`shapes, this`nextContainer
      ensures Valid()
      ensures r == RegisterOutcomeOf(old(shapes), name, options, data)
      ensures shapes == RegisterShapes(old(shapes), name, options, old(nextContainer))
      ensures r == NameTaken ==> unchanged(this)
    {
      if name in shapes || name in PrototypeKeys {
        return NameTaken;
      }
      shapes := shapes[name := Container(nextContainer, ProtectedFlag(options))];
      nextContainer := nextContainer + 1;
      if options == NullOptions {
        return OptionsNull;
      }
      r := DataOutcome(data);
    }

    /** `unregisterShape(name)`: remove the container's listeners and the
        entry; a name without an own entry throws (`ok` is false) and
        nothing changes. */
    method UnregisterShape(name: string) returns (ok: bool)
      requires Valid()
      modifies this`shapes, this`unlistened
      ensures Valid()
      ensures ok <==> name in old(shapes)
      ensures ok ==> shapes == old(shapes) - {name} && unlistened == old(unlistened) + {old(shapes)[name].id}
      ensures !ok ==> unchanged(this)
    {
      if name !in shapes {
        return false;
      }
      unlistened := unlistened + {shapes[name].id};
      shapes := shapes - {name};
      ok := true;
    }

    /** `clear({includeProtected})`: empty the stage list, destroy its
        unprotected objects in order, remove the listeners of the containers
        that are unprotected (all of them with `includeProtected`), and keep
        only the protected registry entries. */
    method Clear(includeProtected: bool)
      requires Valid()
      modifies this`objects, this`destroyed, this`unlistened, this`shapes
      ensures Valid()
      ensures objects == []
      ensures destroyed == old(destroyed) + Ids(Unprotected(old(objects)))
      ensures unlistened == old(unlistened) + Unlistened(old(shapes), includeProtected)
      ensures shapes == ProtectedShapes(old(shapes))
    {
      var doomed := Unprotected(objects);
      objects := [];
      DestroyAll(doomed);
      unlistened := unlistened + Unlistened(shapes, includeProtected);
      shapes := ProtectedShapes(shapes);
    }

    /** The loop of `clear` over the spliced-out stage objects: destroy each
        in order. */
    method DestroyAll(doomed: seq<StageObject>)
      modifies this`destroyed
      ensures destroyed == old(destroyed) + Ids(doomed)
    {
      var i := 0;
      while i < |doomed|
        invariant 0 <= i <= |doomed|
        invariant destroyed == old(destroyed) + Ids(doomed[..i])
      {
        assert Ids(doomed[..i + 1]) == Ids(doomed[..i]) + [doomed[i].id];
        destroyed := destroyed + [doomed[i].id];
        i := i + 1;
      }
      assert doomed[..i] == doomed;
    }

    /** `#fontCache(settings)`: walk the nested maps along the sorted
        settings, creating the maps that are missing, then return the style
        stored at the end, creating it if there is none. */
    method FontCache(settings: seq<Setting>) returns (r: FontResult)
      requires Valid() && DistinctKeys(settings)
      modifies this`fontCache
      ensures Valid()
      ensures (r, fontCache) == FontLookup(old(fontCache), FontPath(settings))
    {
      var path := SortByKey(settings);
      ghost var original := fontCache;
      FontLookupKeepsTree(fontCache, path);
      var nodes := fontCache.keyNodes;
      var i := 0;
      while i < |path|
        invariant 0 <= i <= |path|
        invariant Walk(original.keyNodes, original.styles, path[..i]) == Some(nodes)
        invariant fontCache == original
      {
        var key := path[i].0;
        assert path[..i + 1][..i] == path[..i];
        if key == "data" && path[..i] in fontCache.styles {
          WalkStopsAtStyle(original.keyNodes, original.styles, path, i + 1);
          return StyleInPath;
        }
        nodes := nodes + {(path[..i], key)};
        i := i + 1;
      }
      assert path[..i] == path;
      if (path, "data") in nodes {
        fontCache := fontCache.(keyNodes := nodes);
        r := InnerMap(path);
      } else if path in fontCache.styles {
        fontCache := fontCache.(keyNodes := nodes);
        r := TextStyle(fontCache.styles[path]);
      } else {
        r := TextStyle(fontCache.nextStyle);
        fontCache := FontTree(nodes, fontCache.styles[path := fontCache.nextStyle], fontCache.nextStyle + 1);
      }
    }
  }

  /** A walk that fails on a prefix fails on the whole path. */
  lemma {:induction false} WalkStopsAtStyle(keyNodes: set<(Path, string)>, styles: map<Path, nat>, path: Path, n: nat)
    requires n <= |path| && Walk(keyNodes, styles, path[..n]).None?
    ensures Walk(keyNodes, styles, path).None?
    decreases |path| - n
  {
    if n < |path| {
      assert path[..n + 1][..n] == path[..n];
      WalkStopsAtStyle(keyNodes, styles, path, n + 1);
    } else {
      assert path[..n] == path;
    }
  }
}
