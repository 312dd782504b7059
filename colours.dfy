/** The colour handling of src/canvas.js: the CSS colour-name table behind
    `colourNameToHex`, and the dispatch of `convertColor` on the kind of
    colour value it is given. */
module Colours {

  datatype Option<T> = None | Some(value: T)

  /** The colour-name table, keyed by lower-case name, in groups by initial
      letter. One key, `"indianred "`, carries a trailing space. */
  function ColoursStartingWith(initial: char): map<string, string>
  {
    match initial
    case 'a' => map["aliceblue" := "#f0f8ff", "antiquewhite" := "#faebd7", "aqua" := "#00ffff",
        "aquamarine" := "#7fffd4", "azure" := "#f0ffff"]
    case 'b' => map["beige" := "#f5f5dc", "bisque" := "#ffe4c4", "black" := "#000000",
        "blanchedalmond" := "#ffebcd", "blue" := "#0000ff", "blueviolet" := "#8a2be2",
        "brown" := "#a52a2a", "burlywood" := "#deb887"]
    case 'c' => map["cadetblue" := "#5f9ea0", "chartreuse" := "#7fff00", "chocolate" := "#d2691e",
        "coral" := "#ff7f50", "cornflowerblue" := "#6495ed", "cornsilk" := "#fff8dc",
        "crimson" := "#dc143c", "cyan" := "#00ffff"]
    case 'd' => map["darkblue" := "#00008b", "darkcyan" := "#008b8b", "darkgoldenrod" := "#b8860b",
        "darkgray" := "#a9a9a9", "darkgreen" := "#006400", "darkkhaki" := "#bdb76b",
        "darkmagenta" := "#8b008b", "darkolivegreen" := "#556b2f", "darkorange" := "#ff8c00",
        "darkorchid" := "#9932cc", "darkred" := "#8b0000", "darksalmon" := "#e9967a",
        "darkseagreen" := "#8fbc8f", "darkslateblue" := "#483d8b", "darkslategray" := "#2f4f4f",
        "darkturquoise" := "#00ced1", "darkviolet" := "#9400d3", "deeppink" := "#ff1493",
        "deepskyblue" := "#00bfff", "dimgray" := "#696969", "dodgerblue" := "#1e90ff"]
    case 'f' => map["firebrick" := "#b22222", "floralwhite" := "#fffaf0", "forestgreen" := "#228b22",
        "fuchsia" := "#ff00ff"]
    case 'g' => map["gainsboro" := "#dcdcdc", "ghostwhite" := "#f8f8ff", "gold" := "#ffd700",
        "goldenrod" := "#daa520", "gray" := "#808080", "green" := "#008000", "greenyellow" := "#adff2f"]
    case 'h' => map["honeydew" := "#f0fff0", "hotpink" := "#ff69b4"]
    case 'i' => map["indianred " := "#cd5c5c", "indigo" := "#4b0082", "ivory" := "#fffff0"]
    case 'k' => map["khaki" := "#f0e68c"]
    case 'l' => map["lavender" := "#e6e6fa", "lavenderblush" := "#fff0f5", "lawngreen" := "#7cfc00",
        "lemonchiffon" := "#fffacd", "lightblue" := "#add8e6", "lightcoral" := "#f08080",
        "lightcyan" := "#e0ffff", "lightgoldenrodyellow" := "#fafad2", "lightgrey" := "#d3d3d3",
        "lightgreen" := "#90ee90", "lightpink" := "#ffb6c1", "lightsalmon" := "#ffa07a",
        "lightseagreen" := "#20b2aa", "lightskyblue" := "#87cefa", "lightslategray" := "#778899",
        "lightsteelblue" := "#b0c4de", "lightyellow" := "#ffffe0", "lime" := "#00ff00",
        "limegreen" := "#32cd32", "linen" := "#faf0e6"]
    case 'm' => map["magenta" := "#ff00ff", "maroon" := "#800000", "mediumaquamarine" := "#66cdaa",
        "mediumblue" := "#0000cd", "mediumorchid" := "#ba55d3", "mediumpurple" := "#9370d8",
        "mediumseagreen" := "#3cb371", "mediumslateblue" := "#7b68ee", "mediumspringgreen" := "#00fa9a",
        "mediumturquoise" := "#48d1cc", "mediumvioletred" := "#c71585", "midnightblue" := "#191970",
        "mintcream" := "#f5fffa", "mistyrose" := "#ffe4e1", "moccasin" := "#ffe4b5"]
    case 'n' => map["navajowhite" := "#ffdead", "navy" := "#000080"]
    case 'o' => map["oldlace" := "#fdf5e6", "olive" := "#808000", "olivedrab" := "#6b8e23",
        "orange" := "#ffa500", "orangered" := "#ff4500", "orchid" := "#da70d6"]
    case 'p' => map["palegoldenrod" := "#eee8aa", "palegreen" := "#98fb98", "paleturquoise" := "#afeeee",
        "palevioletred" := "#d87093", "papayawhip" := "#ffefd5", "peachpuff" := "#ffdab9",
        "peru" := "#cd853f", "pink" := "#ffc0cb", "plum" := "#dda0dd", "powderblue" := "#b0e0e6",
        "purple" := "#800080"]
    case 'r' => map["rebeccapurple" := "#663399", "red" := "#ff0000", "rosybrown" := "#bc8f8f",
        "royalblue" := "#4169e1"]
    case 's' => map["saddlebrown" := "#8b4513", "salmon" := "#fa8072", "sandybrown" := "#f4a460",
        "seagreen" := "#2e8b57", "seashell" := "#fff5ee", "sienna" := "#a0522d", "silver" := "#c0c0c0",
        "skyblue" := "#87ceeb", "slateblue" := "#6a5acd", "slategray" := "#708090", "snow" := "#fffafa",
        "springgreen" := "#00ff7f", "steelblue" := "#4682b4"]
    case 't' => map["tan" := "#d2b48c", "teal" := "#008080", "thistle" := "#d8bfd8", "tomato" := "#ff6347",
        "turquoise" := "#40e0d0"]
    case 'v' => map["violet" := "#ee82ee"]
    case 'w' => map["wheat" := "#f5deb3", "white" := "#ffffff", "whitesmoke" := "#f5f5f5"]
    case 'y' => map["yellow" := "#ffff00", "yellowgreen" := "#9acd32"]
    case _ => map[]
  }

  /** The table entry for a key, if there is one. */
  function TableEntry(key: string): Option<string>
  {
    if key == [] then None
    else
      var group := ColoursStartingWith(key[0]);
      if key in group then Some(group[key]) else None
  }

  /** ASCII upper-case letters lowered; every other character kept. */
  function LowerChar(c: char): char
  {
    if 'A' <= c <= 'Z' then (c as int - 'A' as int + 'a' as int) as char else c
  }

  /** `toLowerCase`, for ASCII letters. */
  function ToLower(s: string): (r: string)
    ensures |r| == |s|
    ensures forall i :: 0 <= i < |s| ==> r[i] == LowerChar(s[i])
  {
    if s == [] then [] else [LowerChar(s[0])] + ToLower(s[1..])
  }

  /** Lowering twice is lowering once. */
  lemma {:induction false} ToLowerIdempotent(s: string)
    ensures ToLower(ToLower(s)) == ToLower(s)
  {
    if s != [] {
      ToLowerIdempotent(s[1..]);
      assert ToLower(s)[1..] == ToLower(s[1..]);
    }
  }

  /** The result of looking a name up in the table object: a hex string, an
      inherited member of `Object.prototype` (whose lower-case names are
      `constructor` and `__proto__`), or nothing, which throws. */
  datatype NameLookup = Hex(code: string) | Inherited(key: string) | UnknownColour(name: string)

  /** `colourNameToHex`: look the lower-cased name up in the table. */
  function ColourNameToHex(colour: string): NameLookup
  {
    var key := ToLower(colour);
    if TableEntry(key).Some? then Hex(TableEntry(key).value)
    else if key == "constructor" || key == "__proto__" then Inherited(key)
    else UnknownColour(colour)
  }

  /** The lookup ignores ASCII case: a name and its lower-case form find the
      same entry, and either is unknown exactly when the other is. */
  lemma ColourLookupIgnoresCase(colour: string)
    ensures ColourNameToHex(colour).Hex? <==> ColourNameToHex(ToLower(colour)).Hex?
    ensures ColourNameToHex(colour).Hex? ==> ColourNameToHex(colour) == ColourNameToHex(ToLower(colour))
    ensures ColourNameToHex(colour).UnknownColour? <==> ColourNameToHex(ToLower(colour)).UnknownColour?
  {
    ToLowerIdempotent(colour);
  }

  /** Every spelling of "red", in any case, is `#ff0000`; every spelling of
      "reddish" is unknown and reported as given. */
  lemma RedInAnyCase(name: string)
    ensures ToLower(name) == "red" ==> ColourNameToHex(name) == Hex("#ff0000")
    ensures ToLower(name) == "reddish" ==> ColourNameToHex(name) == UnknownColour(name)
  {
  }

  /** Because the table's key is `"indianred "`, a name that lowers to
      "indianred" is unknown ... */
  lemma IndianRedIsUnknown(name: string)
    requires ToLower(name) == "indianred"
    ensures ColourNameToHex(name) == UnknownColour(name)
  {
    assert ToLower(name) !in ColoursStartingWith('i');
  }

  /** ... while one that lowers to "indianred " with the trailing space is found. */
  lemma IndianRedWithTrailingSpace(name: string)
    requires ToLower(name) == "indianred "
    ensures ColourNameToHex(name) == Hex("#cd5c5c")
  {
  }

  /** A colour value as `convertColor` tells them apart. */
  datatype ColourValue =
    | ColourNumber(n: real)
    | ColourArray(items: seq<real>)
    | ColourString(s: string)
    | OtherValue

  /** What `convertColor` does with a value: return a number as it is, hand
      the value to one of PIXI's converters (outside this model), convert the
      hex string `ColourNameToHex` finds for a name (which throws for an
      unknown name), or throw for an unknown format. */
  datatype Conversion =
    | AsIs(n: real)
    | PixiRgbToHex(items: seq<real>)
    | PixiHexString(s: string)
    | CssRgb(s: string)
    | ByName(name: string)
    | UnknownFormat

  /** The whitespace `trim` removes, restricted to ASCII. */
  predicate IsSpace(c: char)
  {
    c == ' ' || c == '\t' || c == '\n' || c == '\r' || c == '\U{B}' || c == '\U{C}'
  }

  function TrimStart(s: string): (r: string)
    ensures |r| <= |s| && r == s[|s| - |r|..]
    ensures r == [] || !IsSpace(r[0])
  {
    if s != [] && IsSpace(s[0]) then TrimStart(s[1..]) else s
  }

  predicate StartsWith(s: string, prefix: string)
  {
    |prefix| <= |s| && s[..|prefix|] == prefix
  }

  /** `convertColor`: the branches in source order. */
  function ConvertColor(v: ColourValue): Conversion
  {
    match v
    case ColourNumber(n) => if 0.0 <= n <= 16777215.0 then AsIs(n) else UnknownFormat
    case ColourArray(items) => PixiRgbToHex(items)
    case ColourString(s) =>
      if StartsWith(s, "#") then PixiHexString(s)
      else if StartsWith(TrimStart(s), "rgb") then CssRgb(s)
      else ByName(s)
    case OtherValue => UnknownFormat
  }

  /** A number is returned unchanged exactly when it lies in
      `[0, 0xFFFFFF]`; any other number is an unknown format. */
  lemma ConvertColorNumbers(n: real)
    ensures ConvertColor(ColourNumber(n)) == AsIs(n) <==> 0.0 <= n <= 16777215.0
    ensures ConvertColor(ColourNumber(n)) != AsIs(n) ==> ConvertColor(ColourNumber(n)) == UnknownFormat
  {
  }

  /** A string that is neither a `#` code nor an `rgb` text (after leading
      spaces) goes by name. */
  lemma ConvertColorByName(s: string)
    requires !StartsWith(s, "#") && !StartsWith(TrimStart(s), "rgb")
    ensures ConvertColor(ColourString(s)) == ByName(s)
  {
  }

  /** Leading spaces do not hide an `rgb` text, and a `#` code goes to PIXI. */
  lemma ConvertColorExamples()
    ensures ConvertColor(ColourString(" rgb(0,0,0)")) == CssRgb(" rgb(0,0,0)")
    ensures ConvertColor(ColourString("#fff")) == PixiHexString("#fff")
  {
    var t := " rgb(0,0,0)";
    assert TrimStart(t) == t[1..] by {
      assert IsSpace(t[0]) && !IsSpace(t[1]);
    }
    assert StartsWith(t[1..], "rgb");
    assert !StartsWith(t, "#");
  }
}
