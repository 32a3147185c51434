/**
 * The untyped property dictionary ImageIO hands over (an `NSDictionary`),
 * and the type-checked lookups every accessor of the library is built on:
 * `rawValue[key] as? T`. A lookup never fails: a missing key and a value of
 * another type both give absence.
 *
 * Keys are written as the names of the ImageIO constants
 * (`"kCGImagePropertyDPIHeight"`), standing for the strings those constants
 * hold. Each value carries one type tag, and a lookup succeeds only on its own
 * tag; the cross-type readings of bridged `NSNumber`s are not modelled.
 */
module PropertyStore {
  import opened Wrappers
  import Text

  /**
   * A property value. A `Dbl` keeps a Double opaque: only its text
   * (`String(describing:)`) is carried, and no arithmetic is done on it.
   */
  datatype Value =
    | Int(intValue: int)
    | Dbl(text: string)
    | Str(str: string)
    | Bool(flag: bool)
    | Arr(items: seq<Value>)
    | Dict(entries: map<string, Value>)

  /** A property dictionary, keyed by the name of its ImageIO constant. */
  type Store = map<string, Value>

  const UInt32Bound := 0x1_0000_0000

  /** `rawValue[key] as? Int` */
  function IntAt(d: Store, key: string): (r: Option<int>)
    ensures r.Some? <==> key in d && d[key].Int?
    ensures r.Some? ==> r.value == d[key].intValue
  {
    if key in d && d[key].Int? then Some(d[key].intValue) else None
  }

  /** `rawValue[key] as? UInt32`: an integer that fits in 32 unsigned bits. */
  function UInt32At(d: Store, key: string): (r: Option<int>)
    ensures r.Some? <==> key in d && d[key].Int? && 0 <= d[key].intValue < UInt32Bound
    ensures r.Some? ==> r.value == d[key].intValue
  {
    match IntAt(d, key)
    case Some(n) => if 0 <= n < UInt32Bound then Some(n) else None
    case None => None
  }

  /** `rawValue[key] as? Double`, its text kept opaque. */
  function DoubleAt(d: Store, key: string): (r: Option<string>)
    ensures r.Some? <==> key in d && d[key].Dbl?
    ensures r.Some? ==> r.value == d[key].text
  {
    if key in d && d[key].Dbl? then Some(d[key].text) else None
  }

  /** `rawValue[key] as? String` */
  function StringAt(d: Store, key: string): (r: Option<string>)
    ensures r.Some? <==> key in d && d[key].Str?
    ensures r.Some? ==> r.value == d[key].str
  {
    if key in d && d[key].Str? then Some(d[key].str) else None
  }

  /** `rawValue[key] as? Bool` */
  function BoolAt(d: Store, key: string): (r: Option<bool>)
    ensures r.Some? <==> key in d && d[key].Bool?
    ensures r.Some? ==> r.value == d[key].flag
  {
    if key in d && d[key].Bool? then Some(d[key].flag) else None
  }

  /** `rawValue[key] as? NSDictionary` */
  function DictAt(d: Store, key: string): (r: Option<Store>)
    ensures r.Some? <==> key in d && d[key].Dict?
    ensures r.Some? ==> r.value == d[key].entries
  {
    if key in d && d[key].Dict? then Some(d[key].entries) else None
  }

  /** `rawValue[key] as? [CustomStringConvertible]`: every element of an array qualifies. */
  function ArrayAt(d: Store, key: string): (r: Option<seq<Value>>)
    ensures r.Some? <==> key in d && d[key].Arr?
    ensures r.Some? ==> r.value == d[key].items
  {
    if key in d && d[key].Arr? then Some(d[key].items) else None
  }

  predicate AllInts(items: seq<Value>) {
    forall i :: 0 <= i < |items| ==> items[i].Int?
  }

  predicate AllStrs(items: seq<Value>) {
    forall i :: 0 <= i < |items| ==> items[i].Str?
  }

  /** `rawValue[key] as? [Int]`: an array whose every element is an integer. */
  function IntArrayAt(d: Store, key: string): (r: Option<seq<int>>)
    ensures r.Some? <==> key in d && d[key].Arr? && AllInts(d[key].items)
    ensures r.Some? ==> (|r.value| == |d[key].items|
      && forall i :: 0 <= i < |r.value| ==> d[key].items[i] == Int(r.value[i]))
  {
    if key in d && d[key].Arr? && AllInts(d[key].items) then
      var items := d[key].items;
      Some(seq(|items|, i requires 0 <= i < |items| => items[i].intValue))
    else None
  }

  /** `rawValue[key] as? [String]`: an array whose every element is a string. */
  function StringArrayAt(d: Store, key: string): (r: Option<seq<string>>)
    ensures r.Some? <==> key in d && d[key].Arr? && AllStrs(d[key].items)
    ensures r.Some? ==> (|r.value| == |d[key].items|
      && forall i :: 0 <= i < |r.value| ==> d[key].items[i] == Str(r.value[i]))
  {
    if key in d && d[key].Arr? && AllStrs(d[key].items) then
      var items := d[key].items;
      Some(seq(|items|, i requires 0 <= i < |items| => items[i].str))
    else None
  }

  /**
   * `String(describing:)` of one element: an integer's decimal text, a
   * Double's own text, a string unchanged, a boolean `NSNumber` as "1" or
   * "0". Foundation's text for a nested array or dictionary is not
   * modelled; such an element is described as the empty string.
   */
  function Describe(v: Value): string {
    match v
    case Int(n) => Text.DecimalText(n)
    case Dbl(t) => t
    case Str(s) => s
    case Bool(b) => if b then "1" else "0"
    case Arr(_) => ""
    case Dict(_) => ""
  }

  /** `components.map { String(describing: $0) }.joined(separator: ".")` */
  function DottedText(items: seq<Value>): string {
    Text.Join(seq(|items|, i requires 0 <= i < |items| => Describe(items[i])), '.')
  }

  /**
   * For an array of integers, the dotted text determines the array: split
   * at '.', each piece parses back to its component.
   */
  lemma DottedTextOfInts(xs: seq<int>)
    requires |xs| > 0
    ensures var parts := Text.Split(DottedText(seq(|xs|, i requires 0 <= i < |xs| => Int(xs[i]))), '.');
      |parts| == |xs| && forall i :: 0 <= i < |xs| ==> Text.ParseDecimal(parts[i]) == xs[i]
  {
    var items := seq(|xs|, i requires 0 <= i < |xs| => Int(xs[i]));
    var texts := seq(|items|, i requires 0 <= i < |items| => Describe(items[i]));
    forall k | 0 <= k < |texts| ensures '.' !in texts[k] && Text.ParseDecimal(texts[k]) == xs[k] {
      Text.DecimalTextShape(xs[k]);
      Text.DecimalTextRoundTrip(xs[k]);
    }
    Text.SplitJoin(texts, '.');
  }

  /** Two version arrays and their dotted texts: [2, 3, 2] reads "2.3.2" and [1, 0] reads "1.0". */
  lemma DottedTextExamples()
    ensures DottedText([Int(2), Int(3), Int(2)]) == "2.3.2"
    ensures DottedText([Int(1), Int(0)]) == "1.0"
  {
    var v, f := [Int(2), Int(3), Int(2)], [Int(1), Int(0)];
    assert Text.DecimalText(0) == "0" && Text.DecimalText(1) == "1";
    assert Text.DecimalText(2) == "2" && Text.DecimalText(3) == "3";
    assert seq(|v|, i requires 0 <= i < |v| => Describe(v[i])) == ["2", "3", "2"];
    assert ["2", "3", "2"][1..] == ["3", "2"] && ["3", "2"][1..] == ["2"];
    assert Text.Join(["3", "2"], '.') == "3.2";
    assert Text.Join(["2", "3", "2"], '.') == "2.3.2";
    assert seq(|f|, i requires 0 <= i < |f| => Describe(f[i])) == ["1", "0"];
    assert ["1", "0"][1..] == ["0"];
    assert Text.Join(["1", "0"], '.') == "1.0";
  }

  /** Two integer arrays with the same dotted text are the same array. */
  lemma DottedTextInjective(xs: seq<int>, ys: seq<int>)
    requires DottedText(seq(|xs|, i requires 0 <= i < |xs| => Int(xs[i])))
          == DottedText(seq(|ys|, i requires 0 <= i < |ys| => Int(ys[i])))
    ensures xs == ys
  {
    if |xs| == 0 || |ys| == 0 {
      if |xs| > 0 { Text.DecimalTextShape(xs[0]); }
      if |ys| > 0 { Text.DecimalTextShape(ys[0]); }
    } else {
      DottedTextOfInts(xs);
      DottedTextOfInts(ys);
    }
  }
}
