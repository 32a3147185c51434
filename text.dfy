/**
 * The string operations the library borrows from Swift and Foundation:
 * an `Int`'s `description`, `joined(separator:)`, and the last component
 * and extension of a path. Each comes with the inverse or characterisation
 * that pins it down.
 */
module Text {

  /** The character of a decimal digit. */
  function DigitChar(d: nat): (c: char)
    requires d < 10
    ensures '0' <= c <= '9'
  {
    "0123456789"[d]
  }

  /** The value of a decimal digit character. */
  function DigitValue(c: char): (d: nat)
    requires '0' <= c <= '9'
    ensures d < 10 && DigitChar(d) == c
  {
    (c as int - '0' as int) as nat
  }

  predicate IsDigits(s: string) {
    forall i :: 0 <= i < |s| ==> '0' <= s[i] <= '9'
  }

  /** Decimal text of a natural number, most significant digit first, no leading zeros. */
  function NaturalText(n: nat): (s: string)
    ensures |s| > 0 && IsDigits(s)
  {
    if n < 10 then [DigitChar(n)] else NaturalText(n / 10) + [DigitChar(n % 10)]
  }

  /** The value of a non-empty string of decimal digits. */
  function DigitsValue(s: string): nat
    requires IsDigits(s)
  {
    if s == [] then 0 else DigitsValue(s[..|s| - 1]) * 10 + DigitValue(s[|s| - 1])
  }

  /** Swift's `Int.description`: an optional minus sign and the decimal digits. */
  function DecimalText(n: int): (s: string)
  {
    if n < 0 then "-" + NaturalText(-n) else NaturalText(n)
  }

  /** Reads back what `DecimalText` writes. */
  function ParseDecimal(s: string): int
  {
    if |s| > 0 && s[0] == '-' && IsDigits(s[1..]) then -(DigitsValue(s[1..]) as int)
    else if IsDigits(s) then DigitsValue(s)
    else 0
  }

  lemma {:induction false} NaturalTextRoundTrip(n: nat)
    ensures DigitsValue(NaturalText(n)) == n
  {
    if n >= 10 {
      var s := NaturalText(n);
      assert s[..|s| - 1] == NaturalText(n / 10);
      NaturalTextRoundTrip(n / 10);
    }
  }

  /** `DecimalText` loses nothing: parsing gives the number back. */
  lemma DecimalTextRoundTrip(n: int)
    ensures ParseDecimal(DecimalText(n)) == n
  {
    if n < 0 {
      NaturalTextRoundTrip(-n);
      assert DecimalText(n)[1..] == NaturalText(-n);
    } else {
      NaturalTextRoundTrip(n);
    }
  }

  /** The decimal text of an `Int` is never empty and never holds a '.'. */
  lemma DecimalTextShape(n: int)
    ensures |DecimalText(n)| > 0 && '.' !in DecimalText(n)
  {
    var s := NaturalText(if n < 0 then -n else n);
    assert forall i :: 0 <= i < |s| ==> s[i] != '.';
  }

  /** `joined(separator: [sep])`. */
  function Join(parts: seq<string>, sep: char): (s: string)
  {
    if |parts| == 0 then ""
    else if |parts| == 1 then parts[0]
    else parts[0] + [sep] + Join(parts[1..], sep)
  }

  /** The first index of `c` in `s`. */
  function IndexOf(s: string, c: char): (i: nat)
    requires c in s
    ensures i < |s| && s[i] == c && c !in s[..i]
  {
    if s[0] == c then 0 else 1 + IndexOf(s[1..], c)
  }

  /** Splits `s` at every `sep`; the partner of `Join`. */
  function Split(s: string, sep: char): (parts: seq<string>)
    ensures |parts| > 0
    decreases |s|
  {
    if sep !in s then [s]
    else var i := IndexOf(s, sep); [s[..i]] + Split(s[i + 1..], sep)
  }

  /** Splitting a joined text at the separator gives the parts back, when no part holds the separator. */
  lemma {:induction false} SplitJoin(parts: seq<string>, sep: char)
    requires |parts| > 0
    requires forall k :: 0 <= k < |parts| ==> sep !in parts[k]
    ensures Split(Join(parts, sep), sep) == parts
  {
    if |parts| > 1 {
      var rest := Join(parts[1..], sep);
      var s := Join(parts, sep);
      assert s == parts[0] + [sep] + rest;
      assert s[|parts[0]|] == sep;
      assert s[..|parts[0]|] == parts[0];
      assert IndexOf(s, sep) == |parts[0]|;
      assert s[|parts[0]| + 1..] == rest;
      SplitJoin(parts[1..], sep);
    }
  }

  /** The suffix of `s` after its last `c`, or all of `s` when it holds none. */
  function AfterLast(s: string, c: char): (r: string)
    ensures c !in r
    ensures |r| <= |s| && r == s[|s| - |r|..]
    ensures c !in s ==> r == s
    ensures c in s ==> |r| < |s| && s[|s| - |r| - 1] == c
  {
    if s == [] then ""
    else if s[|s| - 1] == c then ""
    else AfterLast(s[..|s| - 1], c) + [s[|s| - 1]]
  }

  /** The prefix of `s` before its last `c`, or all of `s` when it holds none. */
  function BeforeLast(s: string, c: char): (r: string)
  {
    if c in s then s[..|s| - |AfterLast(s, c)| - 1] else s
  }

  /** A string is its prefix before the last `c`, then `c`, then its suffix after it. */
  lemma SplitAtLast(s: string, c: char)
    requires c in s
    ensures s == BeforeLast(s, c) + [c] + AfterLast(s, c)
  {
    var a := AfterLast(s, c);
    assert s == s[..|s| - |a| - 1] + [s[|s| - |a| - 1]] + s[|s| - |a|..];
  }

  /** Whatever precedes the last `c`, the text after it is recovered exactly. */
  lemma {:induction false} AfterLastOfJoin(prefix: string, c: char, suffix: string)
    requires c !in suffix
    ensures AfterLast(prefix + [c] + suffix, c) == suffix
    ensures BeforeLast(prefix + [c] + suffix, c) == prefix
    decreases |suffix|
  {
    var s := prefix + [c] + suffix;
    if suffix != [] {
      var init := suffix[..|suffix| - 1];
      assert s[..|s| - 1] == prefix + [c] + init;
      assert c !in init by { assert forall x :: x in init ==> x in suffix; }
      AfterLastOfJoin(prefix, c, init);
    }
  }
}
