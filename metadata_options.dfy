/**
 * `MetadataOptions`: an `OptionSet` over a 64-bit signed `Int`. Set
 * operations are bitwise on the two's-complement pattern of the raw value:
 * union is OR, intersection is AND, and `contains(m)` holds when every bit
 * of `m` is set.
 */
module Options {
  /** Swift's `Int` on a 64-bit platform. */
  newtype Int64 = x: int | -0x8000_0000_0000_0000 <= x < 0x8000_0000_0000_0000

  /** `MetadataOptions(rawValue:)` stores its argument unchanged. */
  datatype MetadataOptions = MetadataOptions(rawValue: Int64)

  /** The two's-complement bit pattern of a raw value. */
  function Bits(n: Int64): bv64 {
    if n < 0 then (n as int + 0x1_0000_0000_0000_0000) as bv64 else n as int as bv64
  }

  /** A bit pattern read as an unbounded integer and truncated back is unchanged. */
  lemma TruncateUnsigned(b: bv64)
    ensures (b as int) as bv64 == b
  {
  }

  /** A pattern with the sign bit set is the pattern of its value minus 2^64. */
  lemma NegativeBits(b: bv64)
    requires b as int >= 0x8000_0000_0000_0000
    ensures Bits((b as int - 0x1_0000_0000_0000_0000) as Int64) == b
  {
    TruncateUnsigned(b);
  }

  /** A pattern with the sign bit clear is the pattern of its own value. */
  lemma NonNegativeBits(b: bv64)
    requires b as int < 0x8000_0000_0000_0000
    ensures Bits((b as int) as Int64) == b
  {
    TruncateUnsigned(b);
  }

  /** The raw value with a given bit pattern: reading it back as bits gives that pattern. */
  function FromBits(b: bv64): (n: Int64)
    ensures Bits(n) == b
  {
    if b as int >= 0x8000_0000_0000_0000 then
      NegativeBits(b);
      (b as int - 0x1_0000_0000_0000_0000) as Int64
    else
      NonNegativeBits(b);
      (b as int) as Int64
  }

  /** `union` */
  function Union(a: MetadataOptions, b: MetadataOptions): MetadataOptions {
    MetadataOptions(FromBits(Bits(a.rawValue) | Bits(b.rawValue)))
  }

  /** `intersection` */
  function Intersection(a: MetadataOptions, b: MetadataOptions): MetadataOptions {
    MetadataOptions(FromBits(Bits(a.rawValue) & Bits(b.rawValue)))
  }

  /** `contains(member)`: every bit of `member` is set in `a`. */
  predicate Contains(a: MetadataOptions, member: MetadataOptions) {
    Bits(a.rawValue) & Bits(member.rawValue) == Bits(member.rawValue)
  }

  /** An array literal of options: the union of its elements, starting from the empty set. */
  function Literal(elements: seq<MetadataOptions>): MetadataOptions {
    if elements == [] then MetadataOptions(0)
    else Union(Literal(elements[..|elements| - 1]), elements[|elements| - 1])
  }

  /** `exif`: `1 << 0` */
  const Exif: MetadataOptions := MetadataOptions(1)
  /** `iptc`: `1 << 1` */
  const Iptc: MetadataOptions := MetadataOptions(2)
  /** `tiff`: `1 << 2` */
  const Tiff: MetadataOptions := MetadataOptions(4)
  /** `gps`: `1 << 3` */
  const Gps: MetadataOptions := MetadataOptions(8)
  /** `none`: the empty literal `[]`, whose raw value is 0 (`NoneContainsNoFlag`) */
  const None: MetadataOptions := MetadataOptions(0)
  /** `all`: the literal `[.exif, .iptc, .tiff, .gps]`, whose raw value is 15 (`AllContainsEveryFlag`) */
  const All: MetadataOptions := MetadataOptions(15)

  /** The four flags are the single bits 0 to 3. */
  lemma FlagBits()
    ensures Bits(Exif.rawValue) == 1 << 0 && Bits(Iptc.rawValue) == 1 << 1
    ensures Bits(Tiff.rawValue) == 1 << 2 && Bits(Gps.rawValue) == 1 << 3
  {
  }

  /** No two flags share a bit. */
  lemma FlagsDisjoint()
    ensures Intersection(Exif, Iptc) == None && Intersection(Exif, Tiff) == None && Intersection(Exif, Gps) == None
    ensures Intersection(Iptc, Tiff) == None && Intersection(Iptc, Gps) == None && Intersection(Tiff, Gps) == None
  {
    FlagBits();
  }

  /** `none` is the empty literal and contains no flag. */
  lemma NoneContainsNoFlag()
    ensures None == Literal([])
    ensures !Contains(None, Exif) && !Contains(None, Iptc) && !Contains(None, Tiff) && !Contains(None, Gps)
  {
    FlagBits();
  }

  /** `all` is the literal of the four flags. */
  lemma AllIsLiteral()
    ensures All == Literal([Exif, Iptc, Tiff, Gps])
  {
    var s := [Exif, Iptc, Tiff, Gps];
    assert s[..3] == [Exif, Iptc, Tiff] && [Exif, Iptc, Tiff][..2] == [Exif, Iptc] && [Exif, Iptc][..1] == [Exif];
    assert Literal([Exif]) == Union(None, Exif);
    assert Literal([Exif]).rawValue == 1;
    assert Literal([Exif, Iptc]).rawValue == 3;
    assert Literal([Exif, Iptc, Tiff]).rawValue == 7;
  }

  /** `all` contains every flag. */
  lemma AllContainsEveryFlag()
    ensures Contains(All, Exif) && Contains(All, Iptc) && Contains(All, Tiff) && Contains(All, Gps)
  {
    FlagBits();
  }
}
