/**
 * `TIFF`: the view over the TIFF sub-dictionary. Every property but
 * `dateTime` is a typed lookup of one key; `dateTime` parses a string.
 */
module Tiff {
  import opened Wrappers
  import opened Foundation
  import opened Json
  import opened PropertyStore
  import opened Fields

  /** `TIFF(rawValue:)`: the dictionary, stored unchanged. */
  datatype Tiff = Tiff(rawValue: Store)

  /** `dateFormatter`: pattern "yyyy:MM:dd HH:mm:ss", host time zone. */
  const DateFormatter: Formatter := Formatter("yyyy:MM:dd HH:mm:ss", HostTimeZone)

  /**
   * A case of `CodingKeys`. Each case is the name of a computed property, and
   * `encode(to:)` writes that property under it.
   */
  datatype CodingKey =
    | Compression
    | PhotometricInterpretation
    | TransferFunction
    | Orientation
    | XResolution
    | YResolution
    | ResolutionUnit
    | WhitePoint
    | PrimaryChromaticities
    | TileLength
    | TileWidth
    | DocumentName
    | ImageDescription
    | Artist
    | Copyright
    | DateTime
    | Make
    | Model
    | Software
    | HostComputer
  {
    /** The key's text in the encoded output: the name of its property. */
    function StringValue(): string {
      match this
      case Compression => "compression"
      case PhotometricInterpretation => "photometricInterpretation"
      case TransferFunction => "transferFunction"
      case Orientation => "orientation"
      case XResolution => "xResolution"
      case YResolution => "yResolution"
      case ResolutionUnit => "resolutionUnit"
      case WhitePoint => "whitePoint"
      case PrimaryChromaticities => "primaryChromaticities"
      case TileLength => "tileLength"
      case TileWidth => "tileWidth"
      case DocumentName => "documentName"
      case ImageDescription => "imageDescription"
      case Artist => "artist"
      case Copyright => "copyright"
      case DateTime => "dateTime"
      case Make => "make"
      case Model => "model"
      case Software => "software"
      case HostComputer => "hostComputer"
    }

    /** How the property of the same name is computed from the dictionary. */
    function Source(): Derivation {
      match this
      case Compression => Lookup("kCGImagePropertyTIFFCompression", IntKind)
      case PhotometricInterpretation => Lookup("kCGImagePropertyTIFFPhotometricInterpretation", IntKind)
      case TransferFunction => Lookup("kCGImagePropertyTIFFTransferFunction", StringKind)
      case Orientation => Lookup("kCGImagePropertyTIFFOrientation", IntKind)
      case XResolution => Lookup("kCGImagePropertyTIFFXResolution", DoubleKind)
      case YResolution => Lookup("kCGImagePropertyTIFFYResolution", DoubleKind)
      case ResolutionUnit => Lookup("kCGImagePropertyTIFFResolutionUnit", IntKind)
      case WhitePoint => Lookup("kCGImagePropertyTIFFWhitePoint", IntKind)
      case PrimaryChromaticities => Lookup("kCGImagePropertyTIFFPrimaryChromaticities", StringKind)
      case TileLength => Lookup("kCGImagePropertyTIFFTileLength", StringKind)
      case TileWidth => Lookup("kCGImagePropertyTIFFTileWidth", StringKind)
      case DocumentName => Lookup("kCGImagePropertyTIFFDocumentName", StringKind)
      case ImageDescription => Lookup("kCGImagePropertyTIFFImageDescription", StringKind)
      case Artist => Lookup("kCGImagePropertyTIFFArtist", StringKind)
      case Copyright => Lookup("kCGImagePropertyTIFFCopyright", StringKind)
      case DateTime => DateString("kCGImagePropertyTIFFDateTime", DateFormatter)
      case Make => Lookup("kCGImagePropertyTIFFMake", StringKind)
      case Model => Lookup("kCGImagePropertyTIFFModel", StringKind)
      case Software => Lookup("kCGImagePropertyTIFFSoftware", StringKind)
      case HostComputer => Lookup("kCGImagePropertyTIFFHostComputer", StringKind)
    }
  }

  /** The property named by `k`. */
  function Field(x: Tiff, k: CodingKey, fmt: Formatters): Option<Typed> {
    Derive(x.rawValue, k.Source(), fmt)
  }

  /** `encode(to:)`: one `encodeIfPresent` per property, under the property's own name. */
  function Encode(x: Tiff, fmt: Formatters): (c: map<CodingKey, Json>)
    ensures forall k :: k in c <==> Field(x, k, fmt).Some?
    ensures forall k :: k in c ==> c[k] == ToJson(Field(x, k, fmt).value)
  {
    map k: CodingKey | Field(x, k, fmt).Some? :: ToJson(Field(x, k, fmt).value)
  }

  /**
   * `orientation` is the stored integer as is: unlike the image-level
   * orientation, no code is checked, so any `Int` comes back and is encoded
   * as a number.
   */
  lemma OrientationIsRawInt(x: Tiff, fmt: Formatters)
    ensures var d := x.rawValue; var k := "kCGImagePropertyTIFFOrientation";
      Field(x, CodingKey.Orientation, fmt) == (if k in d && d[k].Int? then Some(Integer(d[k].intValue)) else None)
    ensures var d := x.rawValue; var k := "kCGImagePropertyTIFFOrientation";
      k in d && d[k].Int? ==> Encode(x, fmt)[CodingKey.Orientation] == JInt(d[k].intValue)
  {
    assert CodingKey.Orientation.Source() == Lookup("kCGImagePropertyTIFFOrientation", IntKind);
    LookupPassthrough(x.rawValue, "kCGImagePropertyTIFFOrientation", fmt);
  }

  /** The typed lookups give the value back only when it has the property's type. */
  lemma LookupsAreTyped(x: Tiff, fmt: Formatters)
    ensures var d := x.rawValue; var k := "kCGImagePropertyTIFFXResolution";
      Field(x, XResolution, fmt) == (if k in d && d[k].Dbl? then Some(Real(d[k].text)) else None)
    ensures var d := x.rawValue; var k := "kCGImagePropertyTIFFTileWidth";
      Field(x, TileWidth, fmt) == (if k in d && d[k].Str? then Some(Words(d[k].str)) else None)
    ensures var d := x.rawValue; var k := "kCGImagePropertyTIFFWhitePoint";
      Field(x, WhitePoint, fmt) == (if k in d && d[k].Int? then Some(Integer(d[k].intValue)) else None)
  {
    assert CodingKey.XResolution.Source() == Lookup("kCGImagePropertyTIFFXResolution", DoubleKind);
    assert CodingKey.TileWidth.Source() == Lookup("kCGImagePropertyTIFFTileWidth", StringKind);
    assert CodingKey.WhitePoint.Source() == Lookup("kCGImagePropertyTIFFWhitePoint", IntKind);
    LookupPassthrough(x.rawValue, "kCGImagePropertyTIFFXResolution", fmt);
    LookupPassthrough(x.rawValue, "kCGImagePropertyTIFFTileWidth", fmt);
    LookupPassthrough(x.rawValue, "kCGImagePropertyTIFFWhitePoint", fmt);
  }

  /** `dateTime` is absent without its string, and otherwise is that string parsed with `DateFormatter`. */
  lemma DateTimeRule(x: Tiff, fmt: Formatters)
    ensures var d := x.rawValue; var k := "kCGImagePropertyTIFFDateTime";
      Field(x, DateTime, fmt) ==
        (if k in d && d[k].Str? && fmt.date(DateFormatter, d[k].str).Some?
         then Some(Date(fmt.date(DateFormatter, d[k].str).value)) else None)
  {
    assert CodingKey.DateTime.Source() == DateString("kCGImagePropertyTIFFDateTime", DateFormatter);
  }

  /** An empty dictionary yields an empty object. */
  lemma EmptyEncodesEmpty(fmt: Formatters)
    ensures Encode(Tiff(map[]), fmt) == map[]
  {
    forall k: CodingKey
      ensures Field(Tiff(map[]), k, fmt).None?
    {
      EmptyDerivesNothing(k.Source(), fmt);
    }
  }
}
