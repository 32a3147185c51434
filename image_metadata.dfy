/**
 * `ImageMetadata`: the top-level view over the property dictionary of one
 * image. It offers typed scalar properties, builds the EXIF, IPTC, TIFF and
 * GPS views when their sub-dictionaries are present, and encodes itself with
 * the family views gated by its `MetadataOptions`.
 */
module ImageMetadata {
  import opened Wrappers
  import opened Foundation
  import opened Json
  import opened PropertyStore
  import Options
  import ImageOrientation
  import Exif
  import Iptc
  import Tiff
  import Gps
  import Files

  datatype ImageMetadata = ImageMetadata(
    rawValue: Store,
    options: Options.MetadataOptions,
    contentType: Option<UTType>,
    imageFile: Option<Files.ImageFile>)

  /** `init(rawValue:)`: the dictionary, with every option, no content type and no file. */
  function FromRawValue(rawValue: Store): (m: ImageMetadata)
    ensures m.rawValue == rawValue && m.options == Options.All
    ensures m.contentType.None? && m.imageFile.None?
  {
    ImageMetadata(rawValue, Options.All, None, None)
  }

  const ExifDictionaryKey: string := "kCGImagePropertyExifDictionary"
  const IptcDictionaryKey: string := "kCGImagePropertyIPTCDictionary"
  const TiffDictionaryKey: string := "kCGImagePropertyTIFFDictionary"
  const GpsDictionaryKey: string := "kCGImagePropertyGPSDictionary"

  function BitDepth(m: ImageMetadata): Option<int> { IntAt(m.rawValue, "kCGImagePropertyDepth") }
  function Bytes(m: ImageMetadata): Option<int> { IntAt(m.rawValue, "kCGImagePropertyFileSize") }
  function ColorModel(m: ImageMetadata): Option<string> { StringAt(m.rawValue, "kCGImagePropertyColorModel") }
  function ColorProfile(m: ImageMetadata): Option<string> { StringAt(m.rawValue, "kCGImagePropertyProfileName") }
  function DpiHeight(m: ImageMetadata): Option<int> { IntAt(m.rawValue, "kCGImagePropertyDPIHeight") }
  function DpiWidth(m: ImageMetadata): Option<int> { IntAt(m.rawValue, "kCGImagePropertyDPIWidth") }
  function PixelFormat(m: ImageMetadata): Option<int> { IntAt(m.rawValue, "kCGImagePropertyPixelFormat") }
  function PixelHeight(m: ImageMetadata): Option<int> { IntAt(m.rawValue, "kCGImagePropertyPixelHeight") }
  function PixelWidth(m: ImageMetadata): Option<int> { IntAt(m.rawValue, "kCGImagePropertyPixelWidth") }

  /** `rawValue[key] as? Bool ?? false` */
  function BoolOrFalse(d: Store, key: string): (b: bool)
    ensures b <==> key in d && d[key] == Bool(true)
  {
    match BoolAt(d, key)
    case Some(v) => v
    case None => false
  }

  function HasAlpha(m: ImageMetadata): bool { BoolOrFalse(m.rawValue, "kCGImagePropertyHasAlpha") }
  function IsFloat(m: ImageMetadata): bool { BoolOrFalse(m.rawValue, "kCGImagePropertyIsFloat") }
  function IsIndexed(m: ImageMetadata): bool { BoolOrFalse(m.rawValue, "kCGImagePropertyIsIndexed") }

  /** `memorySize`: the byte-count text of `bytes`. */
  function MemorySize(m: ImageMetadata, fmt: Formatters): (r: Option<string>)
    ensures r.Some? <==> Bytes(m).Some?
    ensures r.Some? ==> r.value == fmt.byteCount(Bytes(m).value)
  {
    match Bytes(m)
    case Some(n) => Some(fmt.byteCount(n))
    case None => None
  }

  /** `orientation`: a `UInt32` decoded through `ImageOrientation`. */
  function Orientation(m: ImageMetadata): (r: Option<ImageOrientation.Orientation>)
    ensures var k := "kCGImagePropertyOrientation";
      r.Some? <==> k in m.rawValue && m.rawValue[k].Int? && 1 <= m.rawValue[k].intValue <= 8
    ensures r.Some? ==> r.value.RawValue() == m.rawValue["kCGImagePropertyOrientation"].intValue
  {
    match UInt32At(m.rawValue, "kCGImagePropertyOrientation")
    case None => None
    case Some(code) =>
      ImageOrientation.KnownCodes(code);
      ImageOrientation.FromRawValue(code)
  }

  function ExifView(m: ImageMetadata): Option<Exif.Exif> {
    match DictAt(m.rawValue, ExifDictionaryKey) case Some(d) => Some(Exif.Exif(d)) case None => None
  }

  function IptcView(m: ImageMetadata): Option<Iptc.Iptc> {
    match DictAt(m.rawValue, IptcDictionaryKey) case Some(d) => Some(Iptc.Iptc(d)) case None => None
  }

  function TiffView(m: ImageMetadata): Option<Tiff.Tiff> {
    match DictAt(m.rawValue, TiffDictionaryKey) case Some(d) => Some(Tiff.Tiff(d)) case None => None
  }

  function GpsView(m: ImageMetadata): Option<Gps.Gps> {
    match DictAt(m.rawValue, GpsDictionaryKey) case Some(d) => Some(Gps.Gps(d)) case None => None
  }

  /**
   * Each family view exists exactly when its key holds a dictionary, and
   * then wraps that dictionary unchanged; the options play no part.
   */
  lemma ViewsFollowDictionaries(m: ImageMetadata, options: Options.MetadataOptions)
    ensures ExifView(m).Some? <==> ExifDictionaryKey in m.rawValue && m.rawValue[ExifDictionaryKey].Dict?
    ensures ExifView(m).Some? ==> ExifView(m).value.rawValue == m.rawValue[ExifDictionaryKey].entries
    ensures IptcView(m).Some? <==> IptcDictionaryKey in m.rawValue && m.rawValue[IptcDictionaryKey].Dict?
    ensures IptcView(m).Some? ==> IptcView(m).value.rawValue == m.rawValue[IptcDictionaryKey].entries
    ensures TiffView(m).Some? <==> TiffDictionaryKey in m.rawValue && m.rawValue[TiffDictionaryKey].Dict?
    ensures TiffView(m).Some? ==> TiffView(m).value.rawValue == m.rawValue[TiffDictionaryKey].entries
    ensures GpsView(m).Some? <==> GpsDictionaryKey in m.rawValue && m.rawValue[GpsDictionaryKey].Dict?
    ensures GpsView(m).Some? ==> GpsView(m).value.rawValue == m.rawValue[GpsDictionaryKey].entries
    ensures ExifView(m.(options := options)) == ExifView(m) && IptcView(m.(options := options)) == IptcView(m)
    ensures TiffView(m.(options := options)) == TiffView(m) && GpsView(m.(options := options)) == GpsView(m)
  {
  }

  /** A case of `CodingKeys`: the name of a property. */
  datatype CodingKey =
    | BitDepthKey | BytesKey | ColorModelKey | ColorProfileKey | ContentTypeKey
    | DpiHeightKey | DpiWidthKey | HasAlphaKey | IsFloatKey | IsIndexedKey
    | MemorySizeKey | OrientationKey | PixelFormatKey | PixelHeightKey | PixelWidthKey
    | ExifKey | IptcKey | TiffKey | GpsKey | ImageFileKey
  {
    function StringValue(): string {
      match this
      case BitDepthKey => "bitDepth"
      case BytesKey => "bytes"
      case ColorModelKey => "colorModel"
      case ColorProfileKey => "colorProfile"
      case ContentTypeKey => "contentType"
      case DpiHeightKey => "dpiHeight"
      case DpiWidthKey => "dpiWidth"
      case HasAlphaKey => "hasAlpha"
      case IsFloatKey => "isFloat"
      case IsIndexedKey => "isIndexed"
      case MemorySizeKey => "memorySize"
      case OrientationKey => "orientation"
      case PixelFormatKey => "pixelFormat"
      case PixelHeightKey => "pixelHeight"
      case PixelWidthKey => "pixelWidth"
      case ExifKey => "exif"
      case IptcKey => "iptc"
      case TiffKey => "tiff"
      case GpsKey => "gps"
      case ImageFileKey => "imageFile"
    }
  }

  /** What is written under a key: a JSON scalar or one of the nested objects. */
  datatype Entry =
    | Scalar(json: Json)
    | ExifObject(exif: map<Exif.CodingKey, Json>)
    | IptcObject(iptc: map<Iptc.CodingKey, Json>)
    | TiffObject(tiff: map<Tiff.CodingKey, Json>)
    | GpsObject(gps: map<Gps.CodingKey, Json>)
    | FileObject(file: map<Files.CodingKey, Json>)

  function IntEntry(v: Option<int>): Option<Entry> {
    match v case Some(n) => Some(Scalar(JInt(n))) case None => None
  }

  function StringEntry(v: Option<string>): Option<Entry> {
    match v case Some(s) => Some(Scalar(JString(s))) case None => None
  }

  /** The content type's identifier, as `contentType?.identifier`. */
  function ContentTypeEntry(m: ImageMetadata): Option<Entry> {
    match m.contentType case Some(t) => Some(Scalar(JString(t.identifier))) case None => None
  }

  function OrientationEntry(m: ImageMetadata): Option<Entry> {
    match Orientation(m) case Some(o) => Some(Scalar(JString(o.Description()))) case None => None
  }

  /** A family view's object, written only when the option flag is set and the view exists. */
  function ExifEntry(m: ImageMetadata, fmt: Formatters): Option<Entry> {
    if !Options.Contains(m.options, Options.Exif) then None
    else match ExifView(m) case Some(x) => Some(ExifObject(Exif.Encode(x, fmt))) case None => None
  }

  function IptcEntry(m: ImageMetadata, fmt: Formatters): Option<Entry> {
    if !Options.Contains(m.options, Options.Iptc) then None
    else match IptcView(m) case Some(x) => Some(IptcObject(Iptc.Encode(x, fmt))) case None => None
  }

  function TiffEntry(m: ImageMetadata, fmt: Formatters): Option<Entry> {
    if !Options.Contains(m.options, Options.Tiff) then None
    else match TiffView(m) case Some(x) => Some(TiffObject(Tiff.Encode(x, fmt))) case None => None
  }

  function GpsEntry(m: ImageMetadata, fmt: Formatters): Option<Entry> {
    if !Options.Contains(m.options, Options.Gps) then None
    else match GpsView(m) case Some(x) => Some(GpsObject(Gps.Encode(x, fmt))) case None => None
  }

  function ImageFileEntry(m: ImageMetadata, fmt: Formatters): Option<Entry> {
    match m.imageFile case Some(f) => Some(FileObject(Files.Encode(f, fmt))) case None => None
  }

  /** What the object holds under each key, property by property: the reference for `encode(to:)`. */
  function Expected(m: ImageMetadata, fmt: Formatters, k: CodingKey): Option<Entry> {
    match k
    case BitDepthKey => IntEntry(BitDepth(m))
    case BytesKey => IntEntry(Bytes(m))
    case ColorModelKey => StringEntry(ColorModel(m))
    case ColorProfileKey => StringEntry(ColorProfile(m))
    case ContentTypeKey => ContentTypeEntry(m)
    case DpiHeightKey => IntEntry(DpiHeight(m))
    case DpiWidthKey => IntEntry(DpiWidth(m))
    case HasAlphaKey => Some(Scalar(JBool(HasAlpha(m))))
    case IsFloatKey => Some(Scalar(JBool(IsFloat(m))))
    case IsIndexedKey => Some(Scalar(JBool(IsIndexed(m))))
    case MemorySizeKey => StringEntry(MemorySize(m, fmt))
    case OrientationKey => OrientationEntry(m)
    case PixelFormatKey => IntEntry(PixelFormat(m))
    case PixelHeightKey => IntEntry(PixelHeight(m))
    case PixelWidthKey => IntEntry(PixelWidth(m))
    case ExifKey => ExifEntry(m, fmt)
    case IptcKey => IptcEntry(m, fmt)
    case TiffKey => TiffEntry(m, fmt)
    case GpsKey => GpsEntry(m, fmt)
    case ImageFileKey => ImageFileEntry(m, fmt)
  }

  /** The properties in the order `encode(to:)` writes them. */
  const Order: seq<CodingKey> := [
    BitDepthKey, BytesKey, ColorModelKey, ColorProfileKey, ContentTypeKey,
    DpiHeightKey, DpiWidthKey, HasAlphaKey, IsFloatKey, IsIndexedKey,
    MemorySizeKey, OrientationKey, PixelFormatKey, PixelHeightKey, PixelWidthKey,
    ExifKey, IptcKey, TiffKey, GpsKey, ImageFileKey]

  /** Every key is written, and the resolution keys are the sixth and seventh writes. */
  lemma OrderListsEveryKey(k: CodingKey)
    ensures k in Order
    ensures Order[5] == DpiHeightKey && Order[6] == DpiWidthKey
    ensures forall i :: 7 <= i < |Order| ==> Order[i] != DpiHeightKey && Order[i] != DpiWidthKey
    ensures DpiWidthKey !in Order[..6]
  {
    match k
    case BitDepthKey => assert Order[0] == k;
    case BytesKey => assert Order[1] == k;
    case ColorModelKey => assert Order[2] == k;
    case ColorProfileKey => assert Order[3] == k;
    case ContentTypeKey => assert Order[4] == k;
    case DpiHeightKey => assert Order[5] == k;
    case DpiWidthKey => assert Order[6] == k;
    case HasAlphaKey => assert Order[7] == k;
    case IsFloatKey => assert Order[8] == k;
    case IsIndexedKey => assert Order[9] == k;
    case MemorySizeKey => assert Order[10] == k;
    case OrientationKey => assert Order[11] == k;
    case PixelFormatKey => assert Order[12] == k;
    case PixelHeightKey => assert Order[13] == k;
    case PixelWidthKey => assert Order[14] == k;
    case ExifKey => assert Order[15] == k;
    case IptcKey => assert Order[16] == k;
    case TiffKey => assert Order[17] == k;
    case GpsKey => assert Order[18] == k;
    case ImageFileKey => assert Order[19] == k;
  }

  /** The object `encode(to:)` is meant to produce: every present property under its own key. */
  function Encode(m: ImageMetadata, fmt: Formatters): (c: map<CodingKey, Entry>)
    ensures forall k :: k in c <==> Expected(m, fmt, k).Some?
    ensures forall k :: k in c ==> c[k] == Expected(m, fmt, k).value
  {
    map k: CodingKey | Expected(m, fmt, k).Some? :: Expected(m, fmt, k).value
  }

  /** Since the write order lists every key, writing in that order builds the object of every present entry. */
  lemma WriteOrderBuilds(value: CodingKey -> Option<Entry>, c: map<CodingKey, Entry>)
    requires forall k :: k in c <==> value(k).Some?
    requires forall k :: k in c ==> c[k] == value(k).value
    ensures PresentAmong(Order, value) == c
  {
    forall k: CodingKey ensures k in Order {
      OrderListsEveryKey(k);
    }
    assert forall k :: k in PresentAmong(Order, value) <==> k in c;
  }

  /** Writing the present properties in source order, one per key, builds exactly that object. */
  lemma EncodeInWriteOrder(m: ImageMetadata, fmt: Formatters, value: CodingKey -> Option<Entry>)
    requires forall k :: value(k) == Expected(m, fmt, k)
    ensures PresentAmong(Order, value) == Encode(m, fmt)
  {
    WriteOrderBuilds(value, Encode(m, fmt));
  }

  /**
   * `encode(to:)` with the `dpiWidth` write under its own key: the twenty
   * `encodeIfPresent` and `encode` calls in source order (ImageMetadata.swift:199-232).
   */
  method EncodeTo(m: ImageMetadata, fmt: Formatters) returns (c: map<CodingKey, Entry>)
    ensures c == Encode(m, fmt)
  {
    var value := k => Expected(m, fmt, k);
    c := EncodeEachIfPresent(Order, value);
    EncodeInWriteOrder(m, fmt, value);
    assert forall k :: k in c <==> k in PresentAmong(Order, value);
  }

  /** The IPTC object as the source writes it: the as-written IPTC encoding, under the same gate. */
  function IptcEntryAsWritten(m: ImageMetadata, fmt: Formatters): Option<Entry> {
    if !Options.Contains(m.options, Options.Iptc) then None
    else match IptcView(m) case Some(x) => Some(IptcObject(Iptc.EncodeAsWritten(x, fmt))) case None => None
  }

  /** What the source writes for each property, before the misdirected `dpiWidth` key. */
  function ExpectedAsWritten(m: ImageMetadata, fmt: Formatters, k: CodingKey): Option<Entry> {
    if k == IptcKey then IptcEntryAsWritten(m, fmt) else Expected(m, fmt, k)
  }

  /** Every present as-written entry under its own key. */
  function EncodeAsWritten(m: ImageMetadata, fmt: Formatters): (c: map<CodingKey, Entry>)
    ensures forall k :: k in c <==> ExpectedAsWritten(m, fmt, k).Some?
    ensures forall k :: k in c ==> c[k] == ExpectedAsWritten(m, fmt, k).value
  {
    map k: CodingKey | ExpectedAsWritten(m, fmt, k).Some? :: ExpectedAsWritten(m, fmt, k).value
  }

  /**
   * Those entries differ from the corrected ones only in the IPTC object,
   * which is present under the same condition and holds the as-written
   * IPTC encoding.
   */
  lemma EncodeAsWrittenDiffersInIptc(m: ImageMetadata, fmt: Formatters)
    ensures EncodeAsWritten(m, fmt) - {IptcKey} == Encode(m, fmt) - {IptcKey}
    ensures IptcKey in EncodeAsWritten(m, fmt) <==> IptcKey in Encode(m, fmt)
    ensures IptcKey in Encode(m, fmt) ==> EncodeAsWritten(m, fmt)[IptcKey] == IptcObject(Iptc.EncodeAsWritten(IptcView(m).value, fmt))
  {
    forall k | k !in {IptcKey}
      ensures ExpectedAsWritten(m, fmt, k) == Expected(m, fmt, k)
    {
    }
    AgreeAway(EncodeAsWritten(m, fmt), Encode(m, fmt), {IptcKey});
    assert ExpectedAsWritten(m, fmt, IptcKey) == IptcEntryAsWritten(m, fmt);
    assert Expected(m, fmt, IptcKey) == IptcEntry(m, fmt);
  }

  /**
   * What the misdirected write does to a container: the `dpiWidth` entry, if
   * any, is moved onto the `dpiHeight` key, replacing what was there.
   */
  function MoveWidth(c: map<CodingKey, Entry>): (r: map<CodingKey, Entry>)
    ensures DpiWidthKey !in r
    ensures DpiHeightKey in r <==> DpiHeightKey in c || DpiWidthKey in c
    ensures DpiWidthKey in c ==> r[DpiHeightKey] == c[DpiWidthKey]
    ensures DpiWidthKey !in c && DpiHeightKey in c ==> r[DpiHeightKey] == c[DpiHeightKey]
    ensures forall k :: k != DpiHeightKey && k != DpiWidthKey ==> (k in r <==> k in c)
    ensures forall k :: k != DpiHeightKey && k != DpiWidthKey && k in c ==> r[k] == c[k]
  {
    if DpiWidthKey in c then (c - {DpiWidthKey})[DpiHeightKey := c[DpiWidthKey]] else c
  }

  /** A write to any other key commutes with moving the width entry. */
  lemma MoveWidthCommutes(c: map<CodingKey, Entry>, k: CodingKey, v: Option<Entry>)
    requires k != DpiHeightKey && k != DpiWidthKey
    ensures MoveWidth(EncodeIfPresent(c, k, v)) == EncodeIfPresent(MoveWidth(c), k, v)
  {
    var l, r := MoveWidth(EncodeIfPresent(c, k, v)), EncodeIfPresent(MoveWidth(c), k, v);
    assert forall j :: j in l <==> j in r;
  }

  /** The key a write names in the source: the `dpiWidth` write names `.dpiHeight` (ImageMetadata.swift:206). */
  function KeyAsWritten(k: CodingKey): CodingKey {
    if k == DpiWidthKey then DpiHeightKey else k
  }

  /**
   * `encode(to:)` as written: the same twenty writes, the `dpiWidth` one
   * under the `dpiHeight` key and the IPTC object as the IPTC encoder
   * writes it. The result is the as-written entries with the width entry
   * moved onto the height key.
   */
  method EncodeToAsWritten(m: ImageMetadata, fmt: Formatters) returns (c: map<CodingKey, Entry>)
    ensures c == MoveWidth(EncodeAsWritten(m, fmt))
  {
    var value := k => ExpectedAsWritten(m, fmt, k);
    c := map[];
    for i := 0 to |Order|
      invariant c == MoveWidth(PresentAmong(Order[..i], value))
    {
      AsWrittenStep(value, i);
      c := EncodeIfPresent(c, KeyAsWritten(Order[i]), value(Order[i]));
    }
    assert Order[..|Order|] == Order;
    WriteOrderBuilds(value, EncodeAsWritten(m, fmt));
  }

  /** Writing a resolution key to a container without a width entry, as written. */
  lemma ResolutionWriteAsWritten(p: map<CodingKey, Entry>, k: CodingKey, v: Option<Entry>)
    requires DpiWidthKey !in p
    requires k == DpiHeightKey || k == DpiWidthKey
    ensures MoveWidth(p) == p
    ensures MoveWidth(EncodeIfPresent(p, k, v)) == EncodeIfPresent(p, KeyAsWritten(k), v)
  {
  }

  /** One write as written keeps the container equal to the corrected one with the width entry moved. */
  lemma AsWrittenStep(value: CodingKey -> Option<Entry>, i: nat)
    requires i < |Order|
    ensures MoveWidth(PresentAmong(Order[..i + 1], value))
         == EncodeIfPresent(MoveWidth(PresentAmong(Order[..i], value)), KeyAsWritten(Order[i]), value(Order[i]))
  {
    var k, p := Order[i], PresentAmong(Order[..i], value);
    assert Order[..i + 1] == Order[..i] + [k];
    PresentAmongStep(Order[..i], k, value);
    OrderListsEveryKey(k);
    if k == DpiHeightKey || k == DpiWidthKey {
      assert i == 5 || i == 6;
      assert DpiWidthKey !in Order[..i] by {
        assert Order[..i] == Order[..6][..i];
      }
      ResolutionWriteAsWritten(p, k, value(k));
    } else {
      MoveWidthCommutes(p, k, value(k));
    }
  }

  /**
   * As written, no `dpiWidth` key is ever emitted; the `dpiHeight` key holds
   * the width when there is one and the height otherwise; every other key
   * holds what the as-written entries hold.
   */
  lemma AsWrittenLosesWidth(m: ImageMetadata, fmt: Formatters)
    ensures DpiWidthKey !in MoveWidth(EncodeAsWritten(m, fmt))
    ensures DpiHeightKey in MoveWidth(EncodeAsWritten(m, fmt)) <==> DpiHeight(m).Some? || DpiWidth(m).Some?
    ensures DpiWidth(m).Some? ==> MoveWidth(EncodeAsWritten(m, fmt))[DpiHeightKey] == Scalar(JInt(DpiWidth(m).value))
    ensures DpiWidth(m).None? && DpiHeight(m).Some? ==> MoveWidth(EncodeAsWritten(m, fmt))[DpiHeightKey] == Scalar(JInt(DpiHeight(m).value))
    ensures forall k :: k != DpiHeightKey && k != DpiWidthKey ==> (k in MoveWidth(EncodeAsWritten(m, fmt)) <==> k in EncodeAsWritten(m, fmt))
    ensures forall k :: k != DpiHeightKey && k != DpiWidthKey && k in EncodeAsWritten(m, fmt) ==> MoveWidth(EncodeAsWritten(m, fmt))[k] == EncodeAsWritten(m, fmt)[k]
  {
    assert ExpectedAsWritten(m, fmt, DpiHeightKey) == IntEntry(DpiHeight(m));
    assert ExpectedAsWritten(m, fmt, DpiWidthKey) == IntEntry(DpiWidth(m));
  }

  /** An image 72 dpi tall and 300 dpi wide. */
  const DpiExample: Store := map["kCGImagePropertyDPIHeight" := Int(72), "kCGImagePropertyDPIWidth" := Int(300)]

  /** The example's two resolutions read back as stored. */
  lemma DpiExampleReads()
    ensures DpiHeight(FromRawValue(DpiExample)) == Some(72) && DpiWidth(FromRawValue(DpiExample)) == Some(300)
  {
    assert "kCGImagePropertyDPIHeight"[19] != "kCGImagePropertyDPIWidth"[19];
  }

  /** As written, the image 72 dpi tall and 300 dpi wide is reported as 300 dpi tall, with no width. */
  lemma AsWrittenExample(fmt: Formatters)
    ensures var c := MoveWidth(EncodeAsWritten(FromRawValue(DpiExample), fmt));
      DpiHeightKey in c && c[DpiHeightKey] == Scalar(JInt(300)) && DpiWidthKey !in c
  {
    DpiExampleReads();
    AsWrittenLosesWidth(FromRawValue(DpiExample), fmt);
  }

  /** Corrected, the same image is reported as 72 dpi tall and 300 dpi wide. */
  lemma CorrectedExample(fmt: Formatters)
    ensures var c := Encode(FromRawValue(DpiExample), fmt);
      DpiHeightKey in c && c[DpiHeightKey] == Scalar(JInt(72)) && DpiWidthKey in c && c[DpiWidthKey] == Scalar(JInt(300))
  {
    DpiExampleReads();
  }

  /** A family object is encoded exactly when its option flag is set and its view exists. */
  lemma ExifIsGated(m: ImageMetadata, fmt: Formatters)
    ensures ExifKey in Encode(m, fmt) <==> Options.Contains(m.options, Options.Exif) && ExifView(m).Some?
    ensures ExifKey in Encode(m, fmt) ==> Encode(m, fmt)[ExifKey] == ExifObject(Exif.Encode(ExifView(m).value, fmt))
  {
    assert Expected(m, fmt, ExifKey) == ExifEntry(m, fmt);
  }

  /** The same gate for the IPTC family. */
  lemma IptcIsGated(m: ImageMetadata, fmt: Formatters)
    ensures IptcKey in Encode(m, fmt) <==> Options.Contains(m.options, Options.Iptc) && IptcView(m).Some?
    ensures IptcKey in Encode(m, fmt) ==> Encode(m, fmt)[IptcKey] == IptcObject(Iptc.Encode(IptcView(m).value, fmt))
  {
    assert Expected(m, fmt, IptcKey) == IptcEntry(m, fmt);
  }

  /** The same gate for the TIFF family. */
  lemma TiffIsGated(m: ImageMetadata, fmt: Formatters)
    ensures TiffKey in Encode(m, fmt) <==> Options.Contains(m.options, Options.Tiff) && TiffView(m).Some?
    ensures TiffKey in Encode(m, fmt) ==> Encode(m, fmt)[TiffKey] == TiffObject(Tiff.Encode(TiffView(m).value, fmt))
  {
    assert Expected(m, fmt, TiffKey) == TiffEntry(m, fmt);
  }

  /** The same gate for the GPS family. */
  lemma GpsIsGated(m: ImageMetadata, fmt: Formatters)
    ensures GpsKey in Encode(m, fmt) <==> Options.Contains(m.options, Options.Gps) && GpsView(m).Some?
    ensures GpsKey in Encode(m, fmt) ==> Encode(m, fmt)[GpsKey] == GpsObject(Gps.Encode(GpsView(m).value, fmt))
  {
    assert Expected(m, fmt, GpsKey) == GpsEntry(m, fmt);
  }

  /** `hasAlpha`, `isFloat` and `isIndexed` are always encoded, as booleans. */
  lemma FlagsAlwaysEncoded(m: ImageMetadata, fmt: Formatters)
    ensures HasAlphaKey in Encode(m, fmt) && Encode(m, fmt)[HasAlphaKey] == Scalar(JBool(HasAlpha(m)))
    ensures IsFloatKey in Encode(m, fmt) && Encode(m, fmt)[IsFloatKey] == Scalar(JBool(IsFloat(m)))
    ensures IsIndexedKey in Encode(m, fmt) && Encode(m, fmt)[IsIndexedKey] == Scalar(JBool(IsIndexed(m)))
  {
  }

  /** The image file is encoded whenever it is present, whatever the options. */
  lemma ImageFileIgnoresOptions(m: ImageMetadata, fmt: Formatters, options: Options.MetadataOptions)
    ensures ImageFileKey in Encode(m.(options := options), fmt) <==> m.imageFile.Some?
    ensures m.imageFile.Some? ==> Encode(m.(options := options), fmt)[ImageFileKey] == FileObject(Files.Encode(m.imageFile.value, fmt))
  {
    assert Expected(m.(options := options), fmt, ImageFileKey) == ImageFileEntry(m.(options := options), fmt);
  }

  /** With the options `.all`, every family view that exists is encoded. */
  lemma AllEncodesEveryFamily(m: ImageMetadata, fmt: Formatters)
    requires m.options == Options.All
    ensures ExifKey in Encode(m, fmt) <==> ExifView(m).Some?
    ensures IptcKey in Encode(m, fmt) <==> IptcView(m).Some?
    ensures TiffKey in Encode(m, fmt) <==> TiffView(m).Some?
    ensures GpsKey in Encode(m, fmt) <==> GpsView(m).Some?
  {
    Options.AllContainsEveryFlag();
    ExifIsGated(m, fmt);
    IptcIsGated(m, fmt);
    TiffIsGated(m, fmt);
    GpsIsGated(m, fmt);
  }

  /**
   * A value made from a dictionary alone encodes every family view that
   * exists.
   */
  lemma FromRawValueEncodesEveryFamily(d: Store, fmt: Formatters)
    ensures var m := FromRawValue(d);
      && (ExifKey in Encode(m, fmt) <==> ExifView(m).Some?)
      && (IptcKey in Encode(m, fmt) <==> IptcView(m).Some?)
      && (TiffKey in Encode(m, fmt) <==> TiffView(m).Some?)
      && (GpsKey in Encode(m, fmt) <==> GpsView(m).Some?)
  {
    AllEncodesEveryFamily(FromRawValue(d), fmt);
  }

  /** A value made from a dictionary alone encodes neither a content type nor a file. */
  lemma FromRawValueEncodesNoFile(d: Store, fmt: Formatters)
    ensures ContentTypeKey !in Encode(FromRawValue(d), fmt) && ImageFileKey !in Encode(FromRawValue(d), fmt)
  {
  }

  /** With no option set, no family object is encoded. */
  lemma NoneEncodesNoFamily(m: ImageMetadata, fmt: Formatters)
    requires m.options == Options.None
    ensures ExifKey !in Encode(m, fmt) && IptcKey !in Encode(m, fmt)
    ensures TiffKey !in Encode(m, fmt) && GpsKey !in Encode(m, fmt)
  {
    Options.NoneContainsNoFlag();
    ExifIsGated(m, fmt);
    IptcIsGated(m, fmt);
    TiffIsGated(m, fmt);
    GpsIsGated(m, fmt);
  }

  /** The orientation is encoded as its description, exactly when it decodes. */
  lemma OrientationEncodedAsDescription(m: ImageMetadata, fmt: Formatters)
    ensures OrientationKey in Encode(m, fmt) <==> Orientation(m).Some?
    ensures OrientationKey in Encode(m, fmt) ==> Encode(m, fmt)[OrientationKey] == Scalar(JString(Orientation(m).value.Description()))
  {
  }
}
