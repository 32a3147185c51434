/**
 * `GPS`: the view over the GPS sub-dictionary. Seven properties are typed
 * lookups; `date` joins the GPS date stamp and time stamp (section 4.6.6 of
 * Exif 2.3) and parses them at UTC. The two stamps are properties of their
 * own but are not encoded.
 */
module Gps {
  import opened Wrappers
  import opened Foundation
  import opened Json
  import opened PropertyStore
  import opened Fields

  /** `GPS(rawValue:)`: the dictionary, stored unchanged. */
  datatype Gps = Gps(rawValue: Store)

  const DateStampKey: string := "kCGImagePropertyGPSDateStamp"
  const TimeStampKey: string := "kCGImagePropertyGPSTimeStamp"

  /** `dateFormatter`: pattern "yyyy:MM:dd HH:mm:ss", zero seconds from GMT. */
  const DateFormatter: Formatter := Formatter("yyyy:MM:dd HH:mm:ss", Utc)

  /**
   * A case of `CodingKeys`. `DateTime` carries the property `date`; every
   * other case is the name of its property.
   */
  datatype CodingKey =
    | Altitude
    | AltitudeReference
    | Latitude
    | LatitudeReference
    | Longitude
    | LongitudeReference
    | HorizontalPositioningError
    | DateTime
  {
    /** The key's text in the encoded output. */
    function StringValue(): string {
      match this
      case Altitude => "altitude"
      case AltitudeReference => "altitudeReference"
      case Latitude => "latitude"
      case LatitudeReference => "latitudeReference"
      case Longitude => "longitude"
      case LongitudeReference => "longitudeReference"
      case HorizontalPositioningError => "horizontalPositioningError"
      case DateTime => "dateTime"
    }

    /** How the property written under this key is computed from the dictionary. */
    function Source(): Derivation {
      match this
      case Altitude => Lookup("kCGImagePropertyGPSAltitude", DoubleKind)
      case AltitudeReference => Lookup("kCGImagePropertyGPSAltitudeRef", StringKind)
      case Latitude => Lookup("kCGImagePropertyGPSLatitude", DoubleKind)
      case LatitudeReference => Lookup("kCGImagePropertyGPSLatitudeRef", StringKind)
      case Longitude => Lookup("kCGImagePropertyGPSLongitude", DoubleKind)
      case LongitudeReference => Lookup("kCGImagePropertyGPSLongitudeRef", StringKind)
      case HorizontalPositioningError => Lookup("kCGImagePropertyGPSHPositioningError", DoubleKind)
      case DateTime => DateAndTime(DateStampKey, TimeStampKey, DateFormatter)
    }
  }

  /** The property written under `k`. */
  function Field(x: Gps, k: CodingKey, fmt: Formatters): Option<Typed> {
    Derive(x.rawValue, k.Source(), fmt)
  }

  /** `dateStamp` */
  function DateStamp(x: Gps): Option<string> {
    StringAt(x.rawValue, DateStampKey)
  }

  /** `timeStamp` */
  function TimeStamp(x: Gps): Option<string> {
    StringAt(x.rawValue, TimeStampKey)
  }

  /** `date` */
  function Date(x: Gps, fmt: Formatters): Option<Typed> {
    Field(x, DateTime, fmt)
  }

  /** The JSON written for `k`, when its property is present. */
  function Emitted(x: Gps, k: CodingKey, fmt: Formatters): Option<Json> {
    match Field(x, k, fmt)
    case Some(t) => Some(ToJson(t))
    case None => None
  }

  /** The keys in the order `encode(to:)` writes them. */
  const Order: seq<CodingKey> :=
    [Altitude, AltitudeReference, Latitude, LatitudeReference, Longitude, LongitudeReference,
     HorizontalPositioningError, DateTime]

  /** Every key, as a set. */
  const AllKeys: set<CodingKey> :=
    {Altitude, AltitudeReference, Latitude, LatitudeReference, Longitude, LongitudeReference,
     HorizontalPositioningError, DateTime}

  lemma KeysListed(k: CodingKey)
    ensures k in Order && k in AllKeys
  {
  }

  /** The encoded object: each property that is present, under its key. */
  function Encode(x: Gps, fmt: Formatters): (c: map<CodingKey, Json>)
    ensures forall k :: k in c <==> Field(x, k, fmt).Some?
    ensures forall k :: k in c ==> c[k] == ToJson(Field(x, k, fmt).value)
  {
    map k: CodingKey | Emitted(x, k, fmt).Some? :: Emitted(x, k, fmt).value
  }

  /** `encode(to:)`: the eight `encodeIfPresent` writes into a keyed container, in source order. */
  method EncodeTo(x: Gps, fmt: Formatters) returns (c: map<CodingKey, Json>)
    ensures c == Encode(x, fmt)
  {
    c := EncodeEachIfPresent(Order, k => Emitted(x, k, fmt));
    forall k ensures k in c <==> k in Encode(x, fmt) {
      KeysListed(k);
    }
  }

  /** `date` is absent when either stamp is missing or not a String. */
  lemma DateNeedsBothStamps(x: Gps, fmt: Formatters)
    ensures DateStamp(x).None? ==> Date(x, fmt).None?
    ensures TimeStamp(x).None? ==> Date(x, fmt).None?
  {
    DateAndTimeInput(x.rawValue, DateStampKey, TimeStampKey, DateFormatter, fmt);
  }

  /** With both stamps, `date` is the UTC parse of the date stamp, a space and the time stamp. */
  lemma DateParsesJoinedStamps(x: Gps, fmt: Formatters)
    requires DateStamp(x).Some? && TimeStamp(x).Some?
    ensures Date(x, fmt) ==
      (match fmt.date(Formatter("yyyy:MM:dd HH:mm:ss", Utc), DateStamp(x).value + " " + TimeStamp(x).value)
       case Some(t) => Some(Fields.Date(t))
       case None => None)
  {
    DateAndTimeInput(x.rawValue, DateStampKey, TimeStampKey, DateFormatter, fmt);
  }

  /**
   * `date` is written under "dateTime", and no key is written as "date",
   * "dateStamp" or "timeStamp".
   */
  lemma KeyNames(k: CodingKey)
    ensures DateTime.StringValue() == "dateTime"
    ensures k.StringValue() != "date" && k.StringValue() != "dateStamp" && k.StringValue() != "timeStamp"
  {
  }

  /** Encoding writes at most eight keys, and writes "dateTime" exactly when `date` is present. */
  lemma EncodedKeys(x: Gps, fmt: Formatters)
    ensures |Encode(x, fmt).Keys| <= 8
    ensures (DateTime in Encode(x, fmt)) == Date(x, fmt).Some?
  {
    forall k | k in Encode(x, fmt) ensures k in AllKeys {
      KeysListed(k);
    }
    SubsetCard(Encode(x, fmt).Keys, AllKeys);
    AllKeysCount();
  }

  /** Helper of `EncodedKeys`: the key list has eight entries. */
  lemma AllKeysCount()
    ensures |AllKeys| == 8
  {
  }

  /** Helper of `EncodedKeys`: a subset is no larger than its superset. */
  lemma SubsetCard<T>(a: set<T>, b: set<T>)
    requires a <= b
    ensures |a| <= |b|
    decreases |a|
  {
    if a != {} {
      var x :| x in a;
      SubsetCard(a - {x}, b - {x});
    }
  }
}
