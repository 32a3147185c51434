/**
 * `IPTC`: the view over the IPTC sub-dictionary (IPTC IIM 4.2 datasets as
 * ImageIO names them). Each computed property is a `Derivation` of the
 * dictionary, named by the `CodingKey` it is encoded under.
 */
module Iptc {
  import opened Wrappers
  import opened Foundation
  import opened Json
  import opened PropertyStore
  import opened Fields
  import IptcNewsCode
  import IptcCreatorContactKey

  /** `IPTC(rawValue:)`: the dictionary, stored unchanged. */
  datatype Iptc = Iptc(rawValue: Store)

  /** `dateFormatter`: pattern "yyyyMMdd HHmmss", host time zone. */
  const DateFormatter: Formatter := Formatter("yyyyMMdd HHmmss", HostTimeZone)

  /** `releaseDateFormatter`: pattern "CCYYMMDD HHMMSS", host time zone. */
  const ReleaseDateFormatter: Formatter := Formatter("CCYYMMDD HHMMSS", HostTimeZone)

  /**
   * A case of `CodingKeys`. Each case is the name of a computed property, and
   * `encode(to:)` writes that property under it.
   */
  datatype CodingKey =
    | Urgency
    | SubjectReference
    | Category
    | SupplementalCategory
    | FixtureIdentifier
    | Keywords
    | ContentLocationCode
    | ContentLocationName
    | EditStatus
    | EditorialUpdate
    | ObjectCycle
    | ImageType
    | ImageOrientation
    | LanguageIdentifier
    | CaptionAbstract
    | Headline
    | CreditLine
    | StarRating
    | SceneCodes
    | CopyrightNotice
    | RightsUsageTerms
    | ReleaseDate
    | ExpirationDate
    | SpecialInstructions
    | ActionAdvised
    | ReferenceService
    | ReferenceDate
    | ReferenceNumber
    | CreationDate
    | DigitalCreationDate
    | Byline
    | BylineTitle
    | Source
    | Contact
    | WriterEditor
    | CreatorContactInfo
    | City
    | SubLocation
    | ProvinceState
    | CountryCode
    | Country
    | OriginalTransmissionReference
    | OriginatingProgram
    | ProgramVersion
    | ObjectType
    | ObjectAttribute
    | ObjectName
  {
    /** The key's text in the encoded output: the name of its property. */
    function StringValue(): string {
      match this
      case Urgency => "urgency"
      case SubjectReference => "subjectReference"
      case Category => "category"
      case SupplementalCategory => "supplementalCategory"
      case FixtureIdentifier => "fixtureIdentifier"
      case Keywords => "keywords"
      case ContentLocationCode => "contentLocationCode"
      case ContentLocationName => "contentLocationName"
      case EditStatus => "editStatus"
      case EditorialUpdate => "editorialUpdate"
      case ObjectCycle => "objectCycle"
      case ImageType => "imageType"
      case ImageOrientation => "imageOrientation"
      case LanguageIdentifier => "languageIdentifier"
      case CaptionAbstract => "captionAbstract"
      case Headline => "headline"
      case CreditLine => "creditLine"
      case StarRating => "starRating"
      case SceneCodes => "sceneCodes"
      case CopyrightNotice => "copyrightNotice"
      case RightsUsageTerms => "rightsUsageTerms"
      case ReleaseDate => "releaseDate"
      case ExpirationDate => "expirationDate"
      case SpecialInstructions => "specialInstructions"
      case ActionAdvised => "actionAdvised"
      case ReferenceService => "referenceService"
      case ReferenceDate => "referenceDate"
      case ReferenceNumber => "referenceNumber"
      case CreationDate => "creationDate"
      case DigitalCreationDate => "digitalCreationDate"
      case Byline => "byline"
      case BylineTitle => "bylineTitle"
      case Source => "source"
      case Contact => "contact"
      case WriterEditor => "writerEditor"
      case CreatorContactInfo => "creatorContactInfo"
      case City => "city"
      case SubLocation => "subLocation"
      case ProvinceState => "provinceState"
      case CountryCode => "countryCode"
      case Country => "country"
      case OriginalTransmissionReference => "originalTransmissionReference"
      case OriginatingProgram => "originatingProgram"
      case ProgramVersion => "programVersion"
      case ObjectType => "objectType"
      case ObjectAttribute => "objectAttribute"
      case ObjectName => "objectName"
    }

    /** How the property of the same name is computed from the dictionary. */
    function Source(): Derivation {
      match this
      case Urgency => Lookup("kCGImagePropertyIPTCUrgency", StringKind)
      case SubjectReference => Lookup("kCGImagePropertyIPTCSubjectReference", StringKind)
      case Category => Lookup("kCGImagePropertyIPTCCategory", StringKind)
      case SupplementalCategory => Lookup("kCGImagePropertyIPTCSupplementalCategory", StringKind)
      case FixtureIdentifier => Lookup("kCGImagePropertyIPTCFixtureIdentifier", StringKind)
      case Keywords => NonBlankStrings("kCGImagePropertyIPTCKeywords")
      case ContentLocationCode => Lookup("kCGImagePropertyIPTCContentLocationCode", StringKind)
      case ContentLocationName => Lookup("kCGImagePropertyIPTCContentLocationName", StringKind)
      case EditStatus => Lookup("kCGImagePropertyIPTCEditStatus", StringKind)
      case EditorialUpdate => Lookup("kCGImagePropertyIPTCEditorialUpdate", StringKind)
      case ObjectCycle => Lookup("kCGImagePropertyIPTCObjectCycle", StringKind)
      case ImageType => Lookup("kCGImagePropertyIPTCImageType", StringKind)
      case ImageOrientation => Lookup("kCGImagePropertyIPTCImageOrientation", StringKind)
      case LanguageIdentifier => Lookup("kCGImagePropertyIPTCLanguageIdentifier", StringKind)
      case CaptionAbstract => Lookup("kCGImagePropertyIPTCCaptionAbstract", StringKind)
      case Headline => Lookup("kCGImagePropertyIPTCHeadline", StringKind)
      case CreditLine => Lookup("kCGImagePropertyIPTCCredit", StringKind)
      case StarRating => Lookup("kCGImagePropertyIPTCStarRating", StringKind)
      case SceneCodes => SceneList("kCGImagePropertyIPTCScene")
      case CopyrightNotice => Lookup("kCGImagePropertyIPTCCopyrightNotice", StringKind)
      case RightsUsageTerms => Lookup("kCGImagePropertyIPTCRightsUsageTerms", StringKind)
      case ReleaseDate => DateAndTime("kCGImagePropertyIPTCReleaseDate", "kCGImagePropertyIPTCReleaseTime", ReleaseDateFormatter)
      case ExpirationDate => DateAndTime("kCGImagePropertyIPTCExpirationDate", "kCGImagePropertyIPTCExpirationTime", ReleaseDateFormatter)
      case SpecialInstructions => Lookup("kCGImagePropertyIPTCSpecialInstructions", StringKind)
      case ActionAdvised => Lookup("kCGImagePropertyIPTCActionAdvised", StringKind)
      case ReferenceService => Lookup("kCGImagePropertyIPTCReferenceService", StringKind)
      case ReferenceDate => Lookup("kCGImagePropertyIPTCReferenceDate", StringKind)
      case ReferenceNumber => Lookup("kCGImagePropertyIPTCReferenceNumber", StringKind)
      case CreationDate => DateAndTime("kCGImagePropertyIPTCDateCreated", "kCGImagePropertyIPTCTimeCreated", DateFormatter)
      case DigitalCreationDate => DateAndTime("kCGImagePropertyIPTCDigitalCreationDate", "kCGImagePropertyIPTCDigitalCreationTime", DateFormatter)
      case Byline => Lookup("kCGImagePropertyIPTCByline", StringArrayKind)
      case BylineTitle => Lookup("kCGImagePropertyIPTCBylineTitle", StringKind)
      case Source => Lookup("kCGImagePropertyIPTCSource", StringKind)
      case Contact => Lookup("kCGImagePropertyIPTCContact", StringKind)
      case WriterEditor => Lookup("kCGImagePropertyIPTCWriterEditor", StringKind)
      case CreatorContactInfo => ContactInfo("kCGImagePropertyIPTCCreatorContactInfo")
      case City => Lookup("kCGImagePropertyIPTCCity", StringKind)
      case SubLocation => Lookup("kCGImagePropertyIPTCSubLocation", StringKind)
      case ProvinceState => Lookup("kCGImagePropertyIPTCProvinceState", StringKind)
      case CountryCode => Lookup("kCGImagePropertyIPTCCountryPrimaryLocationCode", StringKind)
      case Country => Lookup("kCGImagePropertyIPTCCountryPrimaryLocationName", StringKind)
      case OriginalTransmissionReference => Lookup("kCGImagePropertyIPTCOriginalTransmissionReference", StringKind)
      case OriginatingProgram => Lookup("kCGImagePropertyIPTCOriginatingProgram", StringKind)
      case ProgramVersion => Lookup("kCGImagePropertyIPTCProgramVersion", StringKind)
      case ObjectType => Lookup("kCGImagePropertyIPTCObjectTypeReference", StringKind)
      case ObjectAttribute => Lookup("kCGImagePropertyIPTCObjectAttributeReference", StringKind)
      case ObjectName => Lookup("kCGImagePropertyIPTCObjectName", StringKind)
    }

    /**
     * How the property is computed as the source is written: as `Source()`,
     * except that `releaseDate` and `expirationDate` read their date key for
     * the time half too (IPTC.swift:168-187).
     */
    function SourceAsWritten(): Derivation {
      match this
      case ReleaseDate => DateAndTime("kCGImagePropertyIPTCReleaseDate", "kCGImagePropertyIPTCReleaseDate", ReleaseDateFormatter)
      case ExpirationDate => DateAndTime("kCGImagePropertyIPTCExpirationDate", "kCGImagePropertyIPTCExpirationDate", ReleaseDateFormatter)
      case _ => Source()
    }
  }

  /** The property named by `k`. */
  function Field(x: Iptc, k: CodingKey, fmt: Formatters): Option<Typed> {
    Derive(x.rawValue, k.Source(), fmt)
  }

  /** `encode(to:)`: one `encodeIfPresent` per property, under the property's own name. */
  function Encode(x: Iptc, fmt: Formatters): (c: map<CodingKey, Json>)
    ensures forall k :: k in c <==> Field(x, k, fmt).Some?
    ensures forall k :: k in c ==> c[k] == ToJson(Field(x, k, fmt).value)
  {
    map k: CodingKey | Field(x, k, fmt).Some? :: ToJson(Field(x, k, fmt).value)
  }

  /** The property named by `k`, as the source computes it. */
  function FieldAsWritten(x: Iptc, k: CodingKey, fmt: Formatters): Option<Typed> {
    Derive(x.rawValue, k.SourceAsWritten(), fmt)
  }

  /** `encode(to:)` as written: the same writes, with the as-written release and expiration dates. */
  function EncodeAsWritten(x: Iptc, fmt: Formatters): (c: map<CodingKey, Json>)
    ensures forall k :: k in c <==> FieldAsWritten(x, k, fmt).Some?
    ensures forall k :: k in c ==> c[k] == ToJson(FieldAsWritten(x, k, fmt).value)
  {
    map k: CodingKey | FieldAsWritten(x, k, fmt).Some? :: ToJson(FieldAsWritten(x, k, fmt).value)
  }

  /**
   * The as-written object differs from the corrected one only under
   * `releaseDate` and `expirationDate`.
   */
  lemma EncodeAsWrittenDiffersInDates(x: Iptc, fmt: Formatters)
    ensures EncodeAsWritten(x, fmt) - {ReleaseDate, ExpirationDate} == Encode(x, fmt) - {ReleaseDate, ExpirationDate}
  {
    var l, r := EncodeAsWritten(x, fmt), Encode(x, fmt);
    forall k | k !in {ReleaseDate, ExpirationDate}
      ensures FieldAsWritten(x, k, fmt) == Field(x, k, fmt)
    {
      assert k.SourceAsWritten() == k.Source();
    }
    AgreeAway(l, r, {ReleaseDate, ExpirationDate});
  }

  /** The contact entries among the dictionary keys in `seen`. */
  function ContactInfoAmong(dict: Store, seen: set<string>): map<IptcCreatorContactKey.CreatorContactKey, string> {
    map k: IptcCreatorContactKey.CreatorContactKey | k.RawValue() in seen && k.RawValue() in dict && dict[k.RawValue()].Str?
      :: dict[k.RawValue()].str
  }

  /** Visiting one more dictionary entry sets, clears or keeps one slot, as `reduce(into:)` does. */
  lemma ContactInfoStep(dict: Store, seen: set<string>, key: string)
    requires key in dict
    ensures ContactInfoAmong(dict, seen + {key}) ==
      match IptcCreatorContactKey.FromRawValue(key)
      case None => ContactInfoAmong(dict, seen)
      case Some(k) =>
        if dict[key].Str? then ContactInfoAmong(dict, seen)[k := dict[key].str]
        else ContactInfoAmong(dict, seen) - {k}
  {
    var before := ContactInfoAmong(dict, seen);
    var after := ContactInfoAmong(dict, seen + {key});
    match IptcCreatorContactKey.FromRawValue(key)
    case None =>
      assert after.Keys == before.Keys;
    case Some(k) =>
      forall k' | k' != k
        ensures k'.RawValue() != key
      {
        IptcCreatorContactKey.RoundTrip(k');
      }
      if dict[key].Str? {
        assert after.Keys == before.Keys + {k};
      } else {
        assert after.Keys == before.Keys - {k};
      }
  }

  /**
   * The `reduce(into:)` of `creatorContactInfo`: visit every entry of the
   * contact dictionary once, in an order the dictionary chooses; an entry
   * whose key is a known contact key stores its value when that is a String
   * and clears the slot otherwise. The result does not depend on the order:
   * it is exactly the known keys with String values.
   */
  method CollectContactInfo(dict: Store) returns (info: map<IptcCreatorContactKey.CreatorContactKey, string>)
    ensures info == ContactInfoOf(dict)
  {
    info := map[];
    var remaining := dict.Keys;
    ghost var seen: set<string> := {};
    while remaining != {}
      invariant remaining + seen == dict.Keys && remaining !! seen
      invariant info == ContactInfoAmong(dict, seen)
      decreases |remaining|
    {
      var key :| key in remaining;
      ContactInfoStep(dict, seen, key);
      match IptcCreatorContactKey.FromRawValue(key) {
        case None =>
        case Some(k) =>
          if dict[key].Str? {
            info := info[k := dict[key].str];
          } else {
            info := info - {k};
          }
      }
      remaining := remaining - {key};
      seen := seen + {key};
    }
    assert seen == dict.Keys;
  }

  /** `creatorContactInfo`: the collected entries, absent when the value is not a dictionary or nothing is kept. */
  method CreatorContactInfo(x: Iptc) returns (r: Option<map<IptcCreatorContactKey.CreatorContactKey, string>>)
    ensures var key := "kCGImagePropertyIPTCCreatorContactInfo";
      r.Some? <==> key in x.rawValue && x.rawValue[key].Dict? && ContactInfoOf(x.rawValue[key].entries) != map[]
    ensures r.Some? ==> r.value == ContactInfoOf(x.rawValue["kCGImagePropertyIPTCCreatorContactInfo"].entries)
  {
    var dict := DictAt(x.rawValue, "kCGImagePropertyIPTCCreatorContactInfo");
    if dict.None? {
      return None;
    }
    var info := CollectContactInfo(dict.value);
    if info == map[] {
      return None;
    }
    return Some(info);
  }

  /** The method and the property agree: `Field` computes the same contact info. */
  lemma CreatorContactInfoAgrees(x: Iptc, fmt: Formatters)
    ensures var key := "kCGImagePropertyIPTCCreatorContactInfo";
      && (Field(x, CodingKey.CreatorContactInfo, fmt).Some? <==>
            key in x.rawValue && x.rawValue[key].Dict? && ContactInfoOf(x.rawValue[key].entries) != map[])
      && (Field(x, CodingKey.CreatorContactInfo, fmt).Some? ==>
            Field(x, CodingKey.CreatorContactInfo, fmt).value == Contacts(ContactInfoOf(x.rawValue[key].entries)))
  {
    assert CodingKey.CreatorContactInfo.Source() == ContactInfo("kCGImagePropertyIPTCCreatorContactInfo");
  }

  /**
   * `keywords` is absent when the value is not a `[String]` or no entry is
   * non-empty (the empty array included); otherwise it is the stored array
   * unchanged, empty entries and all.
   */
  lemma KeywordsRule(x: Iptc, fmt: Formatters)
    ensures var d := x.rawValue; var key := "kCGImagePropertyIPTCKeywords"; var r := Field(x, Keywords, fmt);
      && (r.Some? <==> (key in d && d[key].Arr? && AllStrs(d[key].items)
                        && exists i :: 0 <= i < |d[key].items| && d[key].items[i] != Str("")))
      && (r.Some? ==> r.value.WordList? && |r.value.strs| == |d[key].items|
                      && forall i :: 0 <= i < |r.value.strs| ==> d[key].items[i] == Str(r.value.strs[i]))
  {
    assert CodingKey.Keywords.Source() == NonBlankStrings("kCGImagePropertyIPTCKeywords");
    NonBlankStringsRule(x.rawValue, "kCGImagePropertyIPTCKeywords", fmt);
  }

  /** A keyword list with an empty entry keeps that entry; a list of empty entries, or no entries, is absent. */
  lemma KeywordsExamples(fmt: Formatters)
    ensures Field(Iptc(map["kCGImagePropertyIPTCKeywords" := Arr([Str("a"), Str("")])]), Keywords, fmt)
      == Some(WordList(["a", ""]))
    ensures Field(Iptc(map["kCGImagePropertyIPTCKeywords" := Arr([Str(""), Str("")])]), Keywords, fmt).None?
    ensures Field(Iptc(map["kCGImagePropertyIPTCKeywords" := Arr([])]), Keywords, fmt).None?
  {
    var key := "kCGImagePropertyIPTCKeywords";
    var x1 := Iptc(map[key := Arr([Str("a"), Str("")])]);
    KeywordsRule(x1, fmt);
    assert x1.rawValue[key].items[0] != Str("");
    var r := Field(x1, Keywords, fmt);
    assert r.value.strs[0] == "a" && r.value.strs[1] == "";
    assert r.value.strs == ["a", ""];
    KeywordsRule(Iptc(map[key := Arr([Str(""), Str("")])]), fmt);
    KeywordsRule(Iptc(map[key := Arr([])]), fmt);
  }

  /**
   * `sceneCodes` is present exactly when the value is a `[String]` holding
   * at least one known Scene code; it is then the known codes decoded, in
   * input order, unknown codes dropped.
   */
  lemma SceneCodesRule(x: Iptc, fmt: Formatters)
    ensures var d := x.rawValue; var key := "kCGImagePropertyIPTCScene"; var r := Field(x, SceneCodes, fmt);
      && (r.Some? <==> (key in d && d[key].Arr? && AllStrs(d[key].items)
                        && exists i, v: IptcNewsCode.Scene :: 0 <= i < |d[key].items| && d[key].items[i] == Str(v.RawValue())))
      && (r.Some? ==> r.value == Scenes(DecodeScenes(StringArrayAt(d, key).value)))
  {
    assert CodingKey.SceneCodes.Source() == SceneList("kCGImagePropertyIPTCScene");
    SceneListRule(x.rawValue, "kCGImagePropertyIPTCScene", fmt);
  }

  /** Scene codes are encoded through `Scene`'s raw String values. */
  lemma EncodesScenesAsCodes(x: Iptc, fmt: Formatters)
    requires SceneCodes in Encode(x, fmt)
    ensures Field(x, SceneCodes, fmt).Some? && Field(x, SceneCodes, fmt).value.Scenes?
    ensures var scenes := Field(x, SceneCodes, fmt).value.scenes;
      Encode(x, fmt)[SceneCodes] == JArray(seq(|scenes|, i requires 0 <= i < |scenes| => JString(scenes[i].RawValue())))
  {
    SceneCodesRule(x, fmt);
    var t := Field(x, SceneCodes, fmt).value;
    assert t.Scenes?;
    assert Encode(x, fmt)[SceneCodes] == ToJson(t);
  }

  /** `creationDate` is absent without both DateCreated and TimeCreated; otherwise it parses "date time". */
  lemma CreationDateRule(x: Iptc, fmt: Formatters)
    ensures var d := x.rawValue; var dk := "kCGImagePropertyIPTCDateCreated"; var tk := "kCGImagePropertyIPTCTimeCreated";
      && (!(dk in d && d[dk].Str?) || !(tk in d && d[tk].Str?) ==> Field(x, CreationDate, fmt).None?)
      && (dk in d && d[dk].Str? && tk in d && d[tk].Str? ==>
            Field(x, CreationDate, fmt) ==
              (match fmt.date(DateFormatter, d[dk].str + " " + d[tk].str) case Some(t) => Some(Date(t)) case None => None))
  {
    assert CodingKey.CreationDate.Source() ==
      DateAndTime("kCGImagePropertyIPTCDateCreated", "kCGImagePropertyIPTCTimeCreated", DateFormatter);
    DateAndTimeInput(x.rawValue, "kCGImagePropertyIPTCDateCreated", "kCGImagePropertyIPTCTimeCreated", DateFormatter, fmt);
  }

  /** `digitalCreationDate` follows the same rule over DigitalCreationDate and DigitalCreationTime. */
  lemma DigitalCreationDateRule(x: Iptc, fmt: Formatters)
    ensures var d := x.rawValue; var dk := "kCGImagePropertyIPTCDigitalCreationDate"; var tk := "kCGImagePropertyIPTCDigitalCreationTime";
      && (!(dk in d && d[dk].Str?) || !(tk in d && d[tk].Str?) ==> Field(x, DigitalCreationDate, fmt).None?)
      && (dk in d && d[dk].Str? && tk in d && d[tk].Str? ==>
            Field(x, DigitalCreationDate, fmt) ==
              (match fmt.date(DateFormatter, d[dk].str + " " + d[tk].str) case Some(t) => Some(Date(t)) case None => None))
  {
    assert CodingKey.DigitalCreationDate.Source() ==
      DateAndTime("kCGImagePropertyIPTCDigitalCreationDate", "kCGImagePropertyIPTCDigitalCreationTime", DateFormatter);
    DateAndTimeInput(x.rawValue, "kCGImagePropertyIPTCDigitalCreationDate", "kCGImagePropertyIPTCDigitalCreationTime", DateFormatter, fmt);
  }

  /**
   * As written, `releaseDate` and `expirationDate` are absent when their date
   * key is missing or not a String, and otherwise parse that string, a
   * space, and the same string again.
   */
  lemma ReleaseAndExpirationReadOneKey(x: Iptc, fmt: Formatters)
    ensures var d := x.rawValue; var k := "kCGImagePropertyIPTCReleaseDate";
      FieldAsWritten(x, ReleaseDate, fmt) ==
        (if k in d && d[k].Str? then
           (match fmt.date(ReleaseDateFormatter, d[k].str + " " + d[k].str) case Some(t) => Some(Date(t)) case None => None)
         else None)
    ensures var d := x.rawValue; var k := "kCGImagePropertyIPTCExpirationDate";
      FieldAsWritten(x, ExpirationDate, fmt) ==
        (if k in d && d[k].Str? then
           (match fmt.date(ReleaseDateFormatter, d[k].str + " " + d[k].str) case Some(t) => Some(Date(t)) case None => None)
         else None)
  {
    DateAndTimeInput(x.rawValue, "kCGImagePropertyIPTCReleaseDate", "kCGImagePropertyIPTCReleaseDate", ReleaseDateFormatter, fmt);
    DateAndTimeInput(x.rawValue, "kCGImagePropertyIPTCExpirationDate", "kCGImagePropertyIPTCExpirationDate", ReleaseDateFormatter, fmt);
  }

  /**
   * Corrected: `releaseDate` and `expirationDate` combine a date key with its
   * own time key, like `creationDate`; both must be Strings.
   */
  lemma ReleaseAndExpirationDateRule(x: Iptc, fmt: Formatters)
    ensures var d := x.rawValue; var dk := "kCGImagePropertyIPTCReleaseDate"; var tk := "kCGImagePropertyIPTCReleaseTime";
      Field(x, ReleaseDate, fmt) ==
        (if dk in d && d[dk].Str? && tk in d && d[tk].Str? then
           (match fmt.date(ReleaseDateFormatter, d[dk].str + " " + d[tk].str) case Some(t) => Some(Date(t)) case None => None)
         else None)
    ensures var d := x.rawValue; var dk := "kCGImagePropertyIPTCExpirationDate"; var tk := "kCGImagePropertyIPTCExpirationTime";
      Field(x, ExpirationDate, fmt) ==
        (if dk in d && d[dk].Str? && tk in d && d[tk].Str? then
           (match fmt.date(ReleaseDateFormatter, d[dk].str + " " + d[tk].str) case Some(t) => Some(Date(t)) case None => None)
         else None)
  {
    assert CodingKey.ReleaseDate.Source() ==
      DateAndTime("kCGImagePropertyIPTCReleaseDate", "kCGImagePropertyIPTCReleaseTime", ReleaseDateFormatter);
    assert CodingKey.ExpirationDate.Source() ==
      DateAndTime("kCGImagePropertyIPTCExpirationDate", "kCGImagePropertyIPTCExpirationTime", ReleaseDateFormatter);
    DateAndTimeInput(x.rawValue, "kCGImagePropertyIPTCReleaseDate", "kCGImagePropertyIPTCReleaseTime", ReleaseDateFormatter, fmt);
    DateAndTimeInput(x.rawValue, "kCGImagePropertyIPTCExpirationDate", "kCGImagePropertyIPTCExpirationTime", ReleaseDateFormatter, fmt);
  }

  /**
   * The discrepancy on one input: a release date "20240102" with release time
   * "103000". As written the time is ignored and "20240102 20240102" is
   * parsed; corrected, "20240102 103000" is.
   */
  lemma ReleaseTimeIgnoredAsWritten(fmt: Formatters)
    ensures var x := Iptc(map["kCGImagePropertyIPTCReleaseDate" := Str("20240102"),
                              "kCGImagePropertyIPTCReleaseTime" := Str("103000")]);
      && FieldAsWritten(x, ReleaseDate, fmt) ==
           (match fmt.date(ReleaseDateFormatter, "20240102 20240102") case Some(t) => Some(Date(t)) case None => None)
      && Field(x, ReleaseDate, fmt) ==
           (match fmt.date(ReleaseDateFormatter, "20240102 103000") case Some(t) => Some(Date(t)) case None => None)
    ensures var x := Iptc(map["kCGImagePropertyIPTCReleaseDate" := Str("20240102")]);
      && Field(x, ReleaseDate, fmt) == None
      && FieldAsWritten(x, ReleaseDate, fmt) ==
           (match fmt.date(ReleaseDateFormatter, "20240102 20240102") case Some(t) => Some(Date(t)) case None => None)
  {
    var x := Iptc(map["kCGImagePropertyIPTCReleaseDate" := Str("20240102"),
                      "kCGImagePropertyIPTCReleaseTime" := Str("103000")]);
    var y := Iptc(map["kCGImagePropertyIPTCReleaseDate" := Str("20240102")]);
    assert "20240102" + " " + "20240102" == "20240102 20240102";
    assert "20240102" + " " + "103000" == "20240102 103000";
    assert "kCGImagePropertyIPTCReleaseTime" !in y.rawValue;
    DateAndTimeInput(x.rawValue, "kCGImagePropertyIPTCReleaseDate", "kCGImagePropertyIPTCReleaseDate", ReleaseDateFormatter, fmt);
    DateAndTimeInput(y.rawValue, "kCGImagePropertyIPTCReleaseDate", "kCGImagePropertyIPTCReleaseDate", ReleaseDateFormatter, fmt);
    ReleaseAndExpirationDateRule(x, fmt);
    ReleaseAndExpirationDateRule(y, fmt);
  }

  /** `byline` is the stored `[String]` unchanged, without any filtering. */
  lemma BylinePassthrough(x: Iptc, fmt: Formatters)
    ensures var d := x.rawValue; var k := "kCGImagePropertyIPTCByline";
      && (Field(x, Byline, fmt).Some? <==> k in d && d[k].Arr? && AllStrs(d[k].items))
      && (Field(x, Byline, fmt).Some? ==> Field(x, Byline, fmt) == Some(WordList(StringArrayAt(d, k).value)))
  {
    assert CodingKey.Byline.Source() == Lookup("kCGImagePropertyIPTCByline", StringArrayKind);
  }
}
