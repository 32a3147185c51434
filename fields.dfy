/**
 * The shapes a field of a metadata view takes. Every computed property of
 * `EXIF`, `IPTC`, `TIFF` and `GPS` is one of a handful of lookups over the
 * view's `rawValue` dictionary; a `Derivation` names the shape and its keys,
 * and `Derive` computes the property. Encoding turns a present property into
 * the value `encodeIfPresent` writes.
 */
module Fields {
  import opened Wrappers
  import opened Foundation
  import opened Json
  import opened PropertyStore
  import ExifContrast
  import ExifCustomRendered
  import ExifExposureMode
  import ExifExposureProgram
  import ExifLightSource
  import ExifMeteringMode
  import ExifSaturation
  import ExifSceneCaptureType
  import ExifSensingMethod
  import ExifSharpness
  import ExifSubjectDistanceRange
  import ExifWhiteBalance
  import IptcNewsCode
  import IptcCreatorContactKey

  /** The declared type of a passthrough property. */
  datatype Kind = DoubleKind | IntKind | StringKind | IntArrayKind | StringArrayKind

  /** The integer-coded EXIF enums a property can be decoded through. */
  datatype CodeTable =
    | ContrastCodes | CustomRenderedCodes | ExposureModeCodes | ExposureProgramCodes
    | LightSourceCodes | MeteringModeCodes | SaturationCodes | SceneCaptureTypeCodes
    | SensingMethodCodes | SharpnessCodes | SubjectDistanceRangeCodes | WhiteBalanceCodes

  /** A decoded EXIF enum value, tagged with its table. */
  datatype CodedValue =
    | Contrast(contrast: ExifContrast.Contrast)
    | CustomRendered(customRendered: ExifCustomRendered.CustomRendered)
    | ExposureMode(exposureMode: ExifExposureMode.ExposureMode)
    | ExposureProgram(exposureProgram: ExifExposureProgram.ExposureProgram)
    | LightSource(lightSource: ExifLightSource.LightSource)
    | MeteringMode(meteringMode: ExifMeteringMode.MeteringMode)
    | Saturation(saturation: ExifSaturation.Saturation)
    | SceneCaptureType(sceneCaptureType: ExifSceneCaptureType.SceneCaptureType)
    | SensingMethod(sensingMethod: ExifSensingMethod.SensingMethod)
    | Sharpness(sharpness: ExifSharpness.Sharpness)
    | SubjectDistanceRange(subjectDistanceRange: ExifSubjectDistanceRange.SubjectDistanceRange)
    | WhiteBalance(whiteBalance: ExifWhiteBalance.WhiteBalance)
  {
    function Table(): CodeTable {
      match this
      case Contrast(_) => ContrastCodes
      case CustomRendered(_) => CustomRenderedCodes
      case ExposureMode(_) => ExposureModeCodes
      case ExposureProgram(_) => ExposureProgramCodes
      case LightSource(_) => LightSourceCodes
      case MeteringMode(_) => MeteringModeCodes
      case Saturation(_) => SaturationCodes
      case SceneCaptureType(_) => SceneCaptureTypeCodes
      case SensingMethod(_) => SensingMethodCodes
      case Sharpness(_) => SharpnessCodes
      case SubjectDistanceRange(_) => SubjectDistanceRangeCodes
      case WhiteBalance(_) => WhiteBalanceCodes
    }

    function RawValue(): int {
      match this
      case Contrast(v) => v.RawValue()
      case CustomRendered(v) => v.RawValue()
      case ExposureMode(v) => v.RawValue()
      case ExposureProgram(v) => v.RawValue()
      case LightSource(v) => v.RawValue()
      case MeteringMode(v) => v.RawValue()
      case Saturation(v) => v.RawValue()
      case SceneCaptureType(v) => v.RawValue()
      case SensingMethod(v) => v.RawValue()
      case Sharpness(v) => v.RawValue()
      case SubjectDistanceRange(v) => v.RawValue()
      case WhiteBalance(v) => v.RawValue()
    }

    /** The enum's `description`, which is what encoding writes. */
    function Label(): (s: string)
      ensures |s| > 0
    {
      match this
      case Contrast(v) => v.Description()
      case CustomRendered(v) => v.Description()
      case ExposureMode(v) => v.Description()
      case ExposureProgram(v) => v.Description()
      case LightSource(v) => v.Description()
      case MeteringMode(v) => v.Description()
      case Saturation(v) => v.Description()
      case SceneCaptureType(v) => v.Description()
      case SensingMethod(v) => v.Description()
      case Sharpness(v) => v.Description()
      case SubjectDistanceRange(v) => v.Description()
      case WhiteBalance(v) => v.Description()
    }
  }

  /** `T(rawValue: code)` for the enum of `table`. */
  function DecodeCode(table: CodeTable, code: int): (r: Option<CodedValue>)
    ensures r.Some? ==> r.value.Table() == table && r.value.RawValue() == code
    ensures r.None? ==> forall v: CodedValue :: v.Table() == table ==> v.RawValue() != code
  {
    match table
    case ContrastCodes =>
      (match ExifContrast.FromRawValue(code) case Some(v) => Some(Contrast(v)) case None => None)
    case CustomRenderedCodes =>
      (match ExifCustomRendered.FromRawValue(code) case Some(v) => Some(CustomRendered(v)) case None => None)
    case ExposureModeCodes =>
      (match ExifExposureMode.FromRawValue(code) case Some(v) => Some(ExposureMode(v)) case None => None)
    case ExposureProgramCodes =>
      (match ExifExposureProgram.FromRawValue(code) case Some(v) => Some(ExposureProgram(v)) case None => None)
    case LightSourceCodes =>
      (match ExifLightSource.FromRawValue(code) case Some(v) => Some(LightSource(v)) case None => None)
    case MeteringModeCodes =>
      (match ExifMeteringMode.FromRawValue(code) case Some(v) => Some(MeteringMode(v)) case None => None)
    case SaturationCodes =>
      (match ExifSaturation.FromRawValue(code) case Some(v) => Some(Saturation(v)) case None => None)
    case SceneCaptureTypeCodes =>
      (match ExifSceneCaptureType.FromRawValue(code) case Some(v) => Some(SceneCaptureType(v)) case None => None)
    case SensingMethodCodes =>
      (match ExifSensingMethod.FromRawValue(code) case Some(v) => Some(SensingMethod(v)) case None => None)
    case SharpnessCodes =>
      (match ExifSharpness.FromRawValue(code) case Some(v) => Some(Sharpness(v)) case None => None)
    case SubjectDistanceRangeCodes =>
      (match ExifSubjectDistanceRange.FromRawValue(code) case Some(v) => Some(SubjectDistanceRange(v)) case None => None)
    case WhiteBalanceCodes =>
      (match ExifWhiteBalance.FromRawValue(code) case Some(v) => Some(WhiteBalance(v)) case None => None)
  }

  /** The value of a present property, by its declared Swift type. */
  datatype Typed =
    | Real(text: string)
    | Integer(n: int)
    | Words(str: string)
    | Integers(ints: seq<int>)
    | WordList(strs: seq<string>)
    | Date(instant: Instant)
    | Code(code: CodedValue)
    | Scenes(scenes: seq<IptcNewsCode.Scene>)
    | Contacts(info: map<IptcCreatorContactKey.CreatorContactKey, string>)

  /** How a property is computed from the view's dictionary. */
  datatype Derivation =
      /** `rawValue[key] as? T` */
    | Lookup(key: string, kind: Kind)
      /** `rawValue[key] as? Int`, then the enum's `init?(rawValue:)` */
    | Decoded(key: string, table: CodeTable)
      /** `rawValue[key] as? [CustomStringConvertible]`, described and joined with "." */
    | DottedVersion(key: string)
      /** `rawValue[key] as? String`, parsed by `formatter` */
    | DateString(key: string, formatter: Formatter)
      /** both strings present, parsed as `"\(date) \(time)"` by `formatter` */
    | DateAndTime(dateKey: string, timeKey: string, formatter: Formatter)
      /** `(rawValue[dictKey] as? NSDictionary)?[key] as? String` */
    | Auxiliary(dictKey: string, key: string)
      /** the auxiliary string if there is one, `?? rawValue[key] as? String` otherwise */
    | AuxiliaryOrPrimary(dictKey: string, auxKey: string, key: string)
      /** a `[String]` that is absent when no entry is non-empty, otherwise the array unchanged */
    | NonBlankStrings(key: string)
      /** a `[String]` decoded through `Scene`, unknown codes dropped, absent when nothing is left */
    | SceneList(key: string)
      /** a dictionary reduced to its known contact keys with String values, absent when empty */
    | ContactInfo(key: string)

  /** `filter { $0.isEmpty == false }` */
  function NonEmpty(xs: seq<string>): (r: seq<string>)
    ensures |r| <= |xs|
    ensures forall s :: s in r <==> s in xs && s != ""
  {
    if xs == [] then []
    else if xs[|xs| - 1] == "" then NonEmpty(xs[..|xs| - 1])
    else NonEmpty(xs[..|xs| - 1]) + [xs[|xs| - 1]]
  }

  /** The filter leaves nothing exactly when every entry is empty (vacuously so for no entries). */
  lemma NonEmptyIsEmpty(xs: seq<string>)
    ensures NonEmpty(xs) == [] <==> forall i :: 0 <= i < |xs| ==> xs[i] == ""
  {
    if NonEmpty(xs) != [] {
      var s := NonEmpty(xs)[0];
      assert s in NonEmpty(xs);
      var i :| 0 <= i < |xs| && xs[i] == s;
      assert xs[i] != "";
    } else {
      forall i | 0 <= i < |xs| ensures xs[i] == "" {
        assert xs[i] in xs;
      }
    }
  }

  /** `compactMap { Scene(rawValue: $0) }` */
  function DecodeScenes(xs: seq<string>): (r: seq<IptcNewsCode.Scene>)
    ensures |r| <= |xs|
    ensures forall v :: v in r <==> v.RawValue() in xs
  {
    if xs == [] then []
    else
      var rest := DecodeScenes(xs[..|xs| - 1]);
      assert xs == xs[..|xs| - 1] + [xs[|xs| - 1]];
      match IptcNewsCode.FromRawValue(xs[|xs| - 1])
      case Some(v) => rest + [v]
      case None => rest
  }

  /** Decoding keeps the input order: it distributes over concatenation. */
  lemma {:induction false} DecodeScenesAppend(xs: seq<string>, ys: seq<string>)
    ensures DecodeScenes(xs + ys) == DecodeScenes(xs) + DecodeScenes(ys)
  {
    if ys == [] {
      assert xs + ys == xs;
    } else {
      var init := ys[..|ys| - 1];
      assert (xs + ys)[..|xs + ys| - 1] == xs + init;
      assert (xs + ys)[|xs + ys| - 1] == ys[|ys| - 1];
      DecodeScenesAppend(xs, init);
    }
  }

  /** The contact entries `creatorContactInfo` keeps: known keys whose value is a String. */
  function ContactInfoOf(m: Store): (info: map<IptcCreatorContactKey.CreatorContactKey, string>)
    ensures forall k :: k in info <==> k.RawValue() in m && m[k.RawValue()].Str?
    ensures forall k :: k in info ==> info[k] == m[k.RawValue()].str
  {
    map k: IptcCreatorContactKey.CreatorContactKey | k.RawValue() in m && m[k.RawValue()].Str?
      :: m[k.RawValue()].str
  }

  /** `(rawValue[dictKey] as? NSDictionary)?[key] as? String` */
  function AuxiliaryString(d: Store, dictKey: string, key: string): Option<string> {
    match DictAt(d, dictKey)
    case None => None
    case Some(aux) => StringAt(aux, key)
  }

  /** The property a derivation computes from the dictionary `d`. */
  function Derive(d: Store, how: Derivation, fmt: Formatters): Option<Typed> {
    match how
    case Lookup(key, kind) =>
      (match kind
       case DoubleKind => (match DoubleAt(d, key) case Some(t) => Some(Real(t)) case None => None)
       case IntKind => (match IntAt(d, key) case Some(n) => Some(Integer(n)) case None => None)
       case StringKind => (match StringAt(d, key) case Some(s) => Some(Words(s)) case None => None)
       case IntArrayKind => (match IntArrayAt(d, key) case Some(xs) => Some(Integers(xs)) case None => None)
       case StringArrayKind => (match StringArrayAt(d, key) case Some(xs) => Some(WordList(xs)) case None => None))
    case Decoded(key, table) =>
      (match IntAt(d, key)
       case None => None
       case Some(n) => (match DecodeCode(table, n) case Some(c) => Some(Code(c)) case None => None))
    case DottedVersion(key) =>
      (match ArrayAt(d, key) case Some(items) => Some(Words(DottedText(items))) case None => None)
    case DateString(key, formatter) =>
      (match StringAt(d, key)
       case None => None
       case Some(s) => (match fmt.date(formatter, s) case Some(t) => Some(Date(t)) case None => None))
    case DateAndTime(dateKey, timeKey, formatter) =>
      (match (StringAt(d, dateKey), StringAt(d, timeKey))
       case (Some(date), Some(time)) =>
         (match fmt.date(formatter, date + " " + time) case Some(t) => Some(Date(t)) case None => None)
       case _ => None)
    case Auxiliary(dictKey, key) =>
      (match AuxiliaryString(d, dictKey, key) case Some(s) => Some(Words(s)) case None => None)
    case AuxiliaryOrPrimary(dictKey, auxKey, key) =>
      (match AuxiliaryString(d, dictKey, auxKey)
       case Some(s) => Some(Words(s))
       case None => (match StringAt(d, key) case Some(s) => Some(Words(s)) case None => None))
    case NonBlankStrings(key) =>
      (match StringArrayAt(d, key)
       case None => None
       case Some(xs) => if NonEmpty(xs) == [] then None else Some(WordList(xs)))
    case SceneList(key) =>
      (match StringArrayAt(d, key)
       case None => None
       case Some(xs) => var scenes := DecodeScenes(xs); if scenes == [] then None else Some(Scenes(scenes)))
    case ContactInfo(key) =>
      (match DictAt(d, key)
       case None => None
       case Some(m) => var info := ContactInfoOf(m); if info == map[] then None else Some(Contacts(info)))
  }

  /**
   * The alternating key, value array Swift's `Dictionary` encodes itself as
   * when its key type is neither `String` nor `Int`, walked here in the
   * declaration order of the keys.
   */
  function ContactPairs(keys: seq<IptcCreatorContactKey.CreatorContactKey>,
                        info: map<IptcCreatorContactKey.CreatorContactKey, string>): (r: seq<Json>)
    ensures |r| % 2 == 0 && |r| <= 2 * |keys|
  {
    if keys == [] then []
    else
      var rest := ContactPairs(keys[1..], info);
      if keys[0] in info then [JString(keys[0].RawValue()), JString(info[keys[0]])] + rest else rest
  }

  /** Every pair of the contact array is a listed key that is present, followed by its value. */
  lemma {:induction false} ContactPairsArePresent(keys: seq<IptcCreatorContactKey.CreatorContactKey>,
                                                  info: map<IptcCreatorContactKey.CreatorContactKey, string>, i: nat)
    requires i % 2 == 0 && i < |ContactPairs(keys, info)|
    ensures i + 1 < |ContactPairs(keys, info)|
    ensures exists k ::
      && k in keys && k in info
      && ContactPairs(keys, info)[i] == JString(k.RawValue())
      && ContactPairs(keys, info)[i + 1] == JString(info[k])
  {
    var r := ContactPairs(keys, info);
    var rest := ContactPairs(keys[1..], info);
    if keys[0] in info {
      if i == 0 {
        assert keys[0] in keys;
      } else {
        ContactPairsArePresent(keys[1..], info, i - 2);
        var k :| k in keys[1..] && k in info && rest[i - 2] == JString(k.RawValue()) && rest[i - 1] == JString(info[k]);
        assert r[i] == rest[i - 2] && r[i + 1] == rest[i - 1];
        assert k in keys;
      }
    } else {
      ContactPairsArePresent(keys[1..], info, i);
      var k :| k in keys[1..] && k in info && rest[i] == JString(k.RawValue()) && rest[i + 1] == JString(info[k]);
      assert k in keys;
    }
  }

  /** Every listed key that is present appears in the contact array, followed by its value. */
  lemma {:induction false} ContactPairsHoldEvery(keys: seq<IptcCreatorContactKey.CreatorContactKey>,
                                                 info: map<IptcCreatorContactKey.CreatorContactKey, string>,
                                                 k: IptcCreatorContactKey.CreatorContactKey)
    requires k in keys && k in info
    ensures exists i ::
      && 0 <= i < |ContactPairs(keys, info)| - 1 && i % 2 == 0
      && ContactPairs(keys, info)[i] == JString(k.RawValue())
      && ContactPairs(keys, info)[i + 1] == JString(info[k])
  {
    var r := ContactPairs(keys, info);
    var rest := ContactPairs(keys[1..], info);
    if keys[0] == k {
      assert r[0] == JString(k.RawValue()) && r[1] == JString(info[k]);
    } else {
      assert k in keys[1..];
      ContactPairsHoldEvery(keys[1..], info, k);
      var i :| 0 <= i < |rest| - 1 && i % 2 == 0 && rest[i] == JString(k.RawValue()) && rest[i + 1] == JString(info[k]);
      if keys[0] in info {
        assert r[i + 2] == rest[i] && r[i + 3] == rest[i + 1];
      }
    }
  }

  /** What `encodeIfPresent` writes for a present property. */
  function ToJson(t: Typed): Json {
    match t
    case Real(text) => JNumber(text)
    case Integer(n) => JInt(n)
    case Words(s) => JString(s)
    case Integers(xs) => JArray(seq(|xs|, i requires 0 <= i < |xs| => JInt(xs[i])))
    case WordList(xs) => JArray(seq(|xs|, i requires 0 <= i < |xs| => JString(xs[i])))
    case Date(instant) => JDate(instant)
    case Code(c) => JString(c.Label())
    case Scenes(scenes) => JArray(seq(|scenes|, i requires 0 <= i < |scenes| => JString(scenes[i].RawValue())))
    case Contacts(info) => JArray(ContactPairs(IptcCreatorContactKey.AllKeys, info))
  }

  // ---- Properties of the derivation shapes ----

  /** From an empty dictionary every derivation is absent. */
  lemma EmptyDerivesNothing(how: Derivation, fmt: Formatters)
    ensures Derive(map[], how, fmt).None?
  {
    match how
    case Lookup(_, _) =>
    case DateString(_, _) =>
    case _ =>
  }

  /** An enum property is absent when the key is missing, holds a non-Int, or holds an unknown code. */
  lemma DecodedAbsent(d: Store, key: string, table: CodeTable, fmt: Formatters)
    ensures Derive(d, Decoded(key, table), fmt).None? <==>
      key !in d || !d[key].Int? || DecodeCode(table, d[key].intValue).None?
    ensures Derive(d, Decoded(key, table), fmt).Some? ==>
      Derive(d, Decoded(key, table), fmt).value == Code(DecodeCode(table, d[key].intValue).value)
  {
  }

  /** Encoding writes an enum property as its label, never as its raw code. */
  lemma DecodedEncodesLabel(d: Store, how: Derivation, fmt: Formatters)
    requires how.Decoded?
    requires Derive(d, how, fmt).Some?
    ensures how.key in d && d[how.key].Int? && DecodeCode(how.table, d[how.key].intValue).Some?
    ensures var c := DecodeCode(how.table, d[how.key].intValue).value;
      && Derive(d, how, fmt).value == Code(c)
      && ToJson(Derive(d, how, fmt).value) == JString(c.Label())
      && c.RawValue() == d[how.key].intValue
  {
  }

  /** The auxiliary string wins; the primary string is the fallback; otherwise absent. */
  lemma AuxiliaryOrPrimaryFallback(d: Store, dictKey: string, auxKey: string, key: string, fmt: Formatters)
    ensures var r := Derive(d, AuxiliaryOrPrimary(dictKey, auxKey, key), fmt);
      && (dictKey in d && d[dictKey].Dict? && auxKey in d[dictKey].entries && d[dictKey].entries[auxKey].Str?
          ==> r == Some(Words(d[dictKey].entries[auxKey].str)))
      && (!(dictKey in d && d[dictKey].Dict? && auxKey in d[dictKey].entries && d[dictKey].entries[auxKey].Str?)
          ==> r == (if key in d && d[key].Str? then Some(Words(d[key].str)) else None))
  {
  }

  /** An auxiliary-only property is absent when the auxiliary dictionary is missing or is not a dictionary. */
  lemma AuxiliaryNeedsDictionary(d: Store, dictKey: string, key: string, fmt: Formatters)
    requires dictKey !in d || !d[dictKey].Dict?
    ensures Derive(d, Auxiliary(dictKey, key), fmt).None?
  {
  }

  /** A two-key date is absent when either string is missing; otherwise it is the parse of "date time". */
  lemma DateAndTimeInput(d: Store, dateKey: string, timeKey: string, formatter: Formatter, fmt: Formatters)
    ensures !(dateKey in d && d[dateKey].Str?) ==> Derive(d, DateAndTime(dateKey, timeKey, formatter), fmt).None?
    ensures !(timeKey in d && d[timeKey].Str?) ==> Derive(d, DateAndTime(dateKey, timeKey, formatter), fmt).None?
    ensures dateKey in d && d[dateKey].Str? && timeKey in d && d[timeKey].Str? ==>
      Derive(d, DateAndTime(dateKey, timeKey, formatter), fmt)
        == (match fmt.date(formatter, d[dateKey].str + " " + d[timeKey].str)
            case Some(t) => Some(Date(t))
            case None => None)
  {
  }

  /** A passthrough property is the stored value exactly when it has the declared type. */
  lemma LookupPassthrough(d: Store, key: string, fmt: Formatters)
    ensures Derive(d, Lookup(key, DoubleKind), fmt) == (if key in d && d[key].Dbl? then Some(Real(d[key].text)) else None)
    ensures Derive(d, Lookup(key, IntKind), fmt) == (if key in d && d[key].Int? then Some(Integer(d[key].intValue)) else None)
    ensures Derive(d, Lookup(key, StringKind), fmt) == (if key in d && d[key].Str? then Some(Words(d[key].str)) else None)
    ensures Derive(d, Lookup(key, IntArrayKind), fmt).Some? <==> key in d && d[key].Arr? && AllInts(d[key].items)
    ensures Derive(d, Lookup(key, StringArrayKind), fmt).Some? <==> key in d && d[key].Arr? && AllStrs(d[key].items)
  {
  }

  /**
   * A keyword-style list is absent when the value is not a `[String]` or no
   * entry is non-empty; otherwise it is the stored array, empty entries included.
   */
  lemma NonBlankStringsRule(d: Store, key: string, fmt: Formatters)
    ensures var r := Derive(d, NonBlankStrings(key), fmt);
      && (r.Some? <==> (key in d && d[key].Arr? && AllStrs(d[key].items)
                        && exists i :: 0 <= i < |d[key].items| && d[key].items[i] != Str("")))
      && (r.Some? ==> r.value.WordList? && |r.value.strs| == |d[key].items|
                      && forall i :: 0 <= i < |r.value.strs| ==> d[key].items[i] == Str(r.value.strs[i]))
  {
    var r := Derive(d, NonBlankStrings(key), fmt);
    var xs := StringArrayAt(d, key);
    if xs.Some? {
      NonEmptyIsEmpty(xs.value);
      if r.Some? {
        var i :| 0 <= i < |xs.value| && xs.value[i] != "";
        assert d[key].items[i] != Str("");
      }
    }
  }

  /** A scene list is present exactly when the value is a `[String]` with at least one known code. */
  lemma SceneListRule(d: Store, key: string, fmt: Formatters)
    ensures var r := Derive(d, SceneList(key), fmt);
      && (r.Some? <==> (key in d && d[key].Arr? && AllStrs(d[key].items)
                        && exists i, v: IptcNewsCode.Scene :: 0 <= i < |d[key].items| && d[key].items[i] == Str(v.RawValue())))
      && (r.Some? ==> r.value == Scenes(DecodeScenes(StringArrayAt(d, key).value)))
  {
    var r := Derive(d, SceneList(key), fmt);
    var xs := StringArrayAt(d, key);
    if xs.Some? {
      var scenes := DecodeScenes(xs.value);
      if scenes != [] {
        assert scenes[0] in scenes;
        var i :| 0 <= i < |xs.value| && xs.value[i] == scenes[0].RawValue();
        assert d[key].items[i] == Str(scenes[0].RawValue());
      }
      if exists i, v: IptcNewsCode.Scene :: 0 <= i < |d[key].items| && d[key].items[i] == Str(v.RawValue()) {
        var i, v: IptcNewsCode.Scene :| 0 <= i < |d[key].items| && d[key].items[i] == Str(v.RawValue());
        assert xs.value[i] == v.RawValue();
        assert v in scenes;
      }
    }
  }

  /** Contact info is present exactly when the value is a dictionary holding some known key with a String value. */
  lemma ContactInfoRule(d: Store, key: string, fmt: Formatters)
    ensures var r := Derive(d, ContactInfo(key), fmt);
      && (r.Some? <==> (key in d && d[key].Dict?
                        && exists k: IptcCreatorContactKey.CreatorContactKey ::
                             k.RawValue() in d[key].entries && d[key].entries[k.RawValue()].Str?))
      && (r.Some? ==> r.value == Contacts(ContactInfoOf(d[key].entries)))
  {
    var r := Derive(d, ContactInfo(key), fmt);
    if key in d && d[key].Dict? {
      var info := ContactInfoOf(d[key].entries);
      if exists k: IptcCreatorContactKey.CreatorContactKey ::
           k.RawValue() in d[key].entries && d[key].entries[k.RawValue()].Str? {
        var k: IptcCreatorContactKey.CreatorContactKey :|
          k.RawValue() in d[key].entries && d[key].entries[k.RawValue()].Str?;
        assert k in info;
      }
    }
  }
}
