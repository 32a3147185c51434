/**
 * `EXIF`: the view over the EXIF sub-dictionary (Exif 2.3, CIPA DC-008).
 * Each computed property is a `Derivation` of the dictionary, named by the
 * `CodingKey` it is encoded under.
 */
module Exif {
  import opened Wrappers
  import opened Foundation
  import opened Json
  import opened PropertyStore
  import opened Fields
  import ExifContrast
  import ExifWhiteBalance
  import Text

  /** `EXIF(rawValue:)`: the dictionary, stored unchanged. */
  datatype Exif = Exif(rawValue: Store)

  /** The key of the auxiliary sub-dictionary (`kCGImagePropertyExifAuxDictionary`). */
  const AuxDictionary: string := "kCGImagePropertyExifAuxDictionary"

  /** `dateFormatter`: pattern "yyyy:MM:dd HH:mm:ss", read in the host time zone. */
  const DateFormatter: Formatter := Formatter("yyyy:MM:dd HH:mm:ss", HostTimeZone)

  /**
   * A case of `CodingKeys`. Each case is the name of a computed property, and
   * `encode(to:)` writes that property under it.
   */
  datatype CodingKey =
    | ApertureValue
    | BodySerialNumber
    | BrightnessValue
    | CameraOwnerName
    | CfaPattern
    | ColorSpace
    | ComponentsConfiguration
    | CompositeImage
    | CompressedBitsPerPixel
    | Contrast
    | CustomRendered
    | DateTimeDigitized
    | DateTimeOriginal
    | DeviceSettingDescription
    | DigitalZoomRatio
    | ExposureBiasValue
    | ExposureIndex
    | ExposureMode
    | ExposureProgram
    | ExposureTime
    | FileSource
    | FlashEnergy
    | Flash
    | FlashPixVersion
    | FNumber
    | FocalLength
    | FocalLenIn35mmFilm
    | FocalPlaneResolutionUnit
    | FocalPlaneXResolution
    | FocalPlaneYResolution
    | GainControl
    | Gamma
    | ImageUniqueID
    | IsoSpeed
    | IsoSpeedLatitudeYYY
    | IsoSpeedLatitudeZZZ
    | IsoSpeedRatings
    | LensMake
    | LensSpecification
    | LightSource
    | MakerNote
    | MaxApertureValue
    | MeteringMode
    | Oecf
    | OffsetTime
    | OffsetTimeDigitized
    | OffsetTimeOriginal
    | PixelXDimension
    | PixelYDimension
    | RecommendedExposureIndex
    | RelatedSoundFile
    | Saturation
    | SceneCaptureType
    | SceneType
    | SensingMethod
    | SensitivityType
    | Sharpness
    | ShutterSpeedValue
    | SourceExposureTimesOfCompositeImage
    | SourceImageNumberOfCompositeImage
    | SpatialFrequencyResponse
    | SpectralSensitivity
    | StandardOutputSensitivity
    | SubjectArea
    | SubjectDistance
    | SubjectDistanceRange
    | SubjectLocation
    | SubsecTime
    | SubsecTimeDigitized
    | SubsecTimeOriginal
    | UserComment
    | Version
    | WhiteBalance
    | Firmware
    | FlashCompensation
    | ImageNumber
    | LensID
    | LensModel
    | LensSerialNumber
    | LensInfo
    | OwnerName
    | SerialNumber
  {
    /** The key's text in the encoded output: the name of its property. */
    function StringValue(): string {
      match this
      case ApertureValue => "apertureValue"
      case BodySerialNumber => "bodySerialNumber"
      case BrightnessValue => "brightnessValue"
      case CameraOwnerName => "cameraOwnerName"
      case CfaPattern => "cfaPattern"
      case ColorSpace => "colorSpace"
      case ComponentsConfiguration => "componentsConfiguration"
      case CompositeImage => "compositeImage"
      case CompressedBitsPerPixel => "compressedBitsPerPixel"
      case Contrast => "contrast"
      case CustomRendered => "customRendered"
      case DateTimeDigitized => "dateTimeDigitized"
      case DateTimeOriginal => "dateTimeOriginal"
      case DeviceSettingDescription => "deviceSettingDescription"
      case DigitalZoomRatio => "digitalZoomRatio"
      case ExposureBiasValue => "exposureBiasValue"
      case ExposureIndex => "exposureIndex"
      case ExposureMode => "exposureMode"
      case ExposureProgram => "exposureProgram"
      case ExposureTime => "exposureTime"
      case FileSource => "fileSource"
      case FlashEnergy => "flashEnergy"
      case Flash => "flash"
      case FlashPixVersion => "flashPixVersion"
      case FNumber => "fNumber"
      case FocalLength => "focalLength"
      case FocalLenIn35mmFilm => "focalLenIn35mmFilm"
      case FocalPlaneResolutionUnit => "focalPlaneResolutionUnit"
      case FocalPlaneXResolution => "focalPlaneXResolution"
      case FocalPlaneYResolution => "focalPlaneYResolution"
      case GainControl => "gainControl"
      case Gamma => "gamma"
      case ImageUniqueID => "imageUniqueID"
      case IsoSpeed => "isoSpeed"
      case IsoSpeedLatitudeYYY => "isoSpeedLatitudeYYY"
      case IsoSpeedLatitudeZZZ => "isoSpeedLatitudeZZZ"
      case IsoSpeedRatings => "isoSpeedRatings"
      case LensMake => "lensMake"
      case LensSpecification => "lensSpecification"
      case LightSource => "lightSource"
      case MakerNote => "makerNote"
      case MaxApertureValue => "maxApertureValue"
      case MeteringMode => "meteringMode"
      case Oecf => "oecf"
      case OffsetTime => "offsetTime"
      case OffsetTimeDigitized => "offsetTimeDigitized"
      case OffsetTimeOriginal => "offsetTimeOriginal"
      case PixelXDimension => "pixelXDimension"
      case PixelYDimension => "pixelYDimension"
      case RecommendedExposureIndex => "recommendedExposureIndex"
      case RelatedSoundFile => "relatedSoundFile"
      case Saturation => "saturation"
      case SceneCaptureType => "sceneCaptureType"
      case SceneType => "sceneType"
      case SensingMethod => "sensingMethod"
      case SensitivityType => "sensitivityType"
      case Sharpness => "sharpness"
      case ShutterSpeedValue => "shutterSpeedValue"
      case SourceExposureTimesOfCompositeImage => "sourceExposureTimesOfCompositeImage"
      case SourceImageNumberOfCompositeImage => "sourceImageNumberOfCompositeImage"
      case SpatialFrequencyResponse => "spatialFrequencyResponse"
      case SpectralSensitivity => "spectralSensitivity"
      case StandardOutputSensitivity => "standardOutputSensitivity"
      case SubjectArea => "subjectArea"
      case SubjectDistance => "subjectDistance"
      case SubjectDistanceRange => "subjectDistanceRange"
      case SubjectLocation => "subjectLocation"
      case SubsecTime => "subsecTime"
      case SubsecTimeDigitized => "subsecTimeDigitized"
      case SubsecTimeOriginal => "subsecTimeOriginal"
      case UserComment => "userComment"
      case Version => "version"
      case WhiteBalance => "whiteBalance"
      case Firmware => "firmware"
      case FlashCompensation => "flashCompensation"
      case ImageNumber => "imageNumber"
      case LensID => "lensID"
      case LensModel => "lensModel"
      case LensSerialNumber => "lensSerialNumber"
      case LensInfo => "lensInfo"
      case OwnerName => "ownerName"
      case SerialNumber => "serialNumber"
    }

    /** How the property of the same name is computed from the dictionary. */
    function Source(): Derivation {
      match this
      case ApertureValue => Lookup("kCGImagePropertyExifApertureValue", DoubleKind)
      case BodySerialNumber => Lookup("kCGImagePropertyExifBodySerialNumber", StringKind)
      case BrightnessValue => Lookup("kCGImagePropertyExifBrightnessValue", DoubleKind)
      case CameraOwnerName => Lookup("kCGImagePropertyExifCameraOwnerName", StringKind)
      case CfaPattern => Lookup("kCGImagePropertyExifCFAPattern", IntKind)
      case ColorSpace => Lookup("kCGImagePropertyExifColorSpace", IntKind)
      case ComponentsConfiguration => Lookup("kCGImagePropertyExifComponentsConfiguration", IntArrayKind)
      case CompositeImage => Lookup("kCGImagePropertyExifCompositeImage", IntKind)
      case CompressedBitsPerPixel => Lookup("kCGImagePropertyExifCompressedBitsPerPixel", DoubleKind)
      case Contrast => Decoded("kCGImagePropertyExifContrast", ContrastCodes)
      case CustomRendered => Decoded("kCGImagePropertyExifCustomRendered", CustomRenderedCodes)
      case DateTimeDigitized => DateString("kCGImagePropertyExifDateTimeDigitized", DateFormatter)
      case DateTimeOriginal => DateString("kCGImagePropertyExifDateTimeOriginal", DateFormatter)
      case DeviceSettingDescription => Lookup("kCGImagePropertyExifDeviceSettingDescription", StringKind)
      case DigitalZoomRatio => Lookup("kCGImagePropertyExifDigitalZoomRatio", DoubleKind)
      case ExposureBiasValue => Lookup("kCGImagePropertyExifExposureBiasValue", DoubleKind)
      case ExposureIndex => Lookup("kCGImagePropertyExifExposureIndex", DoubleKind)
      case ExposureMode => Decoded("kCGImagePropertyExifExposureMode", ExposureModeCodes)
      case ExposureProgram => Decoded("kCGImagePropertyExifExposureProgram", ExposureProgramCodes)
      case ExposureTime => Lookup("kCGImagePropertyExifExposureTime", DoubleKind)
      case FileSource => Lookup("kCGImagePropertyExifFileSource", IntKind)
      case FlashEnergy => Lookup("kCGImagePropertyExifFlashEnergy", DoubleKind)
      case Flash => Lookup("kCGImagePropertyExifFlash", IntKind)
      case FlashPixVersion => DottedVersion("kCGImagePropertyExifFlashPixVersion")
      case FNumber => Lookup("kCGImagePropertyExifFNumber", DoubleKind)
      case FocalLength => Lookup("kCGImagePropertyExifFocalLength", DoubleKind)
      case FocalLenIn35mmFilm => Lookup("kCGImagePropertyExifFocalLenIn35mmFilm", IntKind)
      case FocalPlaneResolutionUnit => Lookup("kCGImagePropertyExifFocalPlaneResolutionUnit", IntKind)
      case FocalPlaneXResolution => Lookup("kCGImagePropertyExifFocalPlaneXResolution", DoubleKind)
      case FocalPlaneYResolution => Lookup("kCGImagePropertyExifFocalPlaneYResolution", DoubleKind)
      case GainControl => Lookup("kCGImagePropertyExifGainControl", IntKind)
      case Gamma => Lookup("kCGImagePropertyExifGamma", DoubleKind)
      case ImageUniqueID => Lookup("kCGImagePropertyExifImageUniqueID", StringKind)
      case IsoSpeed => Lookup("kCGImagePropertyExifISOSpeed", IntKind)
      case IsoSpeedLatitudeYYY => Lookup("kCGImagePropertyExifISOSpeedLatitudeyyy", IntKind)
      case IsoSpeedLatitudeZZZ => Lookup("kCGImagePropertyExifISOSpeedLatitudezzz", IntKind)
      case IsoSpeedRatings => Lookup("kCGImagePropertyExifISOSpeedRatings", IntArrayKind)
      case LensMake => Lookup("kCGImagePropertyExifLensMake", StringKind)
      case LensSpecification => Lookup("kCGImagePropertyExifLensSpecification", StringKind)
      case LightSource => Decoded("kCGImagePropertyExifLightSource", LightSourceCodes)
      case MakerNote => Lookup("kCGImagePropertyExifMakerNote", StringKind)
      case MaxApertureValue => Lookup("kCGImagePropertyExifMaxApertureValue", DoubleKind)
      case MeteringMode => Decoded("kCGImagePropertyExifMeteringMode", MeteringModeCodes)
      case Oecf => Lookup("kCGImagePropertyExifOECF", StringKind)
      case OffsetTime => Lookup("kCGImagePropertyExifOffsetTime", StringKind)
      case OffsetTimeDigitized => Lookup("kCGImagePropertyExifOffsetTimeDigitized", StringKind)
      case OffsetTimeOriginal => Lookup("kCGImagePropertyExifOffsetTimeOriginal", StringKind)
      case PixelXDimension => Lookup("kCGImagePropertyExifPixelXDimension", IntKind)
      case PixelYDimension => Lookup("kCGImagePropertyExifPixelYDimension", IntKind)
      case RecommendedExposureIndex => Lookup("kCGImagePropertyExifRecommendedExposureIndex", IntKind)
      case RelatedSoundFile => Lookup("kCGImagePropertyExifRelatedSoundFile", StringKind)
      case Saturation => Decoded("kCGImagePropertyExifSaturation", SaturationCodes)
      case SceneCaptureType => Decoded("kCGImagePropertyExifSceneCaptureType", SceneCaptureTypeCodes)
      case SceneType => Lookup("kCGImagePropertyExifSceneType", IntKind)
      case SensingMethod => Decoded("kCGImagePropertyExifSensingMethod", SensingMethodCodes)
      case SensitivityType => Lookup("kCGImagePropertyExifSensitivityType", DoubleKind)
      case Sharpness => Decoded("kCGImagePropertyExifSharpness", SharpnessCodes)
      case ShutterSpeedValue => Lookup("kCGImagePropertyExifShutterSpeedValue", DoubleKind)
      case SourceExposureTimesOfCompositeImage => Lookup("kCGImagePropertyExifSourceExposureTimesOfCompositeImage", StringKind)
      case SourceImageNumberOfCompositeImage => Lookup("kCGImagePropertyExifSourceImageNumberOfCompositeImage", IntKind)
      case SpatialFrequencyResponse => Lookup("kCGImagePropertyExifSpatialFrequencyResponse", StringKind)
      case SpectralSensitivity => Lookup("kCGImagePropertyExifSpectralSensitivity", StringKind)
      case StandardOutputSensitivity => Lookup("kCGImagePropertyExifStandardOutputSensitivity", DoubleKind)
      case SubjectArea => Lookup("kCGImagePropertyExifSubjectArea", IntArrayKind)
      case SubjectDistance => Lookup("kCGImagePropertyExifSubjectDistance", DoubleKind)
      case SubjectDistanceRange => Decoded("kCGImagePropertyExifSubjectDistRange", SubjectDistanceRangeCodes)
      case SubjectLocation => Lookup("kCGImagePropertyExifSubjectLocation", IntKind)
      case SubsecTime => Lookup("kCGImagePropertyExifSubsecTime", StringKind)
      case SubsecTimeDigitized => Lookup("kCGImagePropertyExifSubsecTimeDigitized", StringKind)
      case SubsecTimeOriginal => Lookup("kCGImagePropertyExifSubsecTimeOriginal", StringKind)
      case UserComment => Lookup("kCGImagePropertyExifUserComment", StringKind)
      case Version => DottedVersion("kCGImagePropertyExifVersion")
      case WhiteBalance => Decoded("kCGImagePropertyExifWhiteBalance", WhiteBalanceCodes)
      case Firmware => Auxiliary(AuxDictionary, "kCGImagePropertyExifAuxFirmware")
      case FlashCompensation => Auxiliary(AuxDictionary, "kCGImagePropertyExifAuxFlashCompensation")
      case ImageNumber => Auxiliary(AuxDictionary, "kCGImagePropertyExifAuxImageNumber")
      case LensID => Auxiliary(AuxDictionary, "kCGImagePropertyExifAuxLensID")
      case LensModel => AuxiliaryOrPrimary(AuxDictionary, "kCGImagePropertyExifAuxLensModel", "kCGImagePropertyExifLensModel")
      case LensSerialNumber => AuxiliaryOrPrimary(AuxDictionary, "kCGImagePropertyExifAuxLensSerialNumber", "kCGImagePropertyExifLensSerialNumber")
      case LensInfo => Auxiliary(AuxDictionary, "kCGImagePropertyExifAuxLensInfo")
      case OwnerName => Auxiliary(AuxDictionary, "kCGImagePropertyExifAuxOwnerName")
      case SerialNumber => Auxiliary(AuxDictionary, "kCGImagePropertyExifAuxSerialNumber")
    }
  }

  /** The property named by `k`. */
  function Field(x: Exif, k: CodingKey, fmt: Formatters): Option<Typed> {
    Derive(x.rawValue, k.Source(), fmt)
  }

  /** `auxiliaryProperties`: the auxiliary dictionary, when the entry is one. */
  function AuxiliaryProperties(x: Exif): (r: Option<Store>)
    ensures r.Some? <==> AuxDictionary in x.rawValue && x.rawValue[AuxDictionary].Dict?
  {
    DictAt(x.rawValue, AuxDictionary)
  }

  /**
   * `encode(to:)`: one `encodeIfPresent` per property, under the property's
   * own name; an enum property is written as its `description`.
   */
  function Encode(x: Exif, fmt: Formatters): (c: map<CodingKey, Json>)
    ensures forall k :: k in c <==> Field(x, k, fmt).Some?
    ensures forall k :: k in c ==> c[k] == ToJson(Field(x, k, fmt).value)
  {
    map k: CodingKey | Field(x, k, fmt).Some? :: ToJson(Field(x, k, fmt).value)
  }

  /**
   * `contrast` is absent when its key is missing, holds a non-Int, or holds
   * a code outside 0...2; otherwise it is the variant of that code.
   */
  lemma ContrastRule(x: Exif, fmt: Formatters)
    ensures var key := "kCGImagePropertyExifContrast";
      Field(x, CodingKey.Contrast, fmt).None? <==>
        key !in x.rawValue || !x.rawValue[key].Int? || !(0 <= x.rawValue[key].intValue <= 2)
    ensures var key := "kCGImagePropertyExifContrast";
      Field(x, CodingKey.Contrast, fmt).Some? ==>
        && key in x.rawValue && x.rawValue[key].Int?
        && Field(x, CodingKey.Contrast, fmt).value.Code?
        && Field(x, CodingKey.Contrast, fmt).value.code.Contrast?
        && Field(x, CodingKey.Contrast, fmt).value.code.contrast.RawValue() == x.rawValue[key].intValue
  {
    var key := "kCGImagePropertyExifContrast";
    assert CodingKey.Contrast.Source() == Decoded(key, ContrastCodes);
    assert Field(x, CodingKey.Contrast, fmt) == Derive(x.rawValue, Decoded(key, ContrastCodes), fmt);
    DecodedAbsent(x.rawValue, key, ContrastCodes, fmt);
    if key in x.rawValue && x.rawValue[key].Int? {
      var n := x.rawValue[key].intValue;
      ExifContrast.KnownCodes(n);
      var c := DecodeCode(ContrastCodes, n);
      if c.Some? {
        assert c.value.Table() == ContrastCodes && c.value.RawValue() == n;
        assert c.value.Contrast?;
      }
    }
  }

  /**
   * `whiteBalance` is absent when its key is missing, holds a non-Int, or
   * holds a code other than 0 and 1; otherwise it is the variant of that code.
   */
  lemma WhiteBalanceRule(x: Exif, fmt: Formatters)
    ensures var key := "kCGImagePropertyExifWhiteBalance";
      Field(x, CodingKey.WhiteBalance, fmt).None? <==>
        key !in x.rawValue || !x.rawValue[key].Int? || !(0 <= x.rawValue[key].intValue <= 1)
    ensures var key := "kCGImagePropertyExifWhiteBalance";
      Field(x, CodingKey.WhiteBalance, fmt).Some? ==>
        && key in x.rawValue && x.rawValue[key].Int?
        && Field(x, CodingKey.WhiteBalance, fmt).value.Code?
        && Field(x, CodingKey.WhiteBalance, fmt).value.code.WhiteBalance?
        && Field(x, CodingKey.WhiteBalance, fmt).value.code.whiteBalance.RawValue() == x.rawValue[key].intValue
  {
    var key := "kCGImagePropertyExifWhiteBalance";
    assert CodingKey.WhiteBalance.Source() == Decoded(key, WhiteBalanceCodes);
    assert Field(x, CodingKey.WhiteBalance, fmt) == Derive(x.rawValue, Decoded(key, WhiteBalanceCodes), fmt);
    DecodedAbsent(x.rawValue, key, WhiteBalanceCodes, fmt);
    if key in x.rawValue && x.rawValue[key].Int? {
      var n := x.rawValue[key].intValue;
      ExifWhiteBalance.KnownCodes(n);
      var c := DecodeCode(WhiteBalanceCodes, n);
      if c.Some? {
        assert c.value.Table() == WhiteBalanceCodes && c.value.RawValue() == n;
        assert c.value.WhiteBalance?;
      }
    }
  }

  /** Every enum property is encoded as its label, not as its raw code. */
  lemma EncodesEnumAsLabel(x: Exif, fmt: Formatters, k: CodingKey)
    requires k.Source().Decoded?
    requires k in Encode(x, fmt)
    ensures Field(x, k, fmt).Some? && Field(x, k, fmt).value.Code?
    ensures Encode(x, fmt)[k] == JString(Field(x, k, fmt).value.code.Label())
  {
    DecodedEncodesLabel(x.rawValue, k.Source(), fmt);
  }

  /** `version` joins the array's elements with "."; [2, 3, 2] reads "2.3.2". */
  lemma VersionExample(x: Exif, fmt: Formatters)
    requires "kCGImagePropertyExifVersion" in x.rawValue
    requires x.rawValue["kCGImagePropertyExifVersion"] == Arr([Int(2), Int(3), Int(2)])
    ensures Field(x, Version, fmt) == Some(Words("2.3.2"))
  {
    var v := [Int(2), Int(3), Int(2)];
    assert CodingKey.Version.Source() == DottedVersion("kCGImagePropertyExifVersion");
    assert Field(x, Version, fmt) == Some(Words(DottedText(v)));
    DottedTextExamples();
  }

  /** `flashPixVersion` is written the same way; [1, 0] reads "1.0". */
  lemma FlashPixVersionExample(x: Exif, fmt: Formatters)
    requires "kCGImagePropertyExifFlashPixVersion" in x.rawValue
    requires x.rawValue["kCGImagePropertyExifFlashPixVersion"] == Arr([Int(1), Int(0)])
    ensures Field(x, FlashPixVersion, fmt) == Some(Words("1.0"))
  {
    var f := [Int(1), Int(0)];
    assert CodingKey.FlashPixVersion.Source() == DottedVersion("kCGImagePropertyExifFlashPixVersion");
    assert Field(x, FlashPixVersion, fmt) == Some(Words(DottedText(f)));
    DottedTextExamples();
  }

  /** A version made of integers can be read back from its text: the components are recoverable. */
  lemma VersionRecoversComponents(x: Exif, fmt: Formatters, xs: seq<int>)
    requires |xs| > 0
    requires "kCGImagePropertyExifVersion" in x.rawValue
    requires x.rawValue["kCGImagePropertyExifVersion"] == Arr(seq(|xs|, i requires 0 <= i < |xs| => Int(xs[i])))
    ensures Field(x, Version, fmt).Some? && Field(x, Version, fmt).value.Words?
    ensures var parts := Text.Split(Field(x, Version, fmt).value.str, '.');
      |parts| == |xs| && forall i :: 0 <= i < |xs| ==> Text.ParseDecimal(parts[i]) == xs[i]
  {
    var items := seq(|xs|, i requires 0 <= i < |xs| => Int(xs[i]));
    assert CodingKey.Version.Source() == DottedVersion("kCGImagePropertyExifVersion");
    assert ArrayAt(x.rawValue, "kCGImagePropertyExifVersion") == Some(items);
    assert Field(x, Version, fmt) == Some(Words(DottedText(items)));
    DottedTextOfInts(xs);
  }

  /**
   * `lensModel` is the auxiliary dictionary's string when there is one, the
   * primary `LensModel` string otherwise, and absent when neither is a string.
   */
  lemma LensModelFallback(x: Exif, fmt: Formatters)
    ensures var aux := AuxiliaryString(x.rawValue, AuxDictionary, "kCGImagePropertyExifAuxLensModel");
      var primary := StringAt(x.rawValue, "kCGImagePropertyExifLensModel");
      && (aux.Some? ==> Field(x, LensModel, fmt) == Some(Words(aux.value)))
      && (aux.None? && primary.Some? ==> Field(x, LensModel, fmt) == Some(Words(primary.value)))
      && (Field(x, LensModel, fmt).None? <==> aux.None? && primary.None?)
  {
    assert CodingKey.LensModel.Source() ==
      AuxiliaryOrPrimary(AuxDictionary, "kCGImagePropertyExifAuxLensModel", "kCGImagePropertyExifLensModel");
  }

  /** `lensSerialNumber` falls back from the auxiliary dictionary to the primary one in the same way. */
  lemma LensSerialNumberFallback(x: Exif, fmt: Formatters)
    ensures var aux := AuxiliaryString(x.rawValue, AuxDictionary, "kCGImagePropertyExifAuxLensSerialNumber");
      var primary := StringAt(x.rawValue, "kCGImagePropertyExifLensSerialNumber");
      && (aux.Some? ==> Field(x, LensSerialNumber, fmt) == Some(Words(aux.value)))
      && (aux.None? && primary.Some? ==> Field(x, LensSerialNumber, fmt) == Some(Words(primary.value)))
      && (Field(x, LensSerialNumber, fmt).None? <==> aux.None? && primary.None?)
  {
    assert CodingKey.LensSerialNumber.Source() ==
      AuxiliaryOrPrimary(AuxDictionary, "kCGImagePropertyExifAuxLensSerialNumber", "kCGImagePropertyExifLensSerialNumber");
  }

  /**
   * The auxiliary-only properties (`firmware`, `flashCompensation`,
   * `imageNumber`, `lensID`, `lensInfo`, `ownerName`, `serialNumber`) are
   * absent when the auxiliary entry is missing or is not a dictionary.
   */
  lemma AuxiliaryOnlyAbsent(x: Exif, fmt: Formatters, k: CodingKey)
    requires AuxiliaryProperties(x).None?
    requires k in {Firmware, FlashCompensation, ImageNumber, LensID, LensInfo, OwnerName, SerialNumber}
    ensures Field(x, k, fmt).None?
  {
    var key := match k
      case Firmware => "kCGImagePropertyExifAuxFirmware"
      case FlashCompensation => "kCGImagePropertyExifAuxFlashCompensation"
      case ImageNumber => "kCGImagePropertyExifAuxImageNumber"
      case LensID => "kCGImagePropertyExifAuxLensID"
      case LensInfo => "kCGImagePropertyExifAuxLensInfo"
      case OwnerName => "kCGImagePropertyExifAuxOwnerName"
      case _ => "kCGImagePropertyExifAuxSerialNumber";
    assert k.Source() == Auxiliary(AuxDictionary, key);
    AuxiliaryNeedsDictionary(x.rawValue, AuxDictionary, key, fmt);
  }

  /** A passthrough property is the stored value exactly when it has the declared type. */
  lemma PassthroughRule(x: Exif, fmt: Formatters)
    ensures var d := x.rawValue; var k := "kCGImagePropertyExifApertureValue";
      Field(x, ApertureValue, fmt) == (if k in d && d[k].Dbl? then Some(Real(d[k].text)) else None)
    ensures var d := x.rawValue; var k := "kCGImagePropertyExifColorSpace";
      Field(x, ColorSpace, fmt) == (if k in d && d[k].Int? then Some(Integer(d[k].intValue)) else None)
    ensures var d := x.rawValue; var k := "kCGImagePropertyExifBodySerialNumber";
      Field(x, BodySerialNumber, fmt) == (if k in d && d[k].Str? then Some(Words(d[k].str)) else None)
    ensures var d := x.rawValue; var k := "kCGImagePropertyExifISOSpeedRatings";
      Field(x, IsoSpeedRatings, fmt).Some? <==> k in d && d[k].Arr? && AllInts(d[k].items)
  {
    assert CodingKey.ApertureValue.Source() == Lookup("kCGImagePropertyExifApertureValue", DoubleKind);
    assert CodingKey.ColorSpace.Source() == Lookup("kCGImagePropertyExifColorSpace", IntKind);
    assert CodingKey.BodySerialNumber.Source() == Lookup("kCGImagePropertyExifBodySerialNumber", StringKind);
    assert CodingKey.IsoSpeedRatings.Source() == Lookup("kCGImagePropertyExifISOSpeedRatings", IntArrayKind);
    LookupPassthrough(x.rawValue, "kCGImagePropertyExifApertureValue", fmt);
    LookupPassthrough(x.rawValue, "kCGImagePropertyExifColorSpace", fmt);
    LookupPassthrough(x.rawValue, "kCGImagePropertyExifBodySerialNumber", fmt);
    LookupPassthrough(x.rawValue, "kCGImagePropertyExifISOSpeedRatings", fmt);
  }

  /** The two dates are absent without their string; otherwise they are its parse with `DateFormatter`. */
  lemma DatesNeedString(x: Exif, fmt: Formatters)
    ensures var d := x.rawValue; var k := "kCGImagePropertyExifDateTimeOriginal";
      Field(x, DateTimeOriginal, fmt) ==
        (if k in d && d[k].Str? && fmt.date(DateFormatter, d[k].str).Some?
         then Some(Date(fmt.date(DateFormatter, d[k].str).value)) else None)
    ensures var d := x.rawValue; var k := "kCGImagePropertyExifDateTimeDigitized";
      Field(x, DateTimeDigitized, fmt) ==
        (if k in d && d[k].Str? && fmt.date(DateFormatter, d[k].str).Some?
         then Some(Date(fmt.date(DateFormatter, d[k].str).value)) else None)
  {
    assert CodingKey.DateTimeOriginal.Source() == DateString("kCGImagePropertyExifDateTimeOriginal", DateFormatter);
    assert CodingKey.DateTimeDigitized.Source() == DateString("kCGImagePropertyExifDateTimeDigitized", DateFormatter);
  }
}
