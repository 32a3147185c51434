/** The kind of light source (EXIF LightSource tag, section 4.6.5 of Exif 2.3). */
module ExifLightSource {
  import opened Wrappers

  datatype LightSource =
    Unknown | Daylight | Fluorescent | Tungsten | Flash | FineWeather | CloudyWeather | Shade | DaylightFluorescent | DayWhiteFluorescent | CoolWhiteFluorescent | WhiteFluorescent | StandardLightA | StandardLightB | StandardLightC | D55 | D65 | D75 | D50 | IsoStudioTungsten | Other
  {
    /** The raw code of the variant. */
    function RawValue(): int {
      match this
        case Unknown => 0
        case Daylight => 1
        case Fluorescent => 2
        case Tungsten => 3
        case Flash => 4
        case FineWeather => 9
        case CloudyWeather => 10
        case Shade => 11
        case DaylightFluorescent => 12
        case DayWhiteFluorescent => 13
        case CoolWhiteFluorescent => 14
        case WhiteFluorescent => 15
        case StandardLightA => 17
        case StandardLightB => 18
        case StandardLightC => 19
        case D55 => 20
        case D65 => 21
        case D75 => 22
        case D50 => 23
        case IsoStudioTungsten => 24
        case Other => 255
    }

    /** `description`: the fixed English label of the variant. */
    function Description(): (s: string)
      ensures |s| > 0
    {
      match this
        case Unknown => "Unknown"
        case Daylight => "Daylight"
        case Fluorescent => "Fluorescent"
        case Tungsten => "Tungsten (incandescent light)"
        case Flash => "Flash"
        case FineWeather => "Fine weather"
        case CloudyWeather => "Cloudy weather"
        case Shade => "Shade"
        case DaylightFluorescent => "Daylight fluorescent (D 5700 – 7100K)"
        case DayWhiteFluorescent => "Day white fluorescent (N 4600 – 5400K)"
        case CoolWhiteFluorescent => "Cool white fluorescent (W 3900 – 4500K)"
        case WhiteFluorescent => "White fluorescent (WW 3200 – 3700K)"
        case StandardLightA => "Standard light A"
        case StandardLightB => "Standard light B"
        case StandardLightC => "Standard light C"
        case D55 => "D55"
        case D65 => "D65"
        case D75 => "D70"
        case D50 => "D50"
        case IsoStudioTungsten => "ISO studio tungsten"
        case Other => "Other light source"
    }
  }

  /** `init?(rawValue:)`: the variant whose code this is; absent for every other code. */
  function FromRawValue(code: int): (r: Option<LightSource>)
    ensures r.Some? ==> r.value.RawValue() == code
    ensures r.None? ==> forall v: LightSource :: v.RawValue() != code
  {
    match code
    case 0 => Some(Unknown)
    case 1 => Some(Daylight)
    case 2 => Some(Fluorescent)
    case 3 => Some(Tungsten)
    case 4 => Some(Flash)
    case 9 => Some(FineWeather)
    case 10 => Some(CloudyWeather)
    case 11 => Some(Shade)
    case 12 => Some(DaylightFluorescent)
    case 13 => Some(DayWhiteFluorescent)
    case 14 => Some(CoolWhiteFluorescent)
    case 15 => Some(WhiteFluorescent)
    case 17 => Some(StandardLightA)
    case 18 => Some(StandardLightB)
    case 19 => Some(StandardLightC)
    case 20 => Some(D55)
    case 21 => Some(D65)
    case 22 => Some(D75)
    case 23 => Some(D50)
    case 24 => Some(IsoStudioTungsten)
    case 255 => Some(Other)
    case _ => None
  }

  /** The codes that decode to a variant. */
  lemma KnownCodes(code: int)
    ensures FromRawValue(code).Some? <==> (0 <= code <= 4 || 9 <= code <= 15 || 17 <= code <= 24 || code == 255)
  {
  }

  /** Decoding a variant's own code gives the variant back, so distinct variants have distinct codes. */
  lemma RoundTrip(v: LightSource)
    ensures FromRawValue(v.RawValue()) == Some(v)
  {
  }

  /** Different variants carry different labels, so a label names its variant. */
  lemma LabelsDistinct(a: LightSource, b: LightSource)
    ensures a != b ==> a.Description() != b.Description()
  {
    if a.RawValue() <= 10 {
      LowLabelsDistinct(a, b);
    } else if a.RawValue() <= 18 {
      MiddleLabelsDistinct(a, b);
    } else {
      HighLabelsDistinct(a, b);
    }
  }

  /** The labels of the variants coded 0 to 10 differ from every other variant's. */
  lemma LowLabelsDistinct(a: LightSource, b: LightSource)
    requires a.RawValue() <= 10
    ensures a != b ==> a.Description() != b.Description()
  {
  }

  /** The labels of the variants coded 11 to 18 differ from every other variant's. */
  lemma MiddleLabelsDistinct(a: LightSource, b: LightSource)
    requires 11 <= a.RawValue() <= 18
    ensures a != b ==> a.Description() != b.Description()
  {
  }

  /** The labels of the variants coded 19 and above differ from every other variant's. */
  lemma HighLabelsDistinct(a: LightSource, b: LightSource)
    requires 19 <= a.RawValue()
    ensures a != b ==> a.Description() != b.Description()
  {
  }

  /** Labels the source spells out: code 22 reads "D70", and the sentinel 255 is "Other light source". */
  lemma Examples()
    ensures FromRawValue(22) == Some(D75) && D75.Description() == "D70"
    ensures FromRawValue(255) == Some(Other) && Other.Description() == "Other light source"
    ensures Tungsten.Description() == "Tungsten (incandescent light)"
    ensures FromRawValue(16).None? && FromRawValue(5).None? && FromRawValue(254).None?
  {
  }
}
