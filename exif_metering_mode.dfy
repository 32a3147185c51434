/** The metering mode (EXIF MeteringMode tag). */
module ExifMeteringMode {
  import opened Wrappers

  datatype MeteringMode =
    Unknown | Average | CenterWeightedAverage | Spot | MultiSpot | Pattern | Partial | Other
  {
    /** The raw code of the variant. */
    function RawValue(): int {
      match this
        case Unknown => 0
        case Average => 1
        case CenterWeightedAverage => 2
        case Spot => 3
        case MultiSpot => 4
        case Pattern => 5
        case Partial => 6
        case Other => 255
    }

    /** `description`: the fixed English label of the variant. */
    function Description(): (s: string)
      ensures |s| > 0
    {
      match this
        case Unknown => "Unknown"
        case Average => "Average"
        case CenterWeightedAverage => "Center weighted average"
        case Spot => "Spot"
        case MultiSpot => "Multi Spot"
        case Pattern => "Pattern"
        case Partial => "Partial"
        case Other => "Other"
    }
  }

  /** `init?(rawValue:)`: the variant whose code this is; absent for every other code. */
  function FromRawValue(code: int): (r: Option<MeteringMode>)
    ensures r.Some? ==> r.value.RawValue() == code
    ensures r.None? ==> forall v: MeteringMode :: v.RawValue() != code
  {
    match code
    case 0 => Some(Unknown)
    case 1 => Some(Average)
    case 2 => Some(CenterWeightedAverage)
    case 3 => Some(Spot)
    case 4 => Some(MultiSpot)
    case 5 => Some(Pattern)
    case 6 => Some(Partial)
    case 255 => Some(Other)
    case _ => None
  }

  /** The codes that decode to a variant. */
  lemma KnownCodes(code: int)
    ensures FromRawValue(code).Some? <==> (0 <= code <= 6 || code == 255)
  {
  }

  /** Decoding a variant's own code gives the variant back, so distinct variants have distinct codes. */
  lemma RoundTrip(v: MeteringMode)
    ensures FromRawValue(v.RawValue()) == Some(v)
  {
  }

  /** Different variants carry different labels, so a label names its variant. */
  lemma LabelsDistinct(a: MeteringMode, b: MeteringMode)
    ensures a != b ==> a.Description() != b.Description()
  {
  }

  /** Code 5 is the pattern mode; 7 is a gap before the sentinel 255. */
  lemma Examples()
    ensures FromRawValue(5) == Some(Pattern)
    ensures FromRawValue(7).None? && FromRawValue(255) == Some(Other)
    ensures CenterWeightedAverage.Description() == "Center weighted average"
  {
  }
}
