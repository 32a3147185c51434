/** The image sensor type of the camera (EXIF SensingMethod tag). */
module ExifSensingMethod {
  import opened Wrappers

  datatype SensingMethod =
    NotDefined | OneChipColorArea | TwoChipColorArea | ThreeChipColorArea | ColorSequentialArea | Trilinear | ColorSequentialLinear
  {
    /** The raw code of the variant. */
    function RawValue(): int {
      match this
        case NotDefined => 1
        case OneChipColorArea => 2
        case TwoChipColorArea => 3
        case ThreeChipColorArea => 4
        case ColorSequentialArea => 5
        case Trilinear => 7
        case ColorSequentialLinear => 8
    }

    /** `description`: the fixed English label of the variant. */
    function Description(): (s: string)
      ensures |s| > 0
    {
      match this
        case NotDefined => "Not defined"
        case OneChipColorArea => "One-chip color area sensor"
        case TwoChipColorArea => "Two-chip color area sensor"
        case ThreeChipColorArea => "Three-chip color area sensor"
        case ColorSequentialArea => "Color sequential area sensor"
        case Trilinear => "Trilinear sensor"
        case ColorSequentialLinear => "Color sequential linear sensor"
    }
  }

  /** `init?(rawValue:)`: the variant whose code this is; absent for every other code. */
  function FromRawValue(code: int): (r: Option<SensingMethod>)
    ensures r.Some? ==> r.value.RawValue() == code
    ensures r.None? ==> forall v: SensingMethod :: v.RawValue() != code
  {
    match code
    case 1 => Some(NotDefined)
    case 2 => Some(OneChipColorArea)
    case 3 => Some(TwoChipColorArea)
    case 4 => Some(ThreeChipColorArea)
    case 5 => Some(ColorSequentialArea)
    case 7 => Some(Trilinear)
    case 8 => Some(ColorSequentialLinear)
    case _ => None
  }

  /** The codes that decode to a variant. */
  lemma KnownCodes(code: int)
    ensures FromRawValue(code).Some? <==> (1 <= code <= 5 || code == 7 || code == 8)
  {
  }

  /** Decoding a variant's own code gives the variant back, so distinct variants have distinct codes. */
  lemma RoundTrip(v: SensingMethod)
    ensures FromRawValue(v.RawValue()) == Some(v)
  {
  }

  /** Different variants carry different labels, so a label names its variant. */
  lemma LabelsDistinct(a: SensingMethod, b: SensingMethod)
    ensures a != b ==> a.Description() != b.Description()
  {
  }

  /** Code 2 is the one-chip sensor; 0 and 6 are gaps. */
  lemma Examples()
    ensures FromRawValue(2) == Some(OneChipColorArea)
    ensures FromRawValue(0).None? && FromRawValue(6).None?
    ensures Trilinear.Description() == "Trilinear sensor"
  {
  }
}
