/** The program the camera used to set exposure (EXIF ExposureProgram tag). */
module ExifExposureProgram {
  import opened Wrappers

  datatype ExposureProgram =
    NotDefined | Manual | NormalProgram | AperturePriority | ShutterPriority | CreativeProgram | ActionProgram | PortraitMode | LandscapeMode | Other
  {
    /** The raw code of the variant. */
    function RawValue(): int {
      match this
        case NotDefined => 0
        case Manual => 1
        case NormalProgram => 2
        case AperturePriority => 3
        case ShutterPriority => 4
        case CreativeProgram => 5
        case ActionProgram => 6
        case PortraitMode => 7
        case LandscapeMode => 8
        case Other => 9
    }

    /** `description`: the fixed English label of the variant. */
    function Description(): (s: string)
      ensures |s| > 0
    {
      match this
        case NotDefined => "Not defined"
        case Manual => "Manual"
        case NormalProgram => "Normal program"
        case AperturePriority => "Aperture priority"
        case ShutterPriority => "Shutter priority"
        case CreativeProgram => "Creative program"
        case ActionProgram => "Action program"
        case PortraitMode => "Portrait mode"
        case LandscapeMode => "Landscape mode"
        case Other => "Other"
    }
  }

  /** `init?(rawValue:)`: the variant whose code this is; absent for every other code. */
  function FromRawValue(code: int): (r: Option<ExposureProgram>)
    ensures r.Some? ==> r.value.RawValue() == code
    ensures r.None? ==> forall v: ExposureProgram :: v.RawValue() != code
  {
    match code
    case 0 => Some(NotDefined)
    case 1 => Some(Manual)
    case 2 => Some(NormalProgram)
    case 3 => Some(AperturePriority)
    case 4 => Some(ShutterPriority)
    case 5 => Some(CreativeProgram)
    case 6 => Some(ActionProgram)
    case 7 => Some(PortraitMode)
    case 8 => Some(LandscapeMode)
    case 9 => Some(Other)
    case _ => None
  }

  /** The codes that decode to a variant. */
  lemma KnownCodes(code: int)
    ensures FromRawValue(code).Some? <==> 0 <= code <= 9
  {
  }

  /** Decoding a variant's own code gives the variant back, so distinct variants have distinct codes. */
  lemma RoundTrip(v: ExposureProgram)
    ensures FromRawValue(v.RawValue()) == Some(v)
  {
  }

  /** Different variants carry different labels, so a label names its variant. */
  lemma LabelsDistinct(a: ExposureProgram, b: ExposureProgram)
    ensures a != b ==> a.Description() != b.Description()
  {
  }

  /** `other` takes code 9 by implicit increment; code 2 is the normal program. */
  lemma Examples()
    ensures FromRawValue(9) == Some(Other) && Other.Description() == "Other"
    ensures FromRawValue(2) == Some(NormalProgram) && NormalProgram.Description() == "Normal program"
  {
  }
}
