/** The type of scene that was shot (EXIF SceneCaptureType tag). */
module ExifSceneCaptureType {
  import opened Wrappers

  datatype SceneCaptureType =
    Standard | Landscape | Portrait | NightScene
  {
    /** The raw code of the variant. */
    function RawValue(): int {
      match this
        case Standard => 0
        case Landscape => 1
        case Portrait => 2
        case NightScene => 3
    }

    /** `description`: the fixed English label of the variant. */
    function Description(): (s: string)
      ensures |s| > 0
    {
      match this
        case Standard => "Standard"
        case Landscape => "Landscape"
        case Portrait => "Portrait"
        case NightScene => "Night scene"
    }
  }

  /** `init?(rawValue:)`: the variant whose code this is; absent for every other code. */
  function FromRawValue(code: int): (r: Option<SceneCaptureType>)
    ensures r.Some? ==> r.value.RawValue() == code
    ensures r.None? ==> forall v: SceneCaptureType :: v.RawValue() != code
  {
    match code
    case 0 => Some(Standard)
    case 1 => Some(Landscape)
    case 2 => Some(Portrait)
    case 3 => Some(NightScene)
    case _ => None
  }

  /** The codes that decode to a variant. */
  lemma KnownCodes(code: int)
    ensures FromRawValue(code).Some? <==> 0 <= code <= 3
  {
  }

  /** Decoding a variant's own code gives the variant back, so distinct variants have distinct codes. */
  lemma RoundTrip(v: SceneCaptureType)
    ensures FromRawValue(v.RawValue()) == Some(v)
  {
  }

  /** Different variants carry different labels, so a label names its variant. */
  lemma LabelsDistinct(a: SceneCaptureType, b: SceneCaptureType)
    ensures a != b ==> a.Description() != b.Description()
  {
  }
}
