/** The distance to the subject (EXIF SubjectDistanceRange tag). */
module ExifSubjectDistanceRange {
  import opened Wrappers

  datatype SubjectDistanceRange =
    Unknown | Macro | CloseView | DistantView | Other
  {
    /** The raw code of the variant. */
    function RawValue(): int {
      match this
        case Unknown => 0
        case Macro => 1
        case CloseView => 2
        case DistantView => 3
        case Other => 4
    }

    /** `description`: the fixed English label of the variant. */
    function Description(): (s: string)
      ensures |s| > 0
    {
      match this
        case Unknown => "Unknown"
        case Macro => "Macro"
        case CloseView => "Close view"
        case DistantView => "Distant view"
        case Other => "Other"
    }
  }

  /** `init?(rawValue:)`: the variant whose code this is; absent for every other code. */
  function FromRawValue(code: int): (r: Option<SubjectDistanceRange>)
    ensures r.Some? ==> r.value.RawValue() == code
    ensures r.None? ==> forall v: SubjectDistanceRange :: v.RawValue() != code
  {
    match code
    case 0 => Some(Unknown)
    case 1 => Some(Macro)
    case 2 => Some(CloseView)
    case 3 => Some(DistantView)
    case 4 => Some(Other)
    case _ => None
  }

  /** The codes that decode to a variant. */
  lemma KnownCodes(code: int)
    ensures FromRawValue(code).Some? <==> 0 <= code <= 4
  {
  }

  /** Decoding a variant's own code gives the variant back, so distinct variants have distinct codes. */
  lemma RoundTrip(v: SubjectDistanceRange)
    ensures FromRawValue(v.RawValue()) == Some(v)
  {
  }

  /** Different variants carry different labels, so a label names its variant. */
  lemma LabelsDistinct(a: SubjectDistanceRange, b: SubjectDistanceRange)
    ensures a != b ==> a.Description() != b.Description()
  {
  }
}
