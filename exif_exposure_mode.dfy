/** The exposure mode set when the image was shot (EXIF ExposureMode tag). */
module ExifExposureMode {
  import opened Wrappers

  datatype ExposureMode =
    Auto | Manual | AutoBracket
  {
    /** The raw code of the variant. */
    function RawValue(): int {
      match this
        case Auto => 0
        case Manual => 1
        case AutoBracket => 2
    }

    /** `description`: the fixed English label of the variant. */
    function Description(): (s: string)
      ensures |s| > 0
    {
      match this
        case Auto => "Auto exposure"
        case Manual => "Manual exposure"
        case AutoBracket => "Auto bracket"
    }
  }

  /** `init?(rawValue:)`: the variant whose code this is; absent for every other code. */
  function FromRawValue(code: int): (r: Option<ExposureMode>)
    ensures r.Some? ==> r.value.RawValue() == code
    ensures r.None? ==> forall v: ExposureMode :: v.RawValue() != code
  {
    match code
    case 0 => Some(Auto)
    case 1 => Some(Manual)
    case 2 => Some(AutoBracket)
    case _ => None
  }

  /** The codes that decode to a variant. */
  lemma KnownCodes(code: int)
    ensures FromRawValue(code).Some? <==> 0 <= code <= 2
  {
  }

  /** Decoding a variant's own code gives the variant back, so distinct variants have distinct codes. */
  lemma RoundTrip(v: ExposureMode)
    ensures FromRawValue(v.RawValue()) == Some(v)
  {
  }

  /** Different variants carry different labels, so a label names its variant. */
  lemma LabelsDistinct(a: ExposureMode, b: ExposureMode)
    ensures a != b ==> a.Description() != b.Description()
  {
  }
}
