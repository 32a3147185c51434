/** The saturation processing applied by the camera (EXIF Saturation tag). */
module ExifSaturation {
  import opened Wrappers

  datatype Saturation =
    Normal | Low | High
  {
    /** The raw code of the variant. */
    function RawValue(): int {
      match this
        case Normal => 0
        case Low => 1
        case High => 2
    }

    /** `description`: the fixed English label of the variant. */
    function Description(): (s: string)
      ensures |s| > 0
    {
      match this
        case Normal => "Normal"
        case Low => "Low saturation"
        case High => "High saturation"
    }
  }

  /** `init?(rawValue:)`: the variant whose code this is; absent for every other code. */
  function FromRawValue(code: int): (r: Option<Saturation>)
    ensures r.Some? ==> r.value.RawValue() == code
    ensures r.None? ==> forall v: Saturation :: v.RawValue() != code
  {
    match code
    case 0 => Some(Normal)
    case 1 => Some(Low)
    case 2 => Some(High)
    case _ => None
  }

  /** The codes that decode to a variant. */
  lemma KnownCodes(code: int)
    ensures FromRawValue(code).Some? <==> 0 <= code <= 2
  {
  }

  /** Decoding a variant's own code gives the variant back, so distinct variants have distinct codes. */
  lemma RoundTrip(v: Saturation)
    ensures FromRawValue(v.RawValue()) == Some(v)
  {
  }

  /** Different variants carry different labels, so a label names its variant. */
  lemma LabelsDistinct(a: Saturation, b: Saturation)
    ensures a != b ==> a.Description() != b.Description()
  {
  }
}
