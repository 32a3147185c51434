/** The sharpness processing applied by the camera (EXIF Sharpness tag). */
module ExifSharpness {
  import opened Wrappers

  datatype Sharpness =
    Normal | Soft | Hard
  {
    /** The raw code of the variant. */
    function RawValue(): int {
      match this
        case Normal => 0
        case Soft => 1
        case Hard => 2
    }

    /** `description`: the fixed English label of the variant. */
    function Description(): (s: string)
      ensures |s| > 0
    {
      match this
        case Normal => "Normal"
        case Soft => "Soft"
        case Hard => "Hard"
    }
  }

  /** `init?(rawValue:)`: the variant whose code this is; absent for every other code. */
  function FromRawValue(code: int): (r: Option<Sharpness>)
    ensures r.Some? ==> r.value.RawValue() == code
    ensures r.None? ==> forall v: Sharpness :: v.RawValue() != code
  {
    match code
    case 0 => Some(Normal)
    case 1 => Some(Soft)
    case 2 => Some(Hard)
    case _ => None
  }

  /** The codes that decode to a variant. */
  lemma KnownCodes(code: int)
    ensures FromRawValue(code).Some? <==> 0 <= code <= 2
  {
  }

  /** Decoding a variant's own code gives the variant back, so distinct variants have distinct codes. */
  lemma RoundTrip(v: Sharpness)
    ensures FromRawValue(v.RawValue()) == Some(v)
  {
  }

  /** Different variants carry different labels, so a label names its variant. */
  lemma LabelsDistinct(a: Sharpness, b: Sharpness)
    ensures a != b ==> a.Description() != b.Description()
  {
  }
}
