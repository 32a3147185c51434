/** The white balance mode set when the image was shot (EXIF WhiteBalance tag). */
module ExifWhiteBalance {
  import opened Wrappers

  datatype WhiteBalance =
    Auto | Manual
  {
    /** The raw code of the variant. */
    function RawValue(): int {
      match this
        case Auto => 0
        case Manual => 1
    }

    /** `description`: the fixed English label of the variant. */
    function Description(): (s: string)
      ensures |s| > 0
    {
      match this
        case Auto => "Auto white balance"
        case Manual => "Manual white balance"
    }
  }

  /** `init?(rawValue:)`: the variant whose code this is; absent for every other code. */
  function FromRawValue(code: int): (r: Option<WhiteBalance>)
    ensures r.Some? ==> r.value.RawValue() == code
    ensures r.None? ==> forall v: WhiteBalance :: v.RawValue() != code
  {
    match code
    case 0 => Some(Auto)
    case 1 => Some(Manual)
    case _ => None
  }

  /** The codes that decode to a variant. */
  lemma KnownCodes(code: int)
    ensures FromRawValue(code).Some? <==> 0 <= code <= 1
  {
  }

  /** Decoding a variant's own code gives the variant back, so distinct variants have distinct codes. */
  lemma RoundTrip(v: WhiteBalance)
    ensures FromRawValue(v.RawValue()) == Some(v)
  {
  }

  /** Different variants carry different labels, so a label names its variant. */
  lemma LabelsDistinct(a: WhiteBalance, b: WhiteBalance)
    ensures a != b ==> a.Description() != b.Description()
  {
  }
}
