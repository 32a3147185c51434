/** Whether special processing was applied to the image data (EXIF CustomRendered tag). */
module ExifCustomRendered {
  import opened Wrappers

  datatype CustomRendered =
    Normal | Custom
  {
    /** The raw code of the variant. */
    function RawValue(): int {
      match this
        case Normal => 0
        case Custom => 1
    }

    /** `description`: the fixed English label of the variant. */
    function Description(): (s: string)
      ensures |s| > 0
    {
      match this
        case Normal => "Normal process"
        case Custom => "Custom process"
    }
  }

  /** `init?(rawValue:)`: the variant whose code this is; absent for every other code. */
  function FromRawValue(code: int): (r: Option<CustomRendered>)
    ensures r.Some? ==> r.value.RawValue() == code
    ensures r.None? ==> forall v: CustomRendered :: v.RawValue() != code
  {
    match code
    case 0 => Some(Normal)
    case 1 => Some(Custom)
    case _ => None
  }

  /** The codes that decode to a variant. */
  lemma KnownCodes(code: int)
    ensures FromRawValue(code).Some? <==> 0 <= code <= 1
  {
  }

  /** Decoding a variant's own code gives the variant back, so distinct variants have distinct codes. */
  lemma RoundTrip(v: CustomRendered)
    ensures FromRawValue(v.RawValue()) == Some(v)
  {
  }

  /** Different variants carry different labels, so a label names its variant. */
  lemma LabelsDistinct(a: CustomRendered, b: CustomRendered)
    ensures a != b ==> a.Description() != b.Description()
  {
  }
}
