/**
 * `ImageOrientation`: the TIFF 6.0 Orientation tag (Section 8 of TIFF 6.0),
 * a `UInt32` raw-value enum whose declaration order differs from its code
 * order (`left` is 8, `leftMirrored` 5).
 */
module ImageOrientation {
  import opened Wrappers

  /** The exclusive upper bound of a `UInt32`. */
  const UInt32Bound: int := 0x1_0000_0000

  datatype Orientation =
    Up | UpMirrored | Down | DownMirrored | Left | LeftMirrored | Right | RightMirrored
  {
    /** The raw `UInt32` code. */
    function RawValue(): (code: int)
      ensures 0 <= code < UInt32Bound
    {
      match this
      case Up => 1
      case UpMirrored => 2
      case Down => 3
      case DownMirrored => 4
      case Left => 8
      case LeftMirrored => 5
      case Right => 6
      case RightMirrored => 7
    }

    /** `description`: the case name. */
    function Description(): (s: string)
      ensures |s| > 0
    {
      match this
      case Up => "up"
      case UpMirrored => "upMirrored"
      case Down => "down"
      case DownMirrored => "downMirrored"
      case Left => "left"
      case LeftMirrored => "leftMirrored"
      case Right => "right"
      case RightMirrored => "rightMirrored"
    }
  }

  /** `init?(rawValue:)` on a `UInt32` code. */
  function FromRawValue(code: int): (r: Option<Orientation>)
    requires 0 <= code < UInt32Bound
    ensures r.Some? ==> r.value.RawValue() == code
    ensures r.None? ==> forall v: Orientation :: v.RawValue() != code
  {
    match code
    case 1 => Some(Up)
    case 2 => Some(UpMirrored)
    case 3 => Some(Down)
    case 4 => Some(DownMirrored)
    case 5 => Some(LeftMirrored)
    case 6 => Some(Right)
    case 7 => Some(RightMirrored)
    case 8 => Some(Left)
    case _ => None
  }

  /** Exactly the codes 1 through 8 decode. */
  lemma KnownCodes(code: int)
    requires 0 <= code < UInt32Bound
    ensures FromRawValue(code).Some? <==> 1 <= code <= 8
  {
  }

  /** Decoding a variant's own code gives the variant back, so the codes are distinct. */
  lemma RoundTrip(v: Orientation)
    ensures FromRawValue(v.RawValue()) == Some(v)
  {
  }

  /** The labels are distinct. */
  lemma LabelsDistinct(a: Orientation, b: Orientation)
    ensures a != b ==> a.Description() != b.Description()
  {
  }
}
