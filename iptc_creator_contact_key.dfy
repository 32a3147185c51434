/**
 * `IPTC.CreatorContactKey`: the eight keys of the IPTC creator contact-info
 * dictionary, a `String` raw-value enum over ImageIO's constant names.
 */
module IptcCreatorContactKey {
  import opened Wrappers

  /** The common prefix of every key's raw string. */
  const Prefix: string := "kCGImagePropertyIPTCContactInfo"

  datatype CreatorContactKey =
    ContactInfoAddress | ContactInfoCity | ContactInfoCountry | ContactInfoEmails | ContactInfoPhones | ContactInfoPostalCode | ContactInfoStateProvince | ContactInfoWebURLs
  {
    /** The raw key string. */
    function RawValue(): (s: string)
      ensures |s| > |Prefix| && s[..|Prefix|] == Prefix
    {
      match this
      case ContactInfoAddress => "kCGImagePropertyIPTCContactInfoAddress"
      case ContactInfoCity => "kCGImagePropertyIPTCContactInfoCity"
      case ContactInfoCountry => "kCGImagePropertyIPTCContactInfoCountry"
      case ContactInfoEmails => "kCGImagePropertyIPTCContactInfoEmails"
      case ContactInfoPhones => "kCGImagePropertyIPTCContactInfoPhones"
      case ContactInfoPostalCode => "kCGImagePropertyIPTCContactInfoPostalCode"
      case ContactInfoStateProvince => "kCGImagePropertyIPTCContactInfoStateProvince"
      case ContactInfoWebURLs => "kCGImagePropertyIPTCContactInfoWebURLs"
    }

    /** `description`: a fixed English text. */
    function Description(): (s: string)
      ensures |s| > 0
    {
      match this
      case ContactInfoAddress => "The address portion of the contact information."
      case ContactInfoCity => "The city portion of the contact information."
      case ContactInfoCountry => "The country or region portion of the contact information."
      case ContactInfoEmails => "Email addresses for the contact."
      case ContactInfoPhones => "Phone numbers for the contact."
      case ContactInfoPostalCode => "The postal code portion of the contact."
      case ContactInfoStateProvince => "The state or province of the contact."
      case ContactInfoWebURLs => "Web addresses for the contact."
    }
  }

  /** `init?(rawValue:)`: exact string match; every other string is absent. */
  function FromRawValue(s: string): (r: Option<CreatorContactKey>)
    ensures r.Some? ==> r.value.RawValue() == s
    ensures r.None? ==> forall k: CreatorContactKey :: k.RawValue() != s
  {
    match s
    case "kCGImagePropertyIPTCContactInfoAddress" => Some(ContactInfoAddress)
    case "kCGImagePropertyIPTCContactInfoCity" => Some(ContactInfoCity)
    case "kCGImagePropertyIPTCContactInfoCountry" => Some(ContactInfoCountry)
    case "kCGImagePropertyIPTCContactInfoEmails" => Some(ContactInfoEmails)
    case "kCGImagePropertyIPTCContactInfoPhones" => Some(ContactInfoPhones)
    case "kCGImagePropertyIPTCContactInfoPostalCode" => Some(ContactInfoPostalCode)
    case "kCGImagePropertyIPTCContactInfoStateProvince" => Some(ContactInfoStateProvince)
    case "kCGImagePropertyIPTCContactInfoWebURLs" => Some(ContactInfoWebURLs)
    case _ => None
  }

  /** All eight keys, in declaration order. */
  const AllKeys: seq<CreatorContactKey> := [ContactInfoAddress, ContactInfoCity, ContactInfoCountry, ContactInfoEmails, ContactInfoPhones, ContactInfoPostalCode, ContactInfoStateProvince, ContactInfoWebURLs]

  /** The key list holds every key exactly once. */
  lemma AllKeysComplete(k: CreatorContactKey)
    ensures k in AllKeys
    ensures |AllKeys| == 8
    ensures forall i, j :: 0 <= i < j < |AllKeys| ==> AllKeys[i] != AllKeys[j]
  {
  }

  /** Decoding a key's own string gives the key back, so the raw strings are distinct. */
  lemma RoundTrip(k: CreatorContactKey)
    ensures FromRawValue(k.RawValue()) == Some(k)
  {
  }

  /** A string without the common prefix is never a key. */
  lemma UnprefixedIsUnknown(s: string)
    requires !(|s| > |Prefix| && s[..|Prefix|] == Prefix)
    ensures FromRawValue(s).None?
  {
  }
}
