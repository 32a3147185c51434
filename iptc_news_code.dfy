/**
 * `IPTC.NewsCode.Scene`: the IPTC Scene NewsCodes vocabulary, a `String`
 * raw-value enum whose codes are "01" + a two-digit ordinal + "00".
 */
module IptcNewsCode {
  import opened Wrappers
  import Text

  datatype Scene =
    Headshot | HalfLength | FullLength | Profile | RearView | Single | Couple | Two | Group | GeneralView | PanoramicView | AerialView | UnderWater | NightScene | Satellite | ExteriorView | InteriorView | CloseUp | Action | Performing | Posing | Symbolic | OffBeat | MovieScene
  {
    /** The raw code, as stored under IPTC `Scene` and as the enum encodes. */
    function RawValue(): string {
      match this
      case Headshot => "010100"
      case HalfLength => "010200"
      case FullLength => "010300"
      case Profile => "010400"
      case RearView => "010500"
      case Single => "010600"
      case Couple => "010700"
      case Two => "010800"
      case Group => "010900"
      case GeneralView => "011000"
      case PanoramicView => "011100"
      case AerialView => "011200"
      case UnderWater => "011300"
      case NightScene => "011400"
      case Satellite => "011500"
      case ExteriorView => "011600"
      case InteriorView => "011700"
      case CloseUp => "011800"
      case Action => "011900"
      case Performing => "012000"
      case Posing => "012100"
      case Symbolic => "012200"
      case OffBeat => "012300"
      case MovieScene => "012400"
    }

    /** The position of the variant in the vocabulary, 1 through 24. */
    function Ordinal(): (n: nat)
      ensures 1 <= n <= 24
    {
      match this
      case Headshot => 1
      case HalfLength => 2
      case FullLength => 3
      case Profile => 4
      case RearView => 5
      case Single => 6
      case Couple => 7
      case Two => 8
      case Group => 9
      case GeneralView => 10
      case PanoramicView => 11
      case AerialView => 12
      case UnderWater => 13
      case NightScene => 14
      case Satellite => 15
      case ExteriorView => 16
      case InteriorView => 17
      case CloseUp => 18
      case Action => 19
      case Performing => 20
      case Posing => 21
      case Symbolic => 22
      case OffBeat => 23
      case MovieScene => 24
    }

    /** `definition`: the vocabulary's definition of the scene. */
    function Definition(): string {
      match this
      case Headshot =>
        "A head only view of a person (or animal/s) or persons as in a montage."
      case HalfLength =>
        "A torso and head view of a person or persons."
      case FullLength =>
        "A view from head to toe of a person or persons."
      case Profile =>
        "A view of a person from the side."
      case RearView =>
        "A view of a person or persons from the rear."
      case Single =>
        "A view of only one person, object or animal."
      case Couple =>
        "A view of two people who are in a personal relationship, for example engaged, married or in a romantic partnership."
      case Two =>
        "A view of two people."
      case Group =>
        "A view of more than two people."
      case GeneralView =>
        "An overall view of the subject and its surrounds."
      case PanoramicView =>
        "A panoramic or wide angle view of a subject and its surrounds."
      case AerialView =>
        "A view taken from above."
      case UnderWater =>
        "A photo taken under water."
      case NightScene =>
        "A photo taken during darkness."
      case Satellite =>
        "A photo taken from a satellite in orbit."
      case ExteriorView =>
        "A photo that shows the exterior of a building or other object."
      case InteriorView =>
        "A scene or view of the interior of a building or other object."
      case CloseUp =>
        "A view of, or part of a person/object taken at close range in order to emphasize detail or accentuate mood. Macro photography."
      case Action =>
        "Subject in motion such as children jumping, horse running."
      case Performing =>
        "Subject or subjects on a stage performing to an audience."
      case Posing =>
        "Subject or subjects posing such as a 'victory' pose or other stance that symbolizes leadership."
      case Symbolic =>
        "A posed picture symbolizing an event - two rings for marriage."
      case OffBeat =>
        "An attractive, perhaps fun picture of everyday events - dog with sunglasses, people cooling off in the fountain."
      case MovieScene =>
        "Photos taken during the shooting of a movie or TV production."
    }

    /** `description`: the short English label. */
    function Description(): (s: string)
      ensures |s| > 0
    {
      match this
      case Headshot => "headshot"
      case HalfLength => "half-length"
      case FullLength => "full-length"
      case Profile => "profile"
      case RearView => "rear view"
      case Single => "single"
      case Couple => "couple"
      case Two => "two"
      case Group => "group"
      case GeneralView => "general view"
      case PanoramicView => "panoramic view"
      case AerialView => "aerial view"
      case UnderWater => "under-water"
      case NightScene => "night scene"
      case Satellite => "satellite"
      case ExteriorView => "exterior view"
      case InteriorView => "interior view"
      case CloseUp => "close-up"
      case Action => "action"
      case Performing => "performing"
      case Posing => "posing"
      case Symbolic => "symbolic"
      case OffBeat => "off-beat"
      case MovieScene => "movie scene"
    }
  }

  /** `init?(rawValue:)`: exact string match; every other string is absent. */
  function FromRawValue(s: string): (r: Option<Scene>)
    ensures r.Some? ==> r.value.RawValue() == s
    ensures r.None? ==> forall v: Scene :: v.RawValue() != s
  {
    match s
    case "010100" => Some(Headshot)
    case "010200" => Some(HalfLength)
    case "010300" => Some(FullLength)
    case "010400" => Some(Profile)
    case "010500" => Some(RearView)
    case "010600" => Some(Single)
    case "010700" => Some(Couple)
    case "010800" => Some(Two)
    case "010900" => Some(Group)
    case "011000" => Some(GeneralView)
    case "011100" => Some(PanoramicView)
    case "011200" => Some(AerialView)
    case "011300" => Some(UnderWater)
    case "011400" => Some(NightScene)
    case "011500" => Some(Satellite)
    case "011600" => Some(ExteriorView)
    case "011700" => Some(InteriorView)
    case "011800" => Some(CloseUp)
    case "011900" => Some(Action)
    case "012000" => Some(Performing)
    case "012100" => Some(Posing)
    case "012200" => Some(Symbolic)
    case "012300" => Some(OffBeat)
    case "012400" => Some(MovieScene)
    case _ => None
  }

  /** The code of the `n`-th scene: "01", then `n` as two digits, then "00". */
  function SceneCode(n: nat): (s: string)
    requires 1 <= n <= 24
    ensures |s| == 6
  {
    "01" + [Text.DigitChar(n / 10), Text.DigitChar(n % 10)] + "00"
  }

  /** Every variant's code follows the numbering scheme, in steps of 100. */
  lemma CodeScheme(v: Scene)
    ensures v.RawValue() == SceneCode(v.Ordinal())
  {
  }

  /** Decoding a variant's own code gives the variant back, so the codes are distinct. */
  lemma RoundTrip(v: Scene)
    ensures FromRawValue(v.RawValue()) == Some(v)
  {
  }

  /** Exactly the 24 codes of the scheme decode. */
  lemma KnownCodes(s: string)
    ensures FromRawValue(s).Some? <==> exists n :: 1 <= n <= 24 && s == SceneCode(n)
  {
    var r := FromRawValue(s);
    if r.Some? {
      CodeScheme(r.value);
    }
    if n :| 1 <= n <= 24 && s == SceneCode(n) {
      ByOrdinal(n);
    }
  }

  /** The scene at each ordinal. */
  lemma ByOrdinal(n: nat)
    requires 1 <= n <= 24
    ensures FromRawValue(SceneCode(n)).Some?
    ensures FromRawValue(SceneCode(n)).value.Ordinal() == n
  {
    var v := AtOrdinal(n);
    CodeScheme(v);
    RoundTrip(v);
  }

  /** The scene at a position of the vocabulary. */
  function AtOrdinal(n: nat): (v: Scene)
    requires 1 <= n <= 24
    ensures v.Ordinal() == n
  {
    match n
    case 1 => Headshot
    case 2 => HalfLength
    case 3 => FullLength
    case 4 => Profile
    case 5 => RearView
    case 6 => Single
    case 7 => Couple
    case 8 => Two
    case 9 => Group
    case 10 => GeneralView
    case 11 => PanoramicView
    case 12 => AerialView
    case 13 => UnderWater
    case 14 => NightScene
    case 15 => Satellite
    case 16 => ExteriorView
    case 17 => InteriorView
    case 18 => CloseUp
    case 19 => Action
    case 20 => Performing
    case 21 => Posing
    case 22 => Symbolic
    case 23 => OffBeat
    case _ => MovieScene
  }

  /** Different variants carry different labels. */
  lemma LabelsDistinct(a: Scene, b: Scene)
    ensures a != b ==> a.Description() != b.Description()
  {
  }

  /** Labels the vocabulary spells out. */
  lemma Examples()
    ensures FromRawValue("010100") == Some(Headshot) && Headshot.Description() == "headshot"
    ensures FromRawValue("012400") == Some(MovieScene) && MovieScene.Description() == "movie scene"
    ensures FromRawValue("012500").None? && FromRawValue("010000").None?
  {
  }
}
