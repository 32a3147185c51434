# ImageMetadata, modelled in Dafny

ImageMetadata is a Swift library that reads the metadata ImageIO finds in an
image file and encodes it as JSON. `ImageMetadata` wraps ImageIO's property
dictionary. It exposes typed properties such as pixel size, DPI, orientation
and colour model. It also exposes four family views: `EXIF`, `IPTC`, `TIFF`
and `GPS`. `MetadataOptions` is a bit set that chooses which families
`encode(to:)` writes. `ImageFile` opens a file URL under a security scope,
classifies what goes wrong as an `ImageFileError`, and derives the file's
name, basename and size text.

The model keeps the library's structure:

- `PropertyStore`: the untyped dictionary (`map<string, Value>`) and the `as? T`
  lookups. Every lookup gives absence for a missing key or a value of another type.
- `Fields`: the handful of shapes a view property takes, as a `Derivation`
  datatype with one `Derive` function. The shapes are a typed lookup, an enum
  decoded from its code, a dotted version, a date string, a date plus a time
  string, an auxiliary-dictionary string with a fallback, the keyword filter,
  the scene list and the creator contact map.
- `Exif`, `Iptc`, `Tiff`, `Gps`: each view's `CodingKey` datatype. `Source()` is the
  derivation of the property of the same name. `Encode` is the object
  `encode(to:)` writes, one `encodeIfPresent` per property.
- The twelve EXIF enums, `ImageOrientation`, `IPTC.CreatorContactKey` and
  `IPTC.NewsCode.Scene`: one module each. Each has its codes, `init?(rawValue:)`
  and its labels.
- `Options`: `MetadataOptions` over the two's-complement bits of a 64-bit `Int`.
- `ImageMetadata`: the top-level accessors and `encode(to:)`. The encoder is a
  method that performs the twenty writes in source order, proved against a
  per-key reference.
- `FileError` and `Files`: the error type and `ImageFile`. The security scope is a
  class whose start/stop counters show that every started access is stopped.
  `init(url:)` is a method proved against a function of the file system's answers.
- `Text`, `Json`, `Foundation`, `Wrappers`: Swift and Foundation pieces the
  library relies on. These are `Int.description`, `joined(separator:)`, the last
  path component, a JSON value and `encodeIfPresent`, and the stand-ins for
  `URL`, `UTType` and thrown errors.

Everything Foundation computes enters as a parameter (`Formatters`):

- `DateFormatter.date(from:)`, given the formatter's pattern and time zone;
- the byte-count text of `Int.formatted(.byteCount(style: .memory, spellsOutZero: true, includesActualByteCount: true))`.

Formatter patterns and time zones are kept as data, so a contract can say
which formatter reads which string.

The dictionary's keys are written as the names of the ImageIO constants, such
as `"kCGImagePropertyDPIHeight"`. Each name stands for the string that constant
holds; the model does not know those strings.

Where the code departs from what its names suggest, the model keeps what the
code does:

- `IPTC.keywords` returns the stored array unchanged, empty entries included.
  It is nil only when no entry is non-empty (`IPTC.swift:57-60`); it does not
  return the filtered array.
- `LightSource.d75` is labelled "D70" (`LightSource.swift:99-100`). The model
  keeps that label.
- The two defects under "## Findings" are modelled twice. The corrected
  versions are `Iptc.Encode`, `ImageMetadata.Encode` and `ImageMetadata.EncodeTo`.
  The as-written versions are `Iptc.EncodeAsWritten`, `ImageMetadata.EncodeAsWritten`
  and `ImageMetadata.EncodeToAsWritten`. The as-written top-level encoder
  embeds the as-written IPTC object and moves the width onto the height key.

## Model

| member | source | states |
|---|---|---|
| ExifContrast.FromRawValue | Sources/ImageMetadata/EXIF/Contrast.swift:7-14 | `Contrast(rawValue:)` returns the variant carrying that code, and is absent only when no variant carries it |
| ExifContrast.KnownCodes | Sources/ImageMetadata/EXIF/Contrast.swift:7-14 | the exact range of codes that decode |
| ExifContrast.RoundTrip | Sources/ImageMetadata/EXIF/Contrast.swift:7-14 | decoding a variant's own code gives that variant back, so no two variants share a code |
| ExifContrast.LabelsDistinct | Sources/ImageMetadata/EXIF/Contrast.swift:18-27 | different variants have different `description` labels |
| ExifCustomRendered.FromRawValue | Sources/ImageMetadata/EXIF/CustomRendered.swift:8-15 | `CustomRendered(rawValue:)` returns the variant carrying that code, and is absent only when no variant carries it |
| ExifCustomRendered.KnownCodes | Sources/ImageMetadata/EXIF/CustomRendered.swift:8-15 | the exact range of codes that decode |
| ExifCustomRendered.RoundTrip | Sources/ImageMetadata/EXIF/CustomRendered.swift:8-15 | decoding a variant's own code gives that variant back, so no two variants share a code |
| ExifCustomRendered.LabelsDistinct | Sources/ImageMetadata/EXIF/CustomRendered.swift:19-26 | different variants have different `description` labels |
| ExifExposureMode.FromRawValue | Sources/ImageMetadata/EXIF/ExposureMode.swift:6-16 | `ExposureMode(rawValue:)` returns the variant carrying that code, and is absent only when no variant carries it |
| ExifExposureMode.KnownCodes | Sources/ImageMetadata/EXIF/ExposureMode.swift:6-16 | the exact range of codes that decode |
| ExifExposureMode.RoundTrip | Sources/ImageMetadata/EXIF/ExposureMode.swift:6-16 | decoding a variant's own code gives that variant back, so no two variants share a code |
| ExifExposureMode.LabelsDistinct | Sources/ImageMetadata/EXIF/ExposureMode.swift:20-29 | different variants have different `description` labels |
| ExifExposureProgram.FromRawValue | Sources/ImageMetadata/EXIF/ExposureProgram.swift:7-36 | `ExposureProgram(rawValue:)` returns the variant carrying that code, and is absent only when no variant carries it |
| ExifExposureProgram.KnownCodes | Sources/ImageMetadata/EXIF/ExposureProgram.swift:7-36 | the exact range of codes that decode |
| ExifExposureProgram.RoundTrip | Sources/ImageMetadata/EXIF/ExposureProgram.swift:7-36 | decoding a variant's own code gives that variant back, so no two variants share a code |
| ExifExposureProgram.LabelsDistinct | Sources/ImageMetadata/EXIF/ExposureProgram.swift:40-63 | different variants have different `description` labels |
| ExifExposureProgram.Examples | Sources/ImageMetadata/EXIF/ExposureProgram.swift:40-63 | `other` takes code 9 by implicit increment, and code 2 is the normal program with its label |
| ExifLightSource.FromRawValue | Sources/ImageMetadata/EXIF/LightSource.swift:6-59 | `LightSource(rawValue:)` returns the variant carrying that code, and is absent only when no variant carries it |
| ExifLightSource.KnownCodes | Sources/ImageMetadata/EXIF/LightSource.swift:6-59 | the exact range of codes that decode |
| ExifLightSource.RoundTrip | Sources/ImageMetadata/EXIF/LightSource.swift:6-59 | decoding a variant's own code gives that variant back, so no two variants share a code |
| ExifLightSource.LabelsDistinct | Sources/ImageMetadata/EXIF/LightSource.swift:63-108 | different variants have different `description` labels |
| ExifLightSource.Examples | Sources/ImageMetadata/EXIF/LightSource.swift:63-108 | the codes and labels the source spells out, including the gaps in the code table and code 22 labelled "D70" |
| ExifMeteringMode.FromRawValue | Sources/ImageMetadata/EXIF/MeteringMode.swift:6-23 | `MeteringMode(rawValue:)` returns the variant carrying that code, and is absent only when no variant carries it |
| ExifMeteringMode.KnownCodes | Sources/ImageMetadata/EXIF/MeteringMode.swift:6-23 | the exact range of codes that decode |
| ExifMeteringMode.RoundTrip | Sources/ImageMetadata/EXIF/MeteringMode.swift:6-23 | decoding a variant's own code gives that variant back, so no two variants share a code |
| ExifMeteringMode.LabelsDistinct | Sources/ImageMetadata/EXIF/MeteringMode.swift:27-46 | different variants have different `description` labels |
| ExifMeteringMode.Examples | Sources/ImageMetadata/EXIF/MeteringMode.swift:27-46 | the codes and labels the source spells out, including the gaps in the code table |
| ExifSaturation.FromRawValue | Sources/ImageMetadata/EXIF/Saturation.swift:7-14 | `Saturation(rawValue:)` returns the variant carrying that code, and is absent only when no variant carries it |
| ExifSaturation.KnownCodes | Sources/ImageMetadata/EXIF/Saturation.swift:7-14 | the exact range of codes that decode |
| ExifSaturation.RoundTrip | Sources/ImageMetadata/EXIF/Saturation.swift:7-14 | decoding a variant's own code gives that variant back, so no two variants share a code |
| ExifSaturation.LabelsDistinct | Sources/ImageMetadata/EXIF/Saturation.swift:18-27 | different variants have different `description` labels |
| ExifSceneCaptureType.FromRawValue | Sources/ImageMetadata/EXIF/SceneCaptureType.swift:11-20 | `SceneCaptureType(rawValue:)` returns the variant carrying that code, and is absent only when no variant carries it |
| ExifSceneCaptureType.KnownCodes | Sources/ImageMetadata/EXIF/SceneCaptureType.swift:11-20 | the exact range of codes that decode |
| ExifSceneCaptureType.RoundTrip | Sources/ImageMetadata/EXIF/SceneCaptureType.swift:11-20 | decoding a variant's own code gives that variant back, so no two variants share a code |
| ExifSceneCaptureType.LabelsDistinct | Sources/ImageMetadata/EXIF/SceneCaptureType.swift:24-35 | different variants have different `description` labels |
| ExifSensingMethod.FromRawValue | Sources/ImageMetadata/EXIF/SensingMethod.swift:6-21 | `SensingMethod(rawValue:)` returns the variant carrying that code, and is absent only when no variant carries it |
| ExifSensingMethod.KnownCodes | Sources/ImageMetadata/EXIF/SensingMethod.swift:6-21 | the exact range of codes that decode |
| ExifSensingMethod.RoundTrip | Sources/ImageMetadata/EXIF/SensingMethod.swift:6-21 | decoding a variant's own code gives that variant back, so no two variants share a code |
| ExifSensingMethod.LabelsDistinct | Sources/ImageMetadata/EXIF/SensingMethod.swift:25-42 | different variants have different `description` labels |
| ExifSensingMethod.Examples | Sources/ImageMetadata/EXIF/SensingMethod.swift:25-42 | the codes and labels the source spells out, including the gaps in the code table |
| ExifSharpness.FromRawValue | Sources/ImageMetadata/EXIF/Sharpness.swift:7-14 | `Sharpness(rawValue:)` returns the variant carrying that code, and is absent only when no variant carries it |
| ExifSharpness.KnownCodes | Sources/ImageMetadata/EXIF/Sharpness.swift:7-14 | the exact range of codes that decode |
| ExifSharpness.RoundTrip | Sources/ImageMetadata/EXIF/Sharpness.swift:7-14 | decoding a variant's own code gives that variant back, so no two variants share a code |
| ExifSharpness.LabelsDistinct | Sources/ImageMetadata/EXIF/Sharpness.swift:18-27 | different variants have different `description` labels |
| ExifSubjectDistanceRange.FromRawValue | Sources/ImageMetadata/EXIF/SubjectDistanceRange.swift:6-17 | `SubjectDistanceRange(rawValue:)` returns the variant carrying that code, and is absent only when no variant carries it |
| ExifSubjectDistanceRange.KnownCodes | Sources/ImageMetadata/EXIF/SubjectDistanceRange.swift:6-17 | the exact range of codes that decode |
| ExifSubjectDistanceRange.RoundTrip | Sources/ImageMetadata/EXIF/SubjectDistanceRange.swift:6-17 | decoding a variant's own code gives that variant back, so no two variants share a code |
| ExifSubjectDistanceRange.LabelsDistinct | Sources/ImageMetadata/EXIF/SubjectDistanceRange.swift:21-34 | different variants have different `description` labels |
| ExifWhiteBalance.FromRawValue | Sources/ImageMetadata/EXIF/WhiteBalance.swift:6-11 | `WhiteBalance(rawValue:)` returns the variant carrying that code, and is absent only when no variant carries it |
| ExifWhiteBalance.KnownCodes | Sources/ImageMetadata/EXIF/WhiteBalance.swift:6-11 | the exact range of codes that decode |
| ExifWhiteBalance.RoundTrip | Sources/ImageMetadata/EXIF/WhiteBalance.swift:6-11 | decoding a variant's own code gives that variant back, so no two variants share a code |
| ExifWhiteBalance.LabelsDistinct | Sources/ImageMetadata/EXIF/WhiteBalance.swift:15-22 | different variants have different `description` labels |
| ImageOrientation.FromRawValue | Sources/ImageMetadata/ImageOrientation.swift:3-20 | `ImageOrientation(rawValue:)` on a `UInt32` returns the variant carrying that code, and is absent only when no variant carries it |
| ImageOrientation.KnownCodes | Sources/ImageMetadata/ImageOrientation.swift:3-20 | exactly the codes 1 through 8 decode |
| ImageOrientation.RoundTrip | Sources/ImageMetadata/ImageOrientation.swift:3-20 | decoding a variant's own code gives it back, although the declaration order differs from the code order |
| ImageOrientation.LabelsDistinct | Sources/ImageMetadata/ImageOrientation.swift:33-52 | different orientations have different `description` labels |
| IptcCreatorContactKey.FromRawValue | Sources/ImageMetadata/IPTC/CreatorContactKey.swift:4-13 | `CreatorContactKey(rawValue:)` matches the exact key string, and is absent for every other string |
| IptcCreatorContactKey.AllKeysComplete | Sources/ImageMetadata/IPTC/CreatorContactKey.swift:4-13 | the key list holds each of the eight keys exactly once |
| IptcCreatorContactKey.RoundTrip | Sources/ImageMetadata/IPTC/CreatorContactKey.swift:4-13 | a key's own string decodes to that key, so no two keys share a string |
| IptcCreatorContactKey.UnprefixedIsUnknown | Sources/ImageMetadata/IPTC/CreatorContactKey.swift:4-13 | a string without the common contact-info prefix is never a key |
| IptcNewsCode.FromRawValue | Sources/ImageMetadata/IPTC/NewsCode.swift:8-34 | `Scene(rawValue:)` matches the exact code string, and is absent for every other string |
| IptcNewsCode.CodeScheme | Sources/ImageMetadata/IPTC/NewsCode.swift:8-34 | every scene's code is "01", then its two-digit position in the vocabulary, then "00" |
| IptcNewsCode.RoundTrip | Sources/ImageMetadata/IPTC/NewsCode.swift:8-34 | a scene's own code decodes to that scene, so no two scenes share a code |
| IptcNewsCode.KnownCodes | Sources/ImageMetadata/IPTC/NewsCode.swift:8-34 | a string decodes exactly when it is one of the 24 codes of the numbering scheme |
| IptcNewsCode.ByOrdinal | Sources/ImageMetadata/IPTC/NewsCode.swift:8-34 | the code at each position 1 to 24 decodes to the scene at that position |
| IptcNewsCode.AtOrdinal | Sources/ImageMetadata/IPTC/NewsCode.swift:8-34 | the scene at a position of the vocabulary has that position |
| IptcNewsCode.LabelsDistinct | Sources/ImageMetadata/IPTC/NewsCode.swift:94-145 | different scenes have different `description` labels |
| IptcNewsCode.Examples | Sources/ImageMetadata/IPTC/NewsCode.swift:94-145 | "010100" is the headshot and "012400" the movie scene, with their labels, and "012500" and "010000" are unknown |
| Options.FromBits | Sources/ImageMetadata/MetadataOptions.swift:3-5 | the raw `Int` with a given 64-bit two's-complement pattern reads back as that pattern |
| Options.FlagBits | Sources/ImageMetadata/MetadataOptions.swift:10-16 | `exif`, `iptc`, `tiff` and `gps` are the single bits 0 to 3 |
| Options.FlagsDisjoint | Sources/ImageMetadata/MetadataOptions.swift:10-16 | no two flags share a bit: every pairwise intersection is `none` |
| Options.Union | Sources/ImageMetadata/MetadataOptions.swift:2 | definition: `union` is the bitwise or of the raw values; stated by `Options.AllIsLiteral` and `Options.AllContainsEveryFlag` |
| Options.Intersection | Sources/ImageMetadata/MetadataOptions.swift:2 | definition: `intersection` is the bitwise and of the raw values; stated by `Options.FlagsDisjoint` |
| Options.Contains | Sources/ImageMetadata/MetadataOptions.swift:2 | definition: `contains` holds when every bit of the member is set; stated by `Options.NoneContainsNoFlag`, `Options.AllContainsEveryFlag` and the `ImageMetadata` gating lemmas |
| Options.Literal | Sources/ImageMetadata/MetadataOptions.swift:18-20 | definition: an array literal is the union of its elements from the empty set; stated by `Options.NoneContainsNoFlag` and `Options.AllIsLiteral` |
| Options.NoneContainsNoFlag | Sources/ImageMetadata/MetadataOptions.swift:18 | `none` is the empty option set literal and contains none of the four flags |
| Options.AllIsLiteral | Sources/ImageMetadata/MetadataOptions.swift:20 | `all`, raw value 15, is the option set literal of the four flags |
| Options.AllContainsEveryFlag | Sources/ImageMetadata/MetadataOptions.swift:20 | `all` contains each of the four flags |
| PropertyStore.IntAt | Sources/ImageMetadata/EXIF/EXIF.swift:58-61 | `rawValue[key] as? Int` is present exactly when the key holds an integer, and is then that integer |
| PropertyStore.UInt32At | Sources/ImageMetadata/ImageMetadata.swift:78-81 | `as? UInt32` is present exactly when the key holds an integer in 0 ..< 2^32 |
| PropertyStore.DoubleAt | Sources/ImageMetadata/EXIF/EXIF.swift:8-10 | `as? Double` is present exactly when the key holds a Double, and is then its value |
| PropertyStore.StringAt | Sources/ImageMetadata/EXIF/EXIF.swift:13-15 | `as? String` is present exactly when the key holds a string, and is then that string |
| PropertyStore.BoolAt | Sources/ImageMetadata/ImageMetadata.swift:52-64 | `as? Bool` is present exactly when the key holds a boolean |
| PropertyStore.DictAt | Sources/ImageMetadata/EXIF/EXIF.swift:469-471 | `as? NSDictionary` is present exactly when the key holds a dictionary, and is then that dictionary |
| PropertyStore.IntArrayAt | Sources/ImageMetadata/EXIF/EXIF.swift:219 | `as? [Int]` is present exactly when every element is an integer, and keeps them in order |
| PropertyStore.StringArrayAt | Sources/ImageMetadata/IPTC/IPTC.swift:240-243 | `as? [String]` is present exactly when every element is a string, and keeps them in order |
| PropertyStore.DottedText | Sources/ImageMetadata/EXIF/EXIF.swift:433-438 | definition: each element's description, joined with "."; stated by `PropertyStore.DottedTextOfInts`, `PropertyStore.DottedTextInjective` and `PropertyStore.DottedTextExamples` |
| PropertyStore.DottedTextOfInts | Sources/ImageMetadata/EXIF/EXIF.swift:433-438 | the dotted version text of an integer array splits at "." back into its components |
| PropertyStore.DottedTextExamples | Sources/ImageMetadata/EXIF/EXIF.swift:433-438 | [2, 3, 2] joins to "2.3.2" and [1, 0] to "1.0" |
| PropertyStore.DottedTextInjective | Sources/ImageMetadata/EXIF/EXIF.swift:433-438 | two integer arrays with the same dotted version text are equal |
| Fields.Derive | Sources/ImageMetadata/EXIF/EXIF.swift:8-61 | definition: the getter shapes every family view uses, one case per shape; stated by `Fields.LookupPassthrough`, `Fields.DecodedAbsent`, `Fields.AuxiliaryOrPrimaryFallback`, `Fields.DateAndTimeInput`, `Fields.NonBlankStringsRule`, `Fields.SceneListRule`, `Fields.ContactInfoRule` and `Fields.EmptyDerivesNothing` |
| Fields.DecodeCode | Sources/ImageMetadata/EXIF/EXIF.swift:58-61 | an enum property decodes a code to the variant of that table carrying it, and is absent when none does |
| Fields.NonEmptyIsEmpty | Sources/ImageMetadata/IPTC/IPTC.swift:57-60 | the empty-entry filter leaves nothing exactly when every entry is empty |
| Fields.DecodeScenes | Sources/ImageMetadata/IPTC/IPTC.swift:136-140 | `compactMap` over `Scene(rawValue:)` keeps exactly the scenes whose code occurs in the input |
| Fields.DecodeScenesAppend | Sources/ImageMetadata/IPTC/IPTC.swift:136-140 | scene decoding keeps input order: it distributes over concatenation |
| Fields.ContactInfoOf | Sources/ImageMetadata/IPTC/IPTC.swift:266-281 | the contact map holds exactly the known keys whose value is a String, with those values |
| Fields.DecodedAbsent | Sources/ImageMetadata/EXIF/EXIF.swift:58-61 | an enum property is absent exactly when the key is missing, is not an `Int`, or holds an unknown code |
| Fields.DecodedEncodesLabel | Sources/ImageMetadata/EXIF/EXIF.swift:604-689 | a present enum property is encoded as its `description`, and its variant carries the stored code |
| Fields.AuxiliaryOrPrimaryFallback | Sources/ImageMetadata/EXIF/EXIF.swift:493-499 | the auxiliary-dictionary string wins; the primary string is the fallback; otherwise the property is absent |
| Fields.AuxiliaryNeedsDictionary | Sources/ImageMetadata/EXIF/EXIF.swift:473-514 | an auxiliary-only property is absent when the auxiliary entry is missing or not a dictionary |
| Fields.DateAndTimeInput | Sources/ImageMetadata/IPTC/IPTC.swift:216-224 | a date-and-time property is absent without both strings, and otherwise parses "date time" |
| Fields.LookupPassthrough | Sources/ImageMetadata/EXIF/EXIF.swift:8-15 | a passthrough property is the stored value exactly when that value has the declared type |
| Fields.NonBlankStringsRule | Sources/ImageMetadata/IPTC/IPTC.swift:57-60 | a keyword-style list is present exactly when it is a `[String]` with a non-empty entry, and is then the whole array unchanged |
| Fields.SceneListRule | Sources/ImageMetadata/IPTC/IPTC.swift:136-140 | a scene list is present exactly when it is a `[String]` holding a known code, and is then the decoded scenes |
| Fields.EmptyDerivesNothing | Sources/ImageMetadata/TIFF.swift:9-111 | every derived property is absent when the dictionary is empty |
| Fields.ContactPairsArePresent | Sources/ImageMetadata/IPTC/IPTC.swift:449 | each key/value pair of the encoded contact array is a present contact key followed by its value |
| Fields.ContactPairsHoldEvery | Sources/ImageMetadata/IPTC/IPTC.swift:449 | every present contact key appears in the encoded array, followed by its value |
| Fields.ContactInfoRule | Sources/ImageMetadata/IPTC/IPTC.swift:266-281 | contact info is present exactly when the entry is a dictionary holding a known key with a String value |
| Exif.AuxiliaryProperties | Sources/ImageMetadata/EXIF/EXIF.swift:469-471 | `auxiliaryProperties` is present exactly when the auxiliary entry is a dictionary |
| Exif.Encode | Sources/ImageMetadata/EXIF/EXIF.swift:604-689 | definition: the object of the present properties; what each property holds is stated by the rule lemmas (`Exif.ContrastRule`, `Exif.WhiteBalanceRule`, `Exif.PassthroughRule`, `Exif.EncodesEnumAsLabel`) |
| Exif.ContrastRule | Sources/ImageMetadata/EXIF/EXIF.swift:58-61 | `contrast` is absent exactly when the key is missing, not an `Int`, or outside 0...2; otherwise its variant carries the code |
| Exif.WhiteBalanceRule | Sources/ImageMetadata/EXIF/EXIF.swift:441-444 | `whiteBalance` is absent exactly when the key is missing, not an `Int`, or outside 0...1; otherwise its variant carries the code |
| Exif.EncodesEnumAsLabel | Sources/ImageMetadata/EXIF/EXIF.swift:604-689 | every encoded enum property is written as its label, never as its raw code |
| Exif.VersionExample | Tests/ImageMetadataTests/EXIFTests.swift:340-341 | the version [2, 3, 2] reads "2.3.2" |
| Exif.FlashPixVersionExample | Tests/ImageMetadataTests/EXIFTests.swift:119-120 | the FlashPix version [1, 0] reads "1.0" |
| Exif.VersionRecoversComponents | Sources/ImageMetadata/EXIF/EXIF.swift:433-438 | an integer version's text splits back into its components |
| Exif.LensModelFallback | Sources/ImageMetadata/EXIF/EXIF.swift:493-495 | `lensModel` prefers the auxiliary string, falls back to the primary one, and is absent only without both |
| Exif.LensSerialNumberFallback | Sources/ImageMetadata/EXIF/EXIF.swift:497-499 | `lensSerialNumber` falls back from the auxiliary to the primary dictionary in the same way |
| Exif.AuxiliaryOnlyAbsent | Sources/ImageMetadata/EXIF/EXIF.swift:473-514 | the seven auxiliary-only properties are absent when there is no auxiliary dictionary |
| Exif.PassthroughRule | Sources/ImageMetadata/EXIF/EXIF.swift:8-36 | Double, Int, String and `[Int]` properties are the stored value exactly when it has the declared type |
| Exif.DatesNeedString | Sources/ImageMetadata/EXIF/EXIF.swift:73-84 | the two dates are the `dateFormatter` parse of their string, and absent without one |
| Iptc.Encode | Sources/ImageMetadata/IPTC/IPTC.swift:434-483 | definition, corrected at the two dates: the object of the present properties; what each holds is stated by the rule lemmas (`Iptc.KeywordsRule`, `Iptc.SceneCodesRule`, `Iptc.CreationDateRule`, `Iptc.ReleaseAndExpirationDateRule`) |
| Iptc.CodingKey.SourceAsWritten | Sources/ImageMetadata/IPTC/IPTC.swift:168-187 | definition: each property's derivation as written, the date key read for both halves of `releaseDate` and `expirationDate`; stated by `Iptc.ReleaseAndExpirationReadOneKey` and `Iptc.EncodeAsWrittenDiffersInDates` |
| Iptc.EncodeAsWritten | Sources/ImageMetadata/IPTC/IPTC.swift:168-187 | as written: the object of the present properties when `releaseDate` and `expirationDate` read their date key for both halves |
| Iptc.EncodeAsWrittenDiffersInDates | Sources/ImageMetadata/IPTC/IPTC.swift:434-483 | the as-written and corrected IPTC objects agree on every key except `releaseDate` and `expirationDate` |
| Iptc.ContactInfoStep | Sources/ImageMetadata/IPTC/IPTC.swift:266-281 | visiting one more dictionary entry sets, overwrites or removes exactly one contact slot |
| Iptc.CollectContactInfo | Sources/ImageMetadata/IPTC/IPTC.swift:266-281 | the `reduce(into:)` loop collects exactly the known keys with String values |
| Iptc.CreatorContactInfo | Sources/ImageMetadata/IPTC/IPTC.swift:266-281 | `creatorContactInfo` is present exactly when the entry is a dictionary with some collected contact, and is then that collection |
| Iptc.CreatorContactInfoAgrees | Sources/ImageMetadata/IPTC/IPTC.swift:266-281 | the encoded property agrees with the loop's result |
| Iptc.KeywordsRule | Sources/ImageMetadata/IPTC/IPTC.swift:57-60 | `keywords` is present exactly when some entry is non-empty, and is then the array unchanged, empty entries included |
| Iptc.KeywordsExamples | Sources/ImageMetadata/IPTC/IPTC.swift:57-60 | ["a", ""] stays ["a", ""]; ["", ""] and [] give no keywords |
| Iptc.SceneCodesRule | Sources/ImageMetadata/IPTC/IPTC.swift:136-140 | `sceneCodes` is present exactly when some stored code is known, and is then the known scenes in order |
| Iptc.EncodesScenesAsCodes | Sources/ImageMetadata/IPTC/IPTC.swift:434-483 | scene codes are encoded as their raw code strings |
| Iptc.CreationDateRule | Sources/ImageMetadata/IPTC/IPTC.swift:216-224 | `creationDate` needs both the date and time strings, and is then the parse of "date time" |
| Iptc.DigitalCreationDateRule | Sources/ImageMetadata/IPTC/IPTC.swift:227-235 | `digitalCreationDate` needs both of its strings, and is then the parse of "date time" |
| Iptc.ReleaseAndExpirationReadOneKey | Sources/ImageMetadata/IPTC/IPTC.swift:168-187 | as written, the release and expiration dates read their date key for both halves |
| Iptc.ReleaseAndExpirationDateRule | Sources/ImageMetadata/IPTC/IPTC.swift:168-187 | corrected, each date pairs its date key with its own time key, and needs both |
| Iptc.ReleaseTimeIgnoredAsWritten | Sources/ImageMetadata/IPTC/IPTC.swift:168-176 | on a concrete record, the as-written release date ignores the release time and exists without one; the corrected date does neither |
| Iptc.BylinePassthrough | Sources/ImageMetadata/IPTC/IPTC.swift:240-243 | `byline` is present exactly when the value is a `[String]`, and is then that array unfiltered |
| Tiff.Encode | Sources/ImageMetadata/TIFF.swift:154-177 | definition: the object of the present properties; what each holds is stated by `Tiff.DateTimeRule` and `Tiff.EmptyEncodesEmpty` |
| Tiff.OrientationIsRawInt | Sources/ImageMetadata/TIFF.swift:27-29 | TIFF `orientation` is the stored `Int`, encoded as a number and not as a label |
| Tiff.LookupsAreTyped | Sources/ImageMetadata/TIFF.swift:32-62 | properties are read with their declared Swift types: `xResolution` a Double, `tileWidth` a String, `whitePoint` an Int |
| Tiff.DateTimeRule | Sources/ImageMetadata/TIFF.swift:85-89 | `dateTime` is the `dateFormatter` parse of its string, and absent without one |
| Tiff.EmptyEncodesEmpty | Sources/ImageMetadata/TIFF.swift:154-177 | an empty dictionary encodes as an empty object |
| Gps.KeysListed | Sources/ImageMetadata/GPS/GPS.swift:74-83 | the key order lists every coding key |
| Gps.Encode | Sources/ImageMetadata/GPS/GPS.swift:85-95 | the encoded object holds exactly the present properties, each under its own key |
| Gps.EncodeTo | Sources/ImageMetadata/GPS/GPS.swift:85-95 | the sequence of `encodeIfPresent` calls builds exactly the encoded object |
| Gps.DateNeedsBothStamps | Sources/ImageMetadata/GPS/GPS.swift:60-63 | `date` is absent when either the date stamp or the time stamp is missing |
| Gps.DateParsesJoinedStamps | Sources/ImageMetadata/GPS/GPS.swift:60-70 | with both stamps, `date` is the UTC parse of "dateStamp timeStamp" |
| Gps.KeyNames | Sources/ImageMetadata/GPS/GPS.swift:74-83 | `date` is encoded under "dateTime", and the two stamps are not encoded at all |
| Gps.EncodedKeys | Sources/ImageMetadata/GPS/GPS.swift:85-95 | at most eight keys are written, and "dateTime" is written exactly when `date` exists |
| ImageMetadata.FromRawValue | Sources/ImageMetadata/ImageMetadata.swift:128-130 | `init(rawValue:)` keeps the dictionary, selects all options, and has no content type and no image file |
| ImageMetadata.BoolOrFalse | Sources/ImageMetadata/ImageMetadata.swift:52-64 | `hasAlpha`, `isFloat` and `isIndexed` are true exactly when the key holds `true` |
| ImageMetadata.MemorySize | Sources/ImageMetadata/ImageMetadata.swift:67-75 | `memorySize` is present exactly when `bytes` is, and is its byte-count text |
| ImageMetadata.Orientation | Sources/ImageMetadata/ImageMetadata.swift:78-81 | `orientation` is present exactly when the key holds a code 1...8, and is the variant carrying it |
| ImageMetadata.ViewsFollowDictionaries | Sources/ImageMetadata/ImageMetadata.swift:99-120 | each family view exists exactly when its key holds a dictionary, and wraps it unchanged; options play no part |
| ImageMetadata.OrderListsEveryKey | Sources/ImageMetadata/ImageMetadata.swift:200-232 | the write order lists all twenty keys; `dpiHeight` is written sixth and `dpiWidth` seventh |
| ImageMetadata.Encode | Sources/ImageMetadata/ImageMetadata.swift:198-233 | corrected, the object holds exactly the present properties, each under its own key with its own entry |
| ImageMetadata.WriteOrderBuilds | Sources/ImageMetadata/ImageMetadata.swift:200-232 | for any entries per key, writing them in source order builds exactly the object of the present ones |
| ImageMetadata.EncodeInWriteOrder | Sources/ImageMetadata/ImageMetadata.swift:200-232 | writing the present properties in source order builds exactly that object |
| ImageMetadata.EncodeTo | Sources/ImageMetadata/ImageMetadata.swift:198-233 | the corrected run of twenty writes builds exactly that object |
| ImageMetadata.MoveWidth | Sources/ImageMetadata/ImageMetadata.swift:205-206 | moving the width entry onto the height key leaves no width, puts the width (else the height) under height, and changes nothing else |
| ImageMetadata.MoveWidthCommutes | Sources/ImageMetadata/ImageMetadata.swift:200-232 | a write to any other key commutes with that move |
| ImageMetadata.EncodeAsWritten | Sources/ImageMetadata/ImageMetadata.swift:198-233 | as written before the width write: the present entries, with `iptc` holding the as-written IPTC object |
| ImageMetadata.EncodeAsWrittenDiffersInIptc | Sources/ImageMetadata/ImageMetadata.swift:220-222 | those entries agree with the corrected ones except at `iptc`, which is written in both or in neither and then holds the as-written IPTC encoding |
| ImageMetadata.EncodeToAsWritten | Sources/ImageMetadata/ImageMetadata.swift:198-233 | as written, the twenty writes build those entries with the width moved onto the height key |
| ImageMetadata.ResolutionWriteAsWritten | Sources/ImageMetadata/ImageMetadata.swift:205-206 | before any width is written, the height write and the misdirected width write both land on the height key |
| ImageMetadata.AsWrittenStep | Sources/ImageMetadata/ImageMetadata.swift:198-233 | each as-written write is the corrected write followed by the move |
| ImageMetadata.AsWrittenLosesWidth | Sources/ImageMetadata/ImageMetadata.swift:205-206 | as written, `dpiWidth` never appears, and `dpiHeight` holds the width whenever there is one |
| ImageMetadata.DpiExampleReads | Sources/ImageMetadata/ImageMetadata.swift:42-49 | a dictionary with DPIHeight 72 and DPIWidth 300 reads back height 72 and width 300 |
| ImageMetadata.AsWrittenExample | Sources/ImageMetadata/ImageMetadata.swift:205-206 | as written, height 72 and width 300 give `dpiHeight` 300 and no `dpiWidth` |
| ImageMetadata.CorrectedExample | Sources/ImageMetadata/ImageMetadata.swift:205-206 | corrected, the same image gives `dpiHeight` 72 and `dpiWidth` 300 |
| ImageMetadata.ExifIsGated | Sources/ImageMetadata/ImageMetadata.swift:216-218 | `exif` is written exactly when the options contain `exif` and the view exists, and is then the view's encoding |
| ImageMetadata.IptcIsGated | Sources/ImageMetadata/ImageMetadata.swift:220-222 | `iptc` is written exactly when the options contain `iptc` and the view exists |
| ImageMetadata.TiffIsGated | Sources/ImageMetadata/ImageMetadata.swift:224-226 | `tiff` is written exactly when the options contain `tiff` and the view exists |
| ImageMetadata.GpsIsGated | Sources/ImageMetadata/ImageMetadata.swift:228-230 | `gps` is written exactly when the options contain `gps` and the view exists |
| ImageMetadata.FlagsAlwaysEncoded | Sources/ImageMetadata/ImageMetadata.swift:207-209 | the three Boolean flags are always written, with their values |
| ImageMetadata.ImageFileIgnoresOptions | Sources/ImageMetadata/ImageMetadata.swift:232 | `imageFile` is written exactly when there is one, whatever the options |
| ImageMetadata.AllEncodesEveryFamily | Sources/ImageMetadata/ImageMetadata.swift:216-230 | with all options, each family is written exactly when its view exists |
| ImageMetadata.FromRawValueEncodesEveryFamily | Sources/ImageMetadata/ImageMetadata.swift:128-130 | metadata built from a dictionary writes every family whose view exists |
| ImageMetadata.FromRawValueEncodesNoFile | Sources/ImageMetadata/ImageMetadata.swift:128-130 | metadata built from a dictionary writes no content type and no image file |
| ImageMetadata.NoneEncodesNoFamily | Sources/ImageMetadata/ImageMetadata.swift:216-230 | with no options, no family is written |
| ImageMetadata.OrientationEncodedAsDescription | Sources/ImageMetadata/ImageMetadata.swift:211 | `orientation` is written as its label exactly when the orientation is known |
| FileError.CodeFromRawValue | Sources/ImageMetadata/ImageFileError.swift:4-10 | `Code(rawValue:)` returns the code with that number, and is absent when none has it |
| FileError.CodeNumbers | Sources/ImageMetadata/ImageFileError.swift:4-10 | the codes number 0 to 4 in declaration order, and each number decodes back to its code |
| FileError.Init | Sources/ImageMetadata/ImageFileError.swift:16-20 | the initializer stores its three arguments |
| FileError.InitDefaults | Sources/ImageMetadata/ImageFileError.swift:16-20 | the defaults are the unknown code and no underlying error |
| FileError.Equals | Sources/ImageMetadata/ImageFileError.swift:24-28 | definition: `==` needs a known code on one side, then equal URLs and codes; stated by `FileError.UnknownIsNotReflexive` and `FileError.KnownCodeEquivalence` |
| FileError.UnknownIsNotReflexive | Sources/ImageMetadata/ImageFileError.swift:24-28 | an error with the unknown code is not equal to itself |
| FileError.KnownCodeEquivalence | Sources/ImageMetadata/ImageFileError.swift:24-28 | `==` is symmetric and transitive, reflexive on known codes, and ignores the underlying error |
| FileError.ErrorDescription | Sources/ImageMetadata/ImageFileError.swift:33-54 | definition: one text per code, with the URL's absolute string for `accessDenied`, `invalidURL` and a `noSuchFile` without an underlying error; stated by `FileError.DescriptionRule` |
| FileError.DescriptionRule | Sources/ImageMetadata/ImageFileError.swift:33-54 | every error has a description; "no such file" and "unknown" pass on the underlying error's |
| FileError.RecoverySuggestion | Sources/ImageMetadata/ImageFileError.swift:56-68 | definition: a fixed text for the three caller mistakes, otherwise the underlying error's suggestion; stated by `FileError.RecoverySuggestionRule` |
| FileError.RecoverySuggestionRule | Sources/ImageMetadata/ImageFileError.swift:56-68 | caller mistakes always get a suggestion; the other codes pass on the underlying error's |
| FileError.ErrorCode | Sources/ImageMetadata/ImageFileError.swift:74 | `errorCode` is the code's number |
| FileError.ErrorUserInfo | Sources/ImageMetadata/ImageFileError.swift:76-81 | the user info holds the failing URL string, and the underlying error exactly when there is one |
| Files.SecurityScope.constructor | Sources/ImageMetadata/ImageFile.swift:21-30 | a fresh scope has been started and stopped zero times |
| Files.SecurityScope.StartAccessing | Sources/ImageMetadata/ImageFile.swift:27-30 | starting access reports whether the scope grants it, and counts one start |
| Files.SecurityScope.StopAccessing | Sources/ImageMetadata/ImageFile.swift:21-24 | stopping access counts one stop |
| Files.SecurityScope.ReadResourceValues | Sources/ImageMetadata/ImageFile.swift:32-46 | reading the resource values returns the file system's answer |
| Files.Examine | Sources/ImageMetadata/ImageFile.swift:32-39 | definition: a failed read rethrows Foundation's error, a missing or non-image type throws `invalidContentType`, and otherwise the file is built; stated by `Files.Classification` |
| Files.Catch | Sources/ImageMetadata/ImageFile.swift:40-46 | definition: the library's own error passes through, `fileReadNoSuchFile` becomes `noSuchFile` and anything else `unknown`, keeping the error; stated by `Files.Classification` |
| Files.InitOutcome | Sources/ImageMetadata/ImageFile.swift:15-47 | definition: the guard, the access check, then the classified read; stated by `Files.InvalidUrlFirst`, `Files.AccessDeniedBeforeRead`, `Files.Classification` and `Files.SuccessNeedsEverything`, and tied to the method by `Files.Open` |
| Files.Open | Sources/ImageMetadata/ImageFile.swift:15-47 | `init(url:)` returns the outcome of the guard, access and classification steps; every started access is stopped, and a non-file URL starts none |
| Files.InvalidUrlFirst | Sources/ImageMetadata/ImageFile.swift:16-18 | a non-file URL fails with `invalidURL` before anything else |
| Files.AccessDeniedBeforeRead | Sources/ImageMetadata/ImageFile.swift:27-30 | a refused security scope fails with `accessDenied` before the file is read |
| Files.Classification | Sources/ImageMetadata/ImageFile.swift:32-46 | a non-image fails with `invalidContentType`; a read error gives `noSuchFile` or `unknown`, keeping that error |
| Files.SuccessNeedsEverything | Sources/ImageMetadata/ImageFile.swift:15-47 | opening succeeds exactly for a file URL, granted access, a successful read and an image content type |
| Files.ResolvedPath | Sources/ImageMetadata/ImageFile.swift:9-11 | `URL(fileURLWithPath:)` keeps an absolute path unchanged and puts a relative one under the working directory, so the result ends with the given path and is absolute when the working directory is |
| Files.FileUrl | Sources/ImageMetadata/ImageFile.swift:9-11 | definition: `init(path:)` builds a file URL over the resolved path, with its absolute string given; stated by `Files.ResolvedPath` and `Files.PathRoundTrip` |
| Files.PathRoundTrip | Tests/ImageMetadataTests/ImageFileTests.swift:43-47 | a file URL rebuilt from its own absolute path is that URL, whatever the working directory |
| Files.OpenPath | Sources/ImageMetadata/ImageFile.swift:9-11 | opening by path never fails with `invalidURL` |
| Files.Filename | Sources/ImageMetadata/ImageFile.swift:67 | `filename` is the path's last component: a suffix of the path with no "/", preceded by one |
| Files.Basename | Sources/ImageMetadata/ImageFile.swift:70 | definition: the file name without the text from its last dot, when that dot is not its first character; stated by `Files.BasenameIsFilenameStem`, `Files.BasenameBeforeExtension` and `Files.HiddenFileKeepsName` |
| Files.BasenameIsFilenameStem | Sources/ImageMetadata/ImageFile.swift:70 | with an extension (a last dot after the first character), a non-empty basename, a dot and the extension make up the file name; without one the basename is the file name |
| Files.HangInExample | Tests/ImageMetadataTests/ImageFileTests.swift:32-37 | ".../hang-in.jpg" has file name "hang-in.jpg" and basename "hang-in" |
| Files.Path | Sources/ImageMetadata/ImageFile.swift:73 | definition: the URL's path, which is the resolved path for a URL made from a path; stated by `Files.ResolvedPath` and `Files.EncodeWritesNames` |
| Files.Description | Sources/ImageMetadata/ImageFile.swift:85-87 | definition: `description` is the URL's absolute string, the same string the errors of `FileError.ErrorDescription` and `FileError.ErrorUserInfo` show |
| Files.ContentType | Sources/ImageMetadata/ImageFile.swift:76-78 | `contentType` is present exactly when there is a type, and is its identifier |
| Files.FormattedFileSize | Sources/ImageMetadata/ImageFile.swift:56-64 | `formattedFileSize` is present exactly when the size is, and is its byte-count text |
| Files.StringJson | Sources/ImageMetadata/ImageFile.swift:101-105 | an optional string is written exactly when present, as that string |
| Files.Encode | Sources/ImageMetadata/ImageFile.swift:91-106 | definition: the object of the present properties; what it holds is stated by `Files.EncodeWritesNames` and `Files.EncodeWritesOptionals` |
| Files.EncodeWritesNames | Sources/ImageMetadata/ImageFile.swift:101-105 | basename, filename and the URL's path are always written, as strings |
| Files.EncodeWritesOptionals | Sources/ImageMetadata/ImageFile.swift:102-104 | content type and file size are written exactly when present, with their values |
| Files.FilenameAfterDirectory | Sources/ImageMetadata/ImageFile.swift:67 | a name with no "/" appended to a directory, absolute or relative, is the file name |
| Files.BasenameBeforeExtension | Sources/ImageMetadata/ImageFile.swift:70 | a non-empty stem before a dot and an extension without a dot is the basename |
| Files.HiddenFileKeepsName | Sources/ImageMetadata/ImageFile.swift:70 | a name whose only dot is its first character, such as ".hidden", is its own basename |
| Json.EncodeIfPresent | Sources/ImageMetadata/ImageMetadata.swift:200 | definition of one `encodeIfPresent`: the key is written exactly when the value is present; `Json.PresentAmongStep` and `Json.EncodeEachIfPresent` state what a run of them builds |
| Json.PresentAmong | Sources/ImageMetadata/ImageMetadata.swift:198-233 | definition: the listed keys whose value is present, with those values; `Json.PresentAmongStep` ties it to `encodeIfPresent` |
| Json.PresentAmongStep | Sources/ImageMetadata/ImageMetadata.swift:198-233 | listing one more key is one more `encodeIfPresent` |
| Json.EncodeEachIfPresent | Sources/ImageMetadata/ImageMetadata.swift:198-233 | a run of `encodeIfPresent` calls writes exactly the keys whose value is present |

## Left out

- Date parsing and byte-count formatting are Foundation services. They are parameters of every member that uses them, so no calendar arithmetic is modelled.
- Doubles are carried as opaque text. `bytesMeasurement` is left out because it is floating-point arithmetic, and so are all numeric comparisons of Doubles.
- `PropertyStore.Describe` gives the empty string for a nested array or dictionary inside a version array. Foundation's description of such values is not modelled.
- `Fields.ToJson` writes the creator contact map as Swift's alternating key/value array, in the declaration order of the keys. Swift's `Dictionary` iteration order is unspecified, so the real output order may differ.
- `IptcNewsCode.Scene.Definition` carries the definitions, but no property is proved about the text.
- `ImageMetadata.init(url:options:)`, `init(imageFile:options:)` and `init(imageSource:options:)` (`ImageMetadata.swift:139-170`) call `CGImageSource`, which is foreign code, and `MetadataError` belongs to them. The model has `init(rawValue:)`, and takes the options, content type and image file those initialisers set as fields of the record.
- `GPS+CoreLocation.swift`, the `imgmd` command-line tool, the `CGImagePropertyOrientation` labels and localisation are outside the modelled core.
- `UTType` conformance to `.image` and a thrown error's being `fileReadNoSuchFile` are data of the model, not computed.
- `Files.Basename` drops the text from the last dot when that dot is not the first character. Foundation's `deletingPathExtension` has further rules (a trailing dot, extensions containing spaces or slashes) that are not modelled.
- `PropertyStore.IntAt` reads only values tagged as integers. A bridged `NSNumber` also reads `as? Int` when it holds an integral Double or a `CFBoolean`; that is not modelled, and every rule built on it inherits the exact reading.
- `PropertyStore.UInt32At` reads only integers in range. A bridged integral Double that fits is not read, and `ImageMetadata.Orientation` inherits that.
- `PropertyStore.DoubleAt` reads only values tagged as Doubles. A bridged integer `NSNumber` also reads `as? Double`; that is not modelled.
- `PropertyStore.BoolAt` reads only values tagged as booleans. A bridged `NSNumber` 0 or 1 also reads `as? Bool`; that is not modelled, so `ImageMetadata.BoolOrFalse` (`hasAlpha`, `isFloat`, `isIndexed`) inherits the exact reading.
- `PropertyStore.IntArrayAt` reads only arrays of integer-tagged values. Under bridging, an array of integral Doubles also reads `as? [Int]`.
- `Iptc.CreatorContactInfo` takes the contact dictionary's keys to be the literal strings of `IPTC.CreatorContactKey`. Whether ImageIO's dictionary uses those strings is foreign, and the model does not decide it.
- `Files.Filename` takes the text after the last "/" of the path. Foundation's `lastPathComponent` treats trailing slashes and the root path specially, and that is not modelled.
- `Files.FileUrl` takes the working directory and the URL's `absoluteString` as parameters. Percent-encoding the path into `absoluteString`, the trailing slash of a directory URL, and standardising `.` and `..` in a path are Foundation's work and are not modelled.
- `Options` proves the flag facts the encoder needs. General `OptionSet` algebra, such as the union laws, is not proved.
- `Exif.Encode`, `Iptc.Encode`, `Tiff.Encode` and `Files.Encode` are map comprehensions over all coding keys. The source writes them one `encodeIfPresent` at a time, and the order of writes to distinct keys does not change the object. `Gps.EncodeTo` and `ImageMetadata.EncodeTo` keep the write sequence as a loop.
- JSON serialisation itself (`JSONEncoder`, key strategies, date encoding strategy) is not modelled. An encoded object is a map from coding key to value.

## Findings

| source | as written | input that shows it | evidently intended | confidence | as-written member | corrected member |
|---|---|---|---|---|---|---|
| Sources/ImageMetadata/ImageMetadata.swift:206 | `dpiWidth` is written under the `dpiHeight` key, so it overwrites the height and no width is ever written | a dictionary with DPIHeight 72 and DPIWidth 300 encodes `dpiHeight: 300` and no `dpiWidth` | `dpiWidth` written under its own key | not executed | ImageMetadata.EncodeToAsWritten | ImageMetadata.EncodeTo |
| Sources/ImageMetadata/IPTC/IPTC.swift:168-187 | `releaseDate` and `expirationDate` read the date key twice, once for the date and once for the time, and never read the time key | ReleaseDate "20240102" with ReleaseTime "103000" parses "20240102 20240102"; without any ReleaseTime a date is still produced | the date key paired with `kCGImagePropertyIPTCReleaseTime` (resp. `ExpirationTime`), as `creationDate` pairs date and time | not executed | Iptc.ReleaseTimeIgnoredAsWritten | Iptc.ReleaseAndExpirationDateRule |
