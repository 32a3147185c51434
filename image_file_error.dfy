/**
 * `ImageFileError`: the error `ImageFile`'s initialiser throws. It carries
 * the URL, a code and an optional Foundation error; equality looks at the URL
 * and the code only, and two errors with the unknown code are never equal.
 */
module FileError {
  import opened Wrappers
  import opened Foundation

  /** `ImageFileError.Code`, an `Int` raw-value enum numbered from 0. */
  datatype Code = AccessDenied | InvalidContentType | InvalidURL | NoSuchFile | Unknown
  {
    function RawValue(): (n: int)
      ensures 0 <= n <= 4
    {
      match this
      case AccessDenied => 0
      case InvalidContentType => 1
      case InvalidURL => 2
      case NoSuchFile => 3
      case Unknown => 4
    }
  }

  /** `Code(rawValue:)` */
  function CodeFromRawValue(n: int): (r: Option<Code>)
    ensures r.Some? ==> r.value.RawValue() == n
    ensures r.None? ==> forall c: Code :: c.RawValue() != n
  {
    if n == 0 then Some(AccessDenied)
    else if n == 1 then Some(InvalidContentType)
    else if n == 2 then Some(InvalidURL)
    else if n == 3 then Some(NoSuchFile)
    else if n == 4 then Some(Unknown)
    else None
  }

  /** The codes are numbered 0 to 4 in declaration order, and each code's number decodes to it. */
  lemma CodeNumbers(c: Code)
    ensures CodeFromRawValue(c.RawValue()) == Some(c)
    ensures AccessDenied.RawValue() == 0 && InvalidContentType.RawValue() == 1 && InvalidURL.RawValue() == 2
    ensures NoSuchFile.RawValue() == 3 && Unknown.RawValue() == 4
  {
  }

  datatype ImageFileError = ImageFileError(url: Url, code: Code, underlyingError: Option<UnderlyingError>)

  /** `init(_:code:underlyingError:)`, whose code defaults to `.unknown` and error to nil. */
  function Init(url: Url, code: Code := Unknown, underlyingError: Option<UnderlyingError> := None): (e: ImageFileError)
    ensures e.url == url && e.code == code && e.underlyingError == underlyingError
  {
    ImageFileError(url, code, underlyingError)
  }

  /** The defaults: an error made from a URL alone has the unknown code and no underlying error. */
  lemma InitDefaults(url: Url)
    ensures Init(url) == ImageFileError(url, Unknown, None)
    ensures Init(url, NoSuchFile).underlyingError.None?
  {
  }

  /** `==`: false when both codes are unknown, otherwise the URLs and the codes agree. */
  predicate Equals(lhs: ImageFileError, rhs: ImageFileError) {
    if lhs.code == Unknown && rhs.code == Unknown then false
    else lhs.url == rhs.url && lhs.code == rhs.code
  }

  /** An error with the unknown code is not equal to itself. */
  lemma UnknownIsNotReflexive(e: ImageFileError)
    requires e.code == Unknown
    ensures !Equals(e, e)
  {
  }

  /**
   * With a known code, `==` is an equivalence on (URL, code): reflexive,
   * symmetric, transitive, and blind to the underlying error.
   */
  lemma KnownCodeEquivalence(a: ImageFileError, b: ImageFileError, c: ImageFileError)
    ensures a.code != Unknown ==> Equals(a, a)
    ensures Equals(a, b) <==> Equals(b, a)
    ensures Equals(a, b) && Equals(b, c) ==> Equals(a, c)
    ensures Equals(a, b) <==> a.code != Unknown && a.url == b.url && a.code == b.code
    ensures a.code != Unknown ==> Equals(a, a.(underlyingError := b.underlyingError))
  {
  }

  /** `errorDescription` (it is never nil). */
  function ErrorDescription(e: ImageFileError): Option<string> {
    match e.code
    case AccessDenied => Some("Cannot access " + e.url.absoluteString)
    case InvalidURL => Some(e.url.absoluteString + " is not a file URL.")
    case InvalidContentType => Some("Invalid content type.")
    case NoSuchFile =>
      (match e.underlyingError
       case Some(u) => Some(u.localizedDescription)
       case None => Some("The file '" + e.url.absoluteString + "' couldn’t be opened because it doesn’t exist."))
    case Unknown =>
      (match e.underlyingError
       case Some(u) => Some(u.localizedDescription)
       case None => Some("An unknown error occurred."))
  }

  /**
   * Every error has a description. For "no such file" and "unknown" it is
   * the underlying error's own description when there is one; the other
   * codes ignore the underlying error.
   */
  lemma DescriptionRule(e: ImageFileError)
    ensures ErrorDescription(e).Some?
    ensures e.code in {NoSuchFile, Unknown} && e.underlyingError.Some? ==>
      ErrorDescription(e).value == e.underlyingError.value.localizedDescription
    ensures e.code in {AccessDenied, InvalidURL, InvalidContentType} ==>
      ErrorDescription(e) == ErrorDescription(e.(underlyingError := None))
    ensures var s := ErrorDescription(e).value; var u := e.url.absoluteString;
      e.code == AccessDenied ==> |u| <= |s| && s[|s| - |u|..] == u
    ensures var s := ErrorDescription(e).value; var u := e.url.absoluteString;
      e.code == InvalidURL ==> |u| <= |s| && s[..|u|] == u
  {
  }

  /** `recoverySuggestion` */
  function RecoverySuggestion(e: ImageFileError): Option<string> {
    match e.code
    case AccessDenied => Some("Please select a file you have permission to access.")
    case InvalidURL => Some("Please select a valid file.")
    case InvalidContentType => Some("Please select an image file.")
    case _ =>
      (match e.underlyingError
       case None => None
       case Some(u) => u.localizedRecoverySuggestion)
  }

  /**
   * The three caller mistakes always have a suggestion; the other codes
   * pass on the underlying error's suggestion, and have none without an
   * underlying error.
   */
  lemma RecoverySuggestionRule(e: ImageFileError)
    ensures e.code in {AccessDenied, InvalidURL, InvalidContentType} ==> RecoverySuggestion(e).Some?
    ensures e.code in {NoSuchFile, Unknown} ==>
      RecoverySuggestion(e) == (if e.underlyingError.Some? then e.underlyingError.value.localizedRecoverySuggestion else None)
  {
  }

  /** `errorDomain` */
  const ErrorDomain: string := "com.designedbyclowns.ImageMD"

  /** `errorCode`: the code's raw value. */
  function ErrorCode(e: ImageFileError): (n: int)
    ensures CodeFromRawValue(n) == Some(e.code)
  {
    CodeNumbers(e.code);
    e.code.RawValue()
  }

  /** A value in `errorUserInfo`. */
  datatype UserInfoValue = UrlString(text: string) | Underlying(error: UnderlyingError)

  const FailingUrlStringKey: string := "NSErrorFailingURLStringKey"
  const UnderlyingErrorKey: string := "NSUnderlyingError"

  /**
   * `errorUserInfo`: starts empty, stores the URL string, then assigns the
   * optional underlying error (assigning nil leaves the key out).
   */
  method ErrorUserInfo(e: ImageFileError) returns (info: map<string, UserInfoValue>)
    ensures info.Keys == {FailingUrlStringKey} + (if e.underlyingError.Some? then {UnderlyingErrorKey} else {})
    ensures info[FailingUrlStringKey] == UrlString(e.url.absoluteString)
    ensures e.underlyingError.Some? ==> info[UnderlyingErrorKey] == Underlying(e.underlyingError.value)
  {
    info := map[];
    info := info[FailingUrlStringKey := UrlString(e.url.absoluteString)];
    match e.underlyingError {
      case Some(u) => info := info[UnderlyingErrorKey := Underlying(u)];
      case None => info := info - {UnderlyingErrorKey};
    }
  }
}
