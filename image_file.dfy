/**
 * `ImageFile`: a file URL checked to name an image. Its initialiser is the
 * one imperative piece of the library: it rejects non-file URLs, then
 * acquires security-scoped access (released by a `defer` on every later
 * exit), reads the content type and size, and sorts what can go wrong into
 * `ImageFileError` codes.
 */
module Files {
  import opened Wrappers
  import opened Foundation
  import opened Json
  import Text
  import opened FileError

  datatype ImageFile = ImageFile(url: Url, utType: Option<UTType>, fileSize: Option<int>)

  /** The answer of `url.resourceValues(forKeys: [.contentTypeKey, .fileSizeKey])`. */
  datatype ResourceValues = ResourceValues(contentType: Option<UTType>, fileSize: Option<int>)

  /** What the `do` block throws: its own `ImageFileError`, or an error from Foundation. */
  datatype Thrown = OwnError(fileError: ImageFileError) | FoundationError(error: UnderlyingError)

  /**
   * The file system as the initialiser sees it: whether starting access is
   * granted, what reading the resource values gives, and how many times
   * access has been started and stopped.
   */
  class SecurityScope {
    const grantsAccess: bool
    const resourceValues: Result<ResourceValues, UnderlyingError>
    ghost var starts: nat
    ghost var stops: nat

    constructor (grantsAccess: bool, resourceValues: Result<ResourceValues, UnderlyingError>)
      ensures this.grantsAccess == grantsAccess && this.resourceValues == resourceValues
      ensures starts == 0 && stops == 0
    {
      this.grantsAccess := grantsAccess;
      this.resourceValues := resourceValues;
      starts := 0;
      stops := 0;
    }

    /** `url.startAccessingSecurityScopedResource()` */
    method StartAccessing() returns (granted: bool)
      modifies this
      ensures granted == grantsAccess
      ensures starts == old(starts) + 1 && stops == old(stops)
    {
      starts := starts + 1;
      granted := grantsAccess;
    }

    /** `url.stopAccessingSecurityScopedResource()` */
    method StopAccessing()
      modifies this
      ensures stops == old(stops) + 1 && starts == old(starts)
    {
      stops := stops + 1;
    }

    /** `url.resourceValues(forKeys:)` */
    method ReadResourceValues() returns (r: Result<ResourceValues, UnderlyingError>)
      ensures r == resourceValues
    {
      r := resourceValues;
    }
  }

  /** The `do` block: the content type must be present and conform to `.image`. */
  function Examine(url: Url, read: Result<ResourceValues, UnderlyingError>): Result<ImageFile, Thrown> {
    match read
    case Failure(u) => Failure(FoundationError(u))
    case Success(values) =>
      if values.contentType.None? || !values.contentType.value.conformsToImage then
        Failure(OwnError(Init(url, InvalidContentType)))
      else
        Success(ImageFile(url, values.contentType, values.fileSize))
  }

  /** The three `catch` clauses, tried in order. */
  function Catch(url: Url, thrown: Thrown): ImageFileError {
    match thrown
    case OwnError(e) => e
    case FoundationError(u) =>
      if u.isFileReadNoSuchFile then Init(url, NoSuchFile, Some(u)) else Init(url, Unknown, Some(u))
  }

  /** What `init(url:)` returns or throws, given the two answers of the file system. */
  function InitOutcome(url: Url, granted: bool, read: Result<ResourceValues, UnderlyingError>): Result<ImageFile, ImageFileError> {
    if !url.isFileURL then Failure(Init(url, InvalidURL))
    else if !granted then Failure(Init(url, AccessDenied))
    else
      match Examine(url, read)
      case Success(file) => Success(file)
      case Failure(thrown) => Failure(Catch(url, thrown))
  }

  /**
   * `init(url:)`. The file-URL guard comes before the `defer` is
   * registered, so a non-file URL neither starts nor stops access; past the
   * guard, access is started once and stopped exactly once, on success and
   * on every throw alike.
   */
  method Open(url: Url, scope: SecurityScope) returns (r: Result<ImageFile, ImageFileError>)
    modifies scope
    ensures r == InitOutcome(url, scope.grantsAccess, scope.resourceValues)
    ensures !url.isFileURL ==> scope.starts == old(scope.starts) && scope.stops == old(scope.stops)
    ensures url.isFileURL ==> scope.starts == old(scope.starts) + 1 && scope.stops == old(scope.stops) + 1
  {
    if !url.isFileURL {
      return Failure(Init(url, InvalidURL));
    }
    var granted := scope.StartAccessing();
    if !granted {
      r := Failure(Init(url, AccessDenied));
    } else {
      var read := scope.ReadResourceValues();
      match Examine(url, read) {
        case Success(file) => r := Success(file);
        case Failure(thrown) => r := Failure(Catch(url, thrown));
      }
    }
    // the deferred release, reached from every exit after the guard
    scope.StopAccessing();
  }

  /** A non-file URL is rejected before anything else is looked at. */
  lemma InvalidUrlFirst(url: Url, granted: bool, read: Result<ResourceValues, UnderlyingError>)
    requires !url.isFileURL
    ensures InitOutcome(url, granted, read) == Failure(ImageFileError(url, InvalidURL, None))
  {
  }

  /** Refused access throws "access denied" before the resource values are read. */
  lemma AccessDeniedBeforeRead(url: Url, read: Result<ResourceValues, UnderlyingError>)
    requires url.isFileURL
    ensures InitOutcome(url, false, read) == Failure(ImageFileError(url, AccessDenied, None))
  {
  }

  /**
   * Past the two guards: a missing or non-image content type throws "invalid
   * content type" (rethrown unchanged by the first `catch`); a "no such file"
   * read error becomes noSuchFile carrying it; any other read error becomes
   * unknown carrying it; otherwise the file holds exactly the values read.
   */
  lemma Classification(url: Url, read: Result<ResourceValues, UnderlyingError>)
    requires url.isFileURL
    ensures read.Success? ==>
      var v := read.value;
      (v.contentType.None? || !v.contentType.value.conformsToImage ==>
        InitOutcome(url, true, read) == Failure(ImageFileError(url, InvalidContentType, None)))
      && (v.contentType.Some? && v.contentType.value.conformsToImage ==>
        InitOutcome(url, true, read) == Success(ImageFile(url, v.contentType, v.fileSize)))
    ensures read.Failure? ==>
      InitOutcome(url, true, read) ==
        Failure(ImageFileError(url, if read.error.isFileReadNoSuchFile then NoSuchFile else Unknown, Some(read.error)))
  {
  }

  /** Success happens only for a file URL with access granted and an image content type. */
  lemma SuccessNeedsEverything(url: Url, granted: bool, read: Result<ResourceValues, UnderlyingError>)
    ensures InitOutcome(url, granted, read).Success? <==>
      url.isFileURL && granted && read.Success? && read.value.contentType.Some? && read.value.contentType.value.conformsToImage
    ensures InitOutcome(url, granted, read).Success? ==>
      InitOutcome(url, granted, read).value.url == url && InitOutcome(url, granted, read).value.utType.Some?
  {
  }

  /** Whether a path is absolute: it starts with "/". */
  predicate IsAbsolute(path: string) {
    |path| > 0 && path[0] == '/'
  }

  /**
   * The path a file URL made from `path` keeps: `path` itself when it is
   * absolute, otherwise `path` under the working directory `cwd`.
   */
  function ResolvedPath(cwd: string, path: string): (p: string)
    ensures IsAbsolute(path) ==> p == path
    ensures IsAbsolute(cwd) ==> IsAbsolute(p)
    ensures |path| <= |p| && p[|p| - |path|..] == path
    ensures !IsAbsolute(path) ==> |p| == |cwd| + 1 + |path| && p[..|cwd|] == cwd && p[|cwd|] == '/'
  {
    if IsAbsolute(path) then path else cwd + ['/'] + path
  }

  /**
   * `URL(fileURLWithPath:)`, with the working directory `cwd`: a file URL over
   * the resolved path. Its `absoluteString` percent-encodes that path, which is
   * Foundation's work, so it is given.
   */
  function FileUrl(cwd: string, path: string, absoluteString: string): (u: Url)
    ensures u.isFileURL && u.path == ResolvedPath(cwd, path) && u.absoluteString == absoluteString
  {
    Url(true, ResolvedPath(cwd, path), absoluteString)
  }

  /**
   * A file URL rebuilt from its own absolute path is the same URL, whatever the
   * working directory: `init(path: url.path)` opens `url` itself.
   */
  lemma PathRoundTrip(cwd: string, u: Url)
    requires u.isFileURL && IsAbsolute(u.path)
    ensures FileUrl(cwd, u.path, u.absoluteString) == u
  {
  }

  /** `init(path:)`: never fails with "invalid URL". */
  method OpenPath(cwd: string, path: string, absoluteString: string, scope: SecurityScope)
    returns (r: Result<ImageFile, ImageFileError>)
    modifies scope
    ensures r == InitOutcome(FileUrl(cwd, path, absoluteString), scope.grantsAccess, scope.resourceValues)
    ensures r.Failure? ==> r.error.code != InvalidURL
    ensures scope.starts == old(scope.starts) + 1 && scope.stops == old(scope.stops) + 1
  {
    r := Open(FileUrl(cwd, path, absoluteString), scope);
  }

  /** `filename`: the last component of the URL's path. */
  function Filename(f: ImageFile): (name: string)
    ensures '/' !in name
    ensures |name| <= |f.url.path| && f.url.path[|f.url.path| - |name|..] == name
    ensures '/' in f.url.path ==> f.url.path[|f.url.path| - |name| - 1] == '/'
  {
    Text.AfterLast(f.url.path, '/')
  }

  /**
   * Whether the last component has an extension: a dot after at least one
   * other character, so that a name like ".hidden" counts as having none.
   */
  predicate HasExtension(name: string) {
    '.' in name && Text.BeforeLast(name, '.') != []
  }

  /** `basename`: the last component with its extension (from its last dot) removed. */
  function Basename(f: ImageFile): string {
    var name := Filename(f);
    if HasExtension(name) then Text.BeforeLast(name, '.') else name
  }

  /**
   * With an extension, the basename, a dot and the extension make up the file
   * name, and the basename is not empty; without one the two are equal.
   */
  lemma BasenameIsFilenameStem(f: ImageFile)
    ensures HasExtension(Filename(f)) ==>
      Filename(f) == Basename(f) + ['.'] + Text.AfterLast(Filename(f), '.') && Basename(f) != []
    ensures !HasExtension(Filename(f)) ==> Basename(f) == Filename(f)
    ensures '/' !in Basename(f)
  {
    var name := Filename(f);
    if HasExtension(name) {
      var stem := Text.BeforeLast(name, '.');
      Text.SplitAtLast(name, '.');
      assert Basename(f) == stem;
      assert stem == name[..|stem|];
      assert forall c :: c in stem ==> c in name;
    }
  }

  /**
   * A file directly inside a directory is named by the text after the
   * directory's "/", whether the directory is absolute or relative.
   */
  lemma FilenameAfterDirectory(cwd: string, dir: string, name: string, a: string, size: Option<int>, t: Option<UTType>)
    requires '/' !in name
    ensures Filename(ImageFile(FileUrl(cwd, dir + ['/'] + name, a), t, size)) == name
  {
    var path := dir + ['/'] + name;
    var head := if IsAbsolute(path) then dir else cwd + ['/'] + dir;
    assert ResolvedPath(cwd, path) == head + ['/'] + name;
    Text.AfterLastOfJoin(head, '/', name);
  }

  /** A file named "stem.ext", with a non-empty stem and no dot in the extension, has basename "stem". */
  lemma BasenameBeforeExtension(f: ImageFile, stem: string, ext: string)
    requires stem != [] && '.' !in ext
    requires Filename(f) == stem + ['.'] + ext
    ensures Basename(f) == stem
  {
    Text.AfterLastOfJoin(stem, '.', ext);
  }

  /** A file named ".name", with no other dot, keeps its whole name as its basename. */
  lemma HiddenFileKeepsName(f: ImageFile, rest: string)
    requires '.' !in rest
    requires Filename(f) == ['.'] + rest
    ensures Basename(f) == Filename(f)
  {
    Text.AfterLastOfJoin([], '.', rest);
    assert Filename(f) == [] + ['.'] + rest;
  }

  /** How the name of the tests' file splits: no "/" in it, and "jpg" after its one dot. */
  lemma HangInName()
    ensures "/hang-in.jpg" == ['/'] + "hang-in.jpg"
    ensures '/' !in "hang-in.jpg" && '.' !in "jpg"
    ensures "hang-in.jpg" == "hang-in" + ['.'] + "jpg"
  {
  }

  /** The file of the tests: "hang-in.jpg", whose basename is "hang-in". */
  lemma HangInExample(cwd: string, dir: string, a: string, size: Option<int>, t: Option<UTType>)
    ensures var f := ImageFile(FileUrl(cwd, dir + "/hang-in.jpg", a), t, size);
      Filename(f) == "hang-in.jpg" && Basename(f) == "hang-in"
  {
    HangInName();
    var f := ImageFile(FileUrl(cwd, dir + "/hang-in.jpg", a), t, size);
    assert dir + "/hang-in.jpg" == dir + ['/'] + "hang-in.jpg";
    FilenameAfterDirectory(cwd, dir, "hang-in.jpg", a, size, t);
    BasenameBeforeExtension(f, "hang-in", "jpg");
  }

  /** `path` */
  function Path(f: ImageFile): string {
    f.url.path
  }

  /** `contentType`: the type's identifier. */
  function ContentType(f: ImageFile): (r: Option<string>)
    ensures r.Some? <==> f.utType.Some?
    ensures r.Some? ==> r.value == f.utType.value.identifier
  {
    match f.utType
    case Some(t) => Some(t.identifier)
    case None => None
  }

  /** `formattedFileSize`: the byte-count text of the size. */
  function FormattedFileSize(f: ImageFile, fmt: Formatters): (r: Option<string>)
    ensures r.Some? <==> f.fileSize.Some?
    ensures r.Some? ==> r.value == fmt.byteCount(f.fileSize.value)
  {
    match f.fileSize
    case Some(n) => Some(fmt.byteCount(n))
    case None => None
  }

  /** `description`: the URL's absolute string. */
  function Description(f: ImageFile): string {
    f.url.absoluteString
  }

  datatype CodingKey = BasenameKey | ContentTypeKey | FilenameKey | FileSizeKey | PathKey
  {
    function StringValue(): string {
      match this
      case BasenameKey => "basename"
      case ContentTypeKey => "contentType"
      case FilenameKey => "filename"
      case FileSizeKey => "fileSize"
      case PathKey => "path"
    }
  }

  /** An optional string as the JSON string `encodeIfPresent` writes. */
  function StringJson(s: Option<string>): (r: Option<Json>)
    ensures r.Some? <==> s.Some?
    ensures r.Some? ==> r.value == JString(s.value)
  {
    match s case Some(v) => Some(JString(v)) case None => None
  }

  /** What `encode(to:)` writes under each key, when it writes anything. */
  function Entry(f: ImageFile, fmt: Formatters, k: CodingKey): Option<Json> {
    match k
    case BasenameKey => Some(JString(Basename(f)))
    case ContentTypeKey => StringJson(ContentType(f))
    case FilenameKey => Some(JString(Filename(f)))
    case FileSizeKey => StringJson(FormattedFileSize(f, fmt))
    case PathKey => Some(JString(Path(f)))
  }

  /** `encode(to:)`: one `encode` or `encodeIfPresent` per key. */
  function Encode(f: ImageFile, fmt: Formatters): (c: map<CodingKey, Json>)
    ensures forall k :: k in c <==> Entry(f, fmt, k).Some?
    ensures forall k :: k in c ==> c[k] == Entry(f, fmt, k).value
  {
    map k: CodingKey | Entry(f, fmt, k).Some? :: Entry(f, fmt, k).value
  }

  /** Basename, file name and path are always written, as strings. */
  lemma EncodeWritesNames(f: ImageFile, fmt: Formatters)
    ensures BasenameKey in Encode(f, fmt) && Encode(f, fmt)[BasenameKey] == JString(Basename(f))
    ensures FilenameKey in Encode(f, fmt) && Encode(f, fmt)[FilenameKey] == JString(Filename(f))
    ensures PathKey in Encode(f, fmt) && Encode(f, fmt)[PathKey] == JString(f.url.path)
  {
    assert Entry(f, fmt, BasenameKey).Some? && Entry(f, fmt, FilenameKey).Some? && Entry(f, fmt, PathKey).Some?;
  }

  /** The content type and the formatted size are written exactly when the file has them. */
  lemma EncodeWritesOptionals(f: ImageFile, fmt: Formatters)
    ensures ContentTypeKey in Encode(f, fmt) <==> f.utType.Some?
    ensures ContentTypeKey in Encode(f, fmt) ==> Encode(f, fmt)[ContentTypeKey] == JString(f.utType.value.identifier)
    ensures FileSizeKey in Encode(f, fmt) <==> f.fileSize.Some?
    ensures FileSizeKey in Encode(f, fmt) ==> Encode(f, fmt)[FileSizeKey] == JString(fmt.byteCount(f.fileSize.value))
  {
    assert Entry(f, fmt, ContentTypeKey) == StringJson(ContentType(f));
    assert Entry(f, fmt, FileSizeKey) == StringJson(FormattedFileSize(f, fmt));
  }
}
