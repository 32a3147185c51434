/**
 * Stand-ins for the Foundation and UniformTypeIdentifiers values the library
 * consumes. Everything Foundation computes (date parsing, byte-count text,
 * type conformance, error texts) enters the model as data or as a function
 * parameter, never as an assumption.
 */
module Foundation {
  import opened Wrappers

  /** A point in time, as produced by a `DateFormatter` (seconds since the reference date). */
  type Instant = int

  /** The time zone a `DateFormatter` reads in: the host's, or a fixed UTC offset of zero. */
  datatype TimeZone = HostTimeZone | Utc

  /** A configured `DateFormatter`: its `dateFormat` pattern and time zone. */
  datatype Formatter = Formatter(pattern: string, timeZone: TimeZone)

  /**
   * The foreign formatting services: `DateFormatter.date(from:)` for a given
   * formatter, and the byte-count text of `Int.formatted(.byteCount(...))`.
   */
  datatype Formatters = Formatters(
    date: (Formatter, string) -> Option<Instant>,
    byteCount: int -> string)

  /** A `URL`: whether it is a file URL, its `path`, and its `absoluteString`. */
  datatype Url = Url(isFileURL: bool, path: string, absoluteString: string)

  /** A `UTType`: its identifier and whether it conforms to `.image`. */
  datatype UTType = UTType(identifier: string, conformsToImage: bool)

  /**
   * An error thrown by Foundation: whether it is the Cocoa error
   * `fileReadNoSuchFile`, its `localizedDescription` and its
   * `localizedRecoverySuggestion`.
   */
  datatype UnderlyingError = UnderlyingError(
    isFileReadNoSuchFile: bool,
    localizedDescription: string,
    localizedRecoverySuggestion: Option<string>)
}
