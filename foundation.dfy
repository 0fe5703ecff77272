/**
 * The platform values the feed API works with: raw response bytes, UUIDs,
 * URLs, HTTP responses, errors, and the JSON value tree that a decoder reads.
 * Byte-level JSON parsing and the validity of UUID and URL strings belong to
 * the platform, not to this code base; they are parameters (see JSONDecoder).
 */
module Foundation {
  import opened Wrappers

  newtype byte = x: int | 0 <= x < 256

  /** A response body. */
  type Data = seq<byte>

  /** A UUID, identified by its string form. */
  datatype UUID = UUID(uuidString: string)

  /** A URL, identified by its string form. */
  datatype URL = URL(absoluteString: string)

  datatype HTTPURLResponse = HTTPURLResponse(url: URL, statusCode: int)

  /** What a data task reports as its response: an HTTP response or some other kind. */
  datatype URLResponse = HTTP(http: HTTPURLResponse) | NonHTTP(url: URL)

  /**
   * The errors a transport can report: an underlying error of the platform,
   * or the client's own marker for a task that reported neither an error nor
   * a usable data/response pair.
   */
  datatype AnyError = NSError(domain: string, code: int) | UnExpectedValueRepresentation

  /** A JSON value as the platform's JSON reader produces it. */
  datatype Json =
    | JNull
    | JBool(b: bool)
    | JNumber(n: int)
    | JString(s: string)
    | JArray(elems: seq<Json>)
    | JObject(fields: map<string, Json>)

  /**
   * The parts of the platform's JSON decoding this code relies on but does not
   * implement: reading bytes into a JSON value, and deciding whether a string
   * is a UUID (`UUID(uuidString:)`) or a URL (`URL(string:)`).
   */
  datatype JSONDecoder = JSONDecoder(
    parse: Data -> Option<Json>,
    isUUIDString: string -> bool,
    isURLString: string -> bool)
}
