/**
 * The transport boundary of the feed API: the result a client hands back for
 * one GET, and a client that records every request issued to it.
 */
module HTTP {
  import opened Foundation

  /** The outcome of one GET: the body with its HTTP response, or an error. */
  datatype HTTPURLResult = Success(data: Data, response: HTTPURLResponse) | Failure(error: AnyError)

  /**
   * A client as its callers see it. Issuing a GET is recorded, in order, in
   * `requestedURLs`; delivering the result later is the caller's completion
   * (a pure mapping, see RemoteFeedLoader.Completion).
   */
  class HTTPClient {
    var requestedURLs: seq<URL>

    constructor ()
      ensures requestedURLs == []
    {
      requestedURLs := [];
    }

    method Get(url: URL)
      modifies this
      ensures requestedURLs == old(requestedURLs) + [url]
    {
      requestedURLs := requestedURLs + [url];
    }
  }
}
