/**
 * The remote feed loader: it asks its client for the configured URL and turns
 * the client's result into its own.
 */
module RemoteFeedLoader {
  import opened Wrappers
  import opened Foundation
  import opened FeedFeature
  import HTTP

  datatype Error = Connectivity | InvalidData

  datatype Result = Success(items: seq<FeedItem>) | Failure(error: Error)

  /** `n` copies of `url`, in order. */
  function Repeat(url: URL, n: nat): seq<URL>
  {
    if n == 0 then [] else Repeat(url, n - 1) + [url]
  }

  lemma {:induction false} RepeatIsCopies(url: URL, n: nat)
    ensures |Repeat(url, n)| == n
    ensures forall i :: 0 <= i < n ==> Repeat(url, n)[i] == url
  {
    if n > 0 {
      RepeatIsCopies(url, n - 1);
    }
  }

  /**
   * What the loader's completion delivers for the client's result. The body
   * is decoded by `decodeRoot`, the platform decoding of `{"items": [...]}`
   * straight into feed items; the response's status code is not looked at.
   */
  function Completion(result: HTTP.HTTPURLResult, decodeRoot: Data -> Option<seq<FeedItem>>): (r: Result)
    ensures result.Failure? ==> r == Failure(Connectivity)
    ensures r.Success? <==> result.Success? && decodeRoot(result.data).Some?
    ensures r.Success? ==> r.items == decodeRoot(result.data).value
    ensures r.Failure? && result.Success? ==> r.error == InvalidData
  {
    match result
    case Success(data, _) =>
      (match decodeRoot(data)
       case Some(items) => Success(items)
       case None => Failure(InvalidData))
    case Failure(_) => Failure(Connectivity)
  }

  /** The outcome depends on the body alone, never on the HTTP response. */
  lemma CompletionIgnoresResponse(data: Data, r1: HTTPURLResponse, r2: HTTPURLResponse,
                                  decodeRoot: Data -> Option<seq<FeedItem>>)
    ensures Completion(HTTP.HTTPURLResult.Success(data, r1), decodeRoot)
         == Completion(HTTP.HTTPURLResult.Success(data, r2), decodeRoot)
  {
  }

  /**
   * A non-200 response (199, 201, 300, 400, 500, ...) whose body holds an
   * empty list completes with an empty feed, where the loader's tests expect
   * `.failure(.invalidData)`.
   */
  lemma CompletionAcceptsNon200(data: Data, response: HTTPURLResponse, decodeRoot: Data -> Option<seq<FeedItem>>)
    requires response.statusCode != 200
    requires decodeRoot(data) == Some([])
    ensures Completion(HTTP.HTTPURLResult.Success(data, response), decodeRoot) == Success([])
    ensures Completion(HTTP.HTTPURLResult.Success(data, response), decodeRoot) != Failure(InvalidData)
  {
  }

  class RemoteFeedLoader {
    const url: URL
    const client: HTTP.HTTPClient
    /** The client's requests before this loader existed. */
    ghost const priorRequests: seq<URL>
    /** How many times `Load` has been called. */
    ghost var loads: nat

    /** Every request the client saw since construction is this loader's URL. */
    ghost predicate Valid()
      reads this, client
    {
      client.requestedURLs == priorRequests + Repeat(url, loads)
    }

    /** Construction issues no request. */
    constructor (url: URL, client: HTTP.HTTPClient)
      ensures this.url == url && this.client == client
      ensures Valid() && loads == 0
      ensures priorRequests == client.requestedURLs
    {
      this.url := url;
      this.client := client;
      priorRequests := client.requestedURLs;
      loads := 0;
    }

    /**
     * Each load issues exactly one GET, to the configured URL. The invariant
     * is kept as long as no one else issued requests to the client.
     */
    method Load()
      modifies this, client
      ensures old(Valid()) ==> Valid()
      ensures loads == old(loads) + 1
      ensures client.requestedURLs == old(client.requestedURLs) + [url]
    {
      client.Get(url);
      loads := loads + 1;
    }
  }

  /** The scenario of the loader's request tests: two loads on a fresh client request the URL twice. */
  method LoadTwice(url: URL) returns (client: HTTP.HTTPClient)
    ensures client.requestedURLs == [url, url]
  {
    client := new HTTP.HTTPClient();
    var loader := new RemoteFeedLoader(url, client);
    assert client.requestedURLs == [];
    loader.Load();
    loader.Load();
  }

  /** Two loaders sharing one client: the client sees each load, in call order. */
  method LoadWithSharedClient(url1: URL, url2: URL) returns (client: HTTP.HTTPClient)
    ensures client.requestedURLs == [url1, url2, url1]
  {
    client := new HTTP.HTTPClient();
    var first := new RemoteFeedLoader(url1, client);
    var second := new RemoteFeedLoader(url2, client);
    first.Load();
    second.Load();
    first.Load();
  }

  /** After `n` loads the client's log, past what it held before, is `n` copies of the URL. */
  lemma RequestsAfterLoads(loader: RemoteFeedLoader)
    requires loader.Valid()
    ensures |loader.client.requestedURLs| == |loader.priorRequests| + loader.loads
    ensures forall i :: |loader.priorRequests| <= i < |loader.client.requestedURLs| ==>
              loader.client.requestedURLs[i] == loader.url
  {
    RepeatIsCopies(loader.url, loader.loads);
  }
}
