# EssentialFeed remote feed API, modelled in Dafny

This project models the remote-fetch path of the EssentialFeed iOS library:

- `FeedItemsMapper.map`: turns an HTTP response into a feed. It accepts only status 200 with a body of the form
  `{"items": [{id, description?, location?, image}]}`. Each item becomes a `FeedItem`, in order. Any other input
  is `.failure(.invalidData)`.
- `RemoteFeedLoader`: construction issues no request. Each `load` issues one GET to the configured URL. The
  loader then turns the client's `HTTPURLResult` into its own `Result`: a client error is `.connectivity`, a
  decodable body is `.success(items)`, and anything else is `.invalidData`.
- `URLSessionHTTPClient`: the data-task completion picks one of three outcomes from the task's optional data,
  response and error.

Modules, one per source file: `Foundation` (platform values: bytes, UUID, URL, HTTP responses, errors, a JSON
value tree, and the platform's decoding primitives), `FeedFeature` (`FeedItem`), `HTTP` (`HTTPURLResult` and a
client that records the URLs requested from it), `RemoteFeedLoader`, `FeedItemsMapper`, `URLSessionHTTPClient`,
and `CorrectedLoader` (see Findings). `Wrappers` holds `Option`.

The platform's JSON handling is a parameter. The `JSONDecoder` datatype carries three total functions: a
`parse` from bytes to a JSON value, and UUID-string and URL-string validity. The mapper's decoding of
`Root`/`Item` is modelled on the JSON value tree, as Swift's synthesized `Decodable` conformances do it:

- `id` and `image` must be strings that the platform accepts as a UUID or URL;
- `description` and `location` may be absent or `null` (giving nil), but if present they must be strings;
- extra keys are ignored;
- an array decodes only if every element decodes.

The loader decodes a `Root` of `[FeedItem]` directly. That conformance is not part of the library's source, so
the loader's decoding is a parameter `decodeRoot: Data -> Option<seq<FeedItem>>`.

## Model

| member | source | states |
|---|---|---|
| `HTTP.HTTPClient.constructor` | EssentialFeedTests/FeedAPI/RemoteFeedLoaderTests.swift:165-170 | a new client has requested nothing |
| `HTTP.HTTPClient.Get` | EssentialFeedTests/FeedAPI/RemoteFeedLoaderTests.swift:172-174 | a GET appends its URL to the request log, after all earlier requests |
| `RemoteFeedLoader.Completion` | EssentialFeed/FeedAPI/RemoteFeedLoader.swift:40-51 | any client failure is `.connectivity`; a success is `.success` iff the body decodes, with exactly the decoded items; an undecodable body is `.invalidData`; one result per client result |
| `RemoteFeedLoader.CompletionIgnoresResponse` | EssentialFeed/FeedAPI/RemoteFeedLoader.swift:42 | two successful client results with the same body give the same result, whatever their responses (status included) |
| `RemoteFeedLoader.CompletionAcceptsNon200` | EssentialFeedTests/FeedAPI/RemoteFeedLoaderTests.swift:38-50 | any status other than 200 with a body holding an empty list completes with `.success([])`, not the `.invalidData` the tests expect |
| `RemoteFeedLoader.RepeatIsCopies` | EssentialFeedTests/FeedAPI/RemoteFeedLoaderTests.swift:28-36 | the expected log after n loads has length n and every entry is the URL |
| `RemoteFeedLoader.RemoteFeedLoader.constructor` | EssentialFeed/FeedAPI/RemoteFeedLoader.swift:34-37 | keeps the URL and client, and issues no request: the client's log is unchanged and the load count is 0 |
| `RemoteFeedLoader.RemoteFeedLoader.Load` | EssentialFeed/FeedAPI/RemoteFeedLoader.swift:39-40 | each load, whoever else shares the client, appends exactly one request for the configured URL; if every request since construction was this loader's, that stays so |
| `RemoteFeedLoader.LoadTwice` | EssentialFeedTests/FeedAPI/RemoteFeedLoaderTests.swift:28-36 | two loads on a fresh client leave the log `[url, url]` |
| `RemoteFeedLoader.LoadWithSharedClient` | EssentialFeed/FeedAPI/RemoteFeedLoader.swift:21-40 | two loaders sharing one client: the client logs each load's URL in call order |
| `RemoteFeedLoader.RequestsAfterLoads` | EssentialFeed/FeedAPI/RemoteFeedLoader.swift:39-40 | after n loads the client's log is what it held before plus n entries, each the configured URL |
| `FeedItemsMapper.Feed` | EssentialFeed/FeedAPI/FeedItemsMapper.swift:15-28 | the feed has the length and order of the items; each feed item carries the item's id, description and location, and its `imageURL` is the item's `image` |
| `FeedItemsMapper.DecodeIfPresent` | EssentialFeed/FeedAPI/FeedItemsMapper.swift:22-23 | an optional field decodes iff it is absent, `null` or a string; it is nil exactly when absent or `null`, and otherwise is that string's contents |
| `FeedItemsMapper.DecodeUUID` | EssentialFeed/FeedAPI/FeedItemsMapper.swift:21 | an id decodes iff it is a JSON string the platform accepts as a UUID, and the UUID keeps that string |
| `FeedItemsMapper.DecodeURL` | EssentialFeed/FeedAPI/FeedItemsMapper.swift:24 | an image decodes iff it is a JSON string the platform accepts as a URL, and the URL keeps that string |
| `FeedItemsMapper.DecodeItem` | EssentialFeed/FeedAPI/FeedItemsMapper.swift:20-24 | an item decodes iff it is an object with a UUID-string `id` and a URL-string `image`, and `description`/`location` each absent, `null` or a string; the item then carries those strings, with nil for absent or `null` optionals |
| `FeedItemsMapper.DecodeItemNullAndExtraKey` | EssentialFeed/FeedAPI/FeedItemsMapper.swift:20-24 | an item with a `null` description and an unknown key decodes, with nil description and location |
| `FeedItemsMapper.DecodeItems` | EssentialFeed/FeedAPI/FeedItemsMapper.swift:13 | the array decodes iff every element decodes, and then element i is the decoding of element i |
| `FeedItemsMapper.DecodeRoot` | EssentialFeed/FeedAPI/FeedItemsMapper.swift:12-13 | a body decodes as `Root` iff it parses to an object whose `items` key holds an array whose elements all decode; the root then holds those items in order |
| `FeedItemsMapper.Map` | EssentialFeed/FeedAPI/FeedItemsMapper.swift:31-38 | the only error is `.invalidData`; success iff the status is exactly 200 and the body decodes; on success the feed has the decoded items' length and order, with their fields |
| `FeedItemsMapper.EncodeItem` | EssentialFeedTests/FeedAPI/RemoteFeedLoaderTests.swift:147-156 | an item's JSON is an object with `id` and `image` strings, and has a `description` or `location` key exactly when that value is present, holding it |
| `FeedItemsMapper.EncodeFeed` | EssentialFeedTests/FeedAPI/RemoteFeedLoaderTests.swift:158-163 | a feed's JSON is an object whose `items` array holds each item's JSON, in order |
| `FeedItemsMapper.ItemRoundTrip` | EssentialFeed/FeedAPI/FeedItemsMapper.swift:20-28 | an item's JSON, with a valid id and image URL, decodes back to the same fields, including nil description and location |
| `FeedItemsMapper.ItemsRoundTrip` | EssentialFeed/FeedAPI/FeedItemsMapper.swift:13-17 | the `items` array of a feed's JSON decodes, and the feed built from the decoded items is the original feed |
| `FeedItemsMapper.MapDeliversEncodedFeed` | EssentialFeedTests/FeedAPI/RemoteFeedLoaderTests.swift:79-96 | a 200 response whose body is a feed's JSON maps to `.success` of exactly that feed, in order |
| `FeedItemsMapper.MapEmptyList` | EssentialFeedTests/FeedAPI/RemoteFeedLoaderTests.swift:70-77 | status 200 with `{"items": []}` is `.success([])` |
| `URLSessionHTTPClient.Classify` | EssentialFeed/FeedAPI/URLSessionHTTPClient.swift:21-28 | an error wins and is carried unchanged; success iff there is no error, data is present and the response is HTTP, and it carries exactly that data and response; every other case is `UnExpectedValueRepresentation` |
| `URLSessionHTTPClient.InvalidRepresentationsFail` | EssentialFeedTests/FeedAPI/URLSessionHTTPClientTests.swift:69-80 | each of the nine invalid combinations in the client's tests is a failure |
| `CorrectedLoader.MappedCompletion` | EssentialFeedTests/FeedAPI/RemoteFeedLoaderTests.swift:38-77 | client failure is `.connectivity`; success iff the status is 200 and the body decodes as `Root`; every other result is `.invalidData` |
| `CorrectedLoader.Non200IsInvalidData` | EssentialFeedTests/FeedAPI/RemoteFeedLoaderTests.swift:41-46 | a non-200 response is `.invalidData` whatever its body |
| `CorrectedLoader.AgreeOn200` | EssentialFeed/FeedAPI/RemoteFeedLoader.swift:41-51 | with the mapper's decoding, the loader as written and the corrected completion give the same result on client failures and on 200 responses |

## Findings

| source | as written | input that shows it | evidently intended | confidence | as-written member | corrected member |
|---|---|---|---|---|---|---|
| EssentialFeed/FeedAPI/RemoteFeedLoader.swift:42 | the completion binds `.success(data, _)` and never reads the status code | status 201 (also 199, 300, 400, 500) with body `{"items": []}` completes with `.success([])` | a non-200 response completes with `.failure(.invalidData)`, as the tests at EssentialFeedTests/FeedAPI/RemoteFeedLoaderTests.swift:38-50 and `FeedItemsMapper.map` require | medium, not executed | `RemoteFeedLoader.CompletionAcceptsNon200` | `CorrectedLoader.MappedCompletion` |

The loader class itself only issues requests. It follows the code: nothing in it depends on which completion is
used. `RemoteFeedLoader.Completion` models the code as written.

## Left out

- Networking: `session.dataTask(...).resume()`, the request's HTTP method, and URLSession turning missing data
  into empty data. These are I/O; only the completion's decision (`Classify`) is modelled.
- Byte-level JSON parsing, and the validity of UUID and URL strings. They are the `JSONDecoder` parameters.
  UUIDs and URLs are compared by their strings: case-insensitive UUID parsing and URL normalisation are not
  modelled. JSON numbers are integers only.
- The loader's own decoding of `[FeedItem]`. It is the `decodeRoot` parameter, because `FeedItem`'s `Decodable`
  conformance and key names are not part of the library's source.
- The completion closure's threading. The client may call it on any thread; this is concurrency.
- Object lifetime: the test that expects no result after the loader is deallocated
  (EssentialFeedTests/FeedAPI/RemoteFeedLoaderTests.swift:98-110). The closure in `load` holds no weak reference
  and never checks one, so the code as written would still deliver. No guard is modelled. Memory-leak tracking is
  also left out.
- Delivery of the loader's completion is not a separate step. `Completion` is a total function, so each client
  result yields exactly one loader result.
- RemoteFeedLoader.RemoteFeedLoader.Valid: the invariant that the client's requests since construction are this loader's
  URL holds only while no other caller uses the client. `Load` appends its URL unconditionally, shared client or not,
  but keeps the invariant only when it held before.
- `HTTP.HTTPClient`: it stands for any client behind the `HTTPClient` protocol, seen through the requests issued
  to it. Protocol dispatch to other implementations is not modelled.
- The duplicated `HTTPURLResult`/`HTTPClient` declarations, the unused `RemoteFeedImage` (same shape as `Item`)
  and the superseded test-local copies of the loader and the URLSession client are modelled once.
- The local feed cache (store, cache policy, local loader) is not part of this model.
