/**
 * The loader's completion as its tests expect it: a successful client result
 * goes through FeedItemsMapper.Map, so the status code is checked.
 */
module CorrectedLoader {
  import opened Wrappers
  import opened Foundation
  import opened FeedFeature
  import HTTP
  import opened RemoteFeedLoader
  import FeedItemsMapper

  function MappedCompletion(result: HTTP.HTTPURLResult, decoder: JSONDecoder): (r: Result)
    ensures result.Failure? ==> r == Failure(Connectivity)
    ensures r.Success? <==> result.Success? && result.response.statusCode == FeedItemsMapper.OK_200 &&
                            FeedItemsMapper.DecodeRoot(result.data, decoder).Some?
    ensures result.Success? && r.Failure? ==> r.error == InvalidData
  {
    match result
    case Success(data, response) => FeedItemsMapper.Map(data, response, decoder)
    case Failure(_) => Failure(Connectivity)
  }

  /** Whatever the body, a status other than 200 completes with `.invalidData`. */
  lemma Non200IsInvalidData(data: Data, response: HTTPURLResponse, decoder: JSONDecoder)
    requires response.statusCode != FeedItemsMapper.OK_200
    ensures MappedCompletion(HTTP.HTTPURLResult.Success(data, response), decoder) == Failure(InvalidData)
  {
  }

  /** The mapper's decoding of a body straight into feed items. */
  function DecodeFeed(decoder: JSONDecoder): Data -> Option<seq<FeedItem>>
  {
    data =>
      match FeedItemsMapper.DecodeRoot(data, decoder)
      case Some(root) => Some(FeedItemsMapper.Feed(root.items))
      case None => None
  }

  /**
   * With the mapper's decoding, the loader as written and the corrected
   * completion differ only on responses whose status is not 200.
   */
  lemma AgreeOn200(result: HTTP.HTTPURLResult, decoder: JSONDecoder)
    requires result.Success? ==> result.response.statusCode == FeedItemsMapper.OK_200
    ensures Completion(result, DecodeFeed(decoder)) == MappedCompletion(result, decoder)
  {
  }
}
