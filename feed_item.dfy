/** The feed record the feature delivers. */
module FeedFeature {
  import opened Wrappers
  import opened Foundation

  datatype FeedItem = FeedItem(
    id: UUID,
    description: Option<string>,
    location: Option<string>,
    imageURL: URL)
}
