/**
 * The mapper from an HTTP response to a feed: it accepts only a 200 response
 * whose body decodes as `{"items": [{id, description?, location?, image}]}`,
 * and turns every decoded item into a feed item, in order.
 */
module FeedItemsMapper {
  import opened Wrappers
  import opened Foundation
  import opened FeedFeature
  import opened RemoteFeedLoader

  const OK_200 := 200

  /** One entry of the `items` array, as the API sends it. */
  datatype Item = Item(id: UUID, description: Option<string>, location: Option<string>, image: URL)

  /** The response body: `{"items": [...]}`. */
  datatype Root = Root(items: seq<Item>)

  /** The feed a decoded root stands for: each item becomes a feed item, `image` giving `imageURL`. */
  function Feed(items: seq<Item>): (feed: seq<FeedItem>)
    ensures |feed| == |items|
    ensures forall i :: 0 <= i < |items| ==>
              feed[i].id == items[i].id && feed[i].description == items[i].description &&
              feed[i].location == items[i].location && feed[i].imageURL == items[i].image
  {
    if items == [] then []
    else [FeedItem(items[0].id, items[0].description, items[0].location, items[0].image)] + Feed(items[1..])
  }

  // Decoding, as the synthesized `Decodable` conformances of Root and Item do it.

  /** A `String` decodes only from a JSON string. */
  function DecodeString(v: Json): Option<string>
  {
    if v.JString? then Some(v.s) else None
  }

  /** Whether an optional string field can be decoded: absent, `null`, or a string. */
  predicate OptionalStringField(fields: map<string, Json>, key: string)
  {
    key !in fields || fields[key].JNull? || fields[key].JString?
  }

  /** An optional string field: absent or `null` is nil; a string is kept; anything else fails. */
  function DecodeIfPresent(fields: map<string, Json>, key: string): (r: Option<Option<string>>)
    ensures r.Some? <==> OptionalStringField(fields, key)
    ensures r == Some(None) <==> key !in fields || fields[key] == JNull
    ensures r.Some? && r.value.Some? <==> key in fields && fields[key].JString?
    ensures r.Some? && r.value.Some? ==> r.value.value == fields[key].s
  {
    if key !in fields || fields[key].JNull? then Some(None)
    else if fields[key].JString? then Some(Some(fields[key].s))
    else None
  }

  /** A UUID decodes from a JSON string the platform accepts as a UUID, and keeps that string. */
  function DecodeUUID(v: Json, decoder: JSONDecoder): (r: Option<UUID>)
    ensures r.Some? <==> v.JString? && decoder.isUUIDString(v.s)
    ensures r.Some? ==> v == JString(r.value.uuidString)
  {
    match DecodeString(v)
    case Some(s) => if decoder.isUUIDString(s) then Some(UUID(s)) else None
    case None => None
  }

  /** A URL decodes from a JSON string the platform accepts as a URL, and keeps that string. */
  function DecodeURL(v: Json, decoder: JSONDecoder): (r: Option<URL>)
    ensures r.Some? <==> v.JString? && decoder.isURLString(v.s)
    ensures r.Some? ==> v == JString(r.value.absoluteString)
  {
    match DecodeString(v)
    case Some(s) => if decoder.isURLString(s) then Some(URL(s)) else None
    case None => None
  }

  /**
   * One item: an object whose `id` is a UUID string and whose `image` is a
   * URL string; `description` and `location` may be absent or `null`. Other
   * keys are ignored.
   */
  function DecodeItem(v: Json, decoder: JSONDecoder): (r: Option<Item>)
    ensures r.Some? <==>
              v.JObject? && "id" in v.fields && "image" in v.fields &&
              v.fields["id"].JString? && decoder.isUUIDString(v.fields["id"].s) &&
              v.fields["image"].JString? && decoder.isURLString(v.fields["image"].s) &&
              OptionalStringField(v.fields, "description") && OptionalStringField(v.fields, "location")
    ensures r.Some? ==> v.fields["id"] == JString(r.value.id.uuidString)
    ensures r.Some? ==> v.fields["image"] == JString(r.value.image.absoluteString)
    ensures r.Some? ==> (r.value.description.Some? <==> "description" in v.fields && v.fields["description"].JString?)
    ensures r.Some? && r.value.description.Some? ==> r.value.description.value == v.fields["description"].s
    ensures r.Some? ==> (r.value.location.Some? <==> "location" in v.fields && v.fields["location"].JString?)
    ensures r.Some? && r.value.location.Some? ==> r.value.location.value == v.fields["location"].s
  {
    if !v.JObject? || "id" !in v.fields || "image" !in v.fields then None
    else
      var id := DecodeUUID(v.fields["id"], decoder);
      var description := DecodeIfPresent(v.fields, "description");
      var location := DecodeIfPresent(v.fields, "location");
      var image := DecodeURL(v.fields["image"], decoder);
      if id.None? || description.None? || location.None? || image.None? then None
      else Some(Item(id.value, description.value, location.value, image.value))
  }

  /** An item with a `null` description and an unknown key still decodes, with a nil description. */
  lemma DecodeItemNullAndExtraKey(id: string, image: string, decoder: JSONDecoder)
    requires decoder.isUUIDString(id) && decoder.isURLString(image)
    ensures DecodeItem(JObject(map["id" := JString(id), "image" := JString(image),
                                   "description" := JNull, "extra" := JNumber(1)]), decoder)
         == Some(Item(UUID(id), None, None, URL(image)))
  {
  }

  /** An array of items decodes only if every element does, and then element by element. */
  function DecodeItems(elems: seq<Json>, decoder: JSONDecoder): (r: Option<seq<Item>>)
    ensures r.Some? <==> forall i :: 0 <= i < |elems| ==> DecodeItem(elems[i], decoder).Some?
    ensures r.Some? ==> (|r.value| == |elems| &&
              forall i :: 0 <= i < |elems| ==> DecodeItem(elems[i], decoder) == Some(r.value[i]))
  {
    if elems == [] then Some([])
    else
      match DecodeItem(elems[0], decoder)
      case None => None
      case Some(item) =>
        match DecodeItems(elems[1..], decoder)
        case None =>
          assert forall i :: 1 <= i < |elems| ==> elems[1..][i - 1] == elems[i];
          None
        case Some(rest) => Some([item] + rest)
  }

  /** The body decoded as `Root`: it parses to a JSON object whose `items` is an array of items. */
  function DecodeRoot(data: Data, decoder: JSONDecoder): (r: Option<Root>)
    ensures r.Some? <==>
              decoder.parse(data).Some? && decoder.parse(data).value.JObject? &&
              "items" in decoder.parse(data).value.fields &&
              decoder.parse(data).value.fields["items"].JArray? &&
              DecodeItems(decoder.parse(data).value.fields["items"].elems, decoder).Some?
    ensures r.Some? ==>
              DecodeItems(decoder.parse(data).value.fields["items"].elems, decoder) == Some(r.value.items)
  {
    match decoder.parse(data)
    case None => None
    case Some(json) =>
      if json.JObject? && "items" in json.fields && json.fields["items"].JArray? then
        match DecodeItems(json.fields["items"].elems, decoder)
        case None => None
        case Some(items) => Some(Root(items))
      else None
  }

  /**
   * The mapper: success exactly when the status is 200 and the body decodes,
   * carrying the decoded items in order with their fields; every failure is
   * `.invalidData`.
   */
  function Map(data: Data, response: HTTPURLResponse, decoder: JSONDecoder): (r: Result)
    ensures r.Failure? ==> r.error == InvalidData
    ensures r.Success? <==> response.statusCode == OK_200 && DecodeRoot(data, decoder).Some?
    ensures r.Success? ==>
              var items := DecodeRoot(data, decoder).value.items;
              |r.items| == |items| &&
              forall i :: 0 <= i < |items| ==>
                r.items[i].id == items[i].id && r.items[i].description == items[i].description &&
                r.items[i].location == items[i].location && r.items[i].imageURL == items[i].image
  {
    if response.statusCode == OK_200 then
      match DecodeRoot(data, decoder)
      case Some(root) => Success(Feed(root.items))
      case None => Failure(InvalidData)
    else Failure(InvalidData)
  }

  // The JSON the API sends for a feed, as the loader's tests build it.

  function OptionalField(key: string, value: Option<string>): map<string, Json>
  {
    match value
    case Some(s) => map[key := JString(s)]
    case None => map[]
  }

  /** An item's JSON: `id` and `image` always, `description` and `location` only when present. */
  function EncodeItem(item: FeedItem): (j: Json)
    ensures j.JObject?
    ensures "id" in j.fields && j.fields["id"] == JString(item.id.uuidString)
    ensures "image" in j.fields && j.fields["image"] == JString(item.imageURL.absoluteString)
    ensures "description" in j.fields <==> item.description.Some?
    ensures item.description.Some? ==> j.fields["description"] == JString(item.description.value)
    ensures "location" in j.fields <==> item.location.Some?
    ensures item.location.Some? ==> j.fields["location"] == JString(item.location.value)
  {
    JObject(map["id" := JString(item.id.uuidString), "image" := JString(item.imageURL.absoluteString)]
            + OptionalField("description", item.description)
            + OptionalField("location", item.location))
  }

  /** A feed's JSON: an object whose `items` key holds each item's JSON, in order. */
  function EncodeFeed(feed: seq<FeedItem>): (j: Json)
    ensures j.JObject? && "items" in j.fields && j.fields["items"].JArray?
    ensures |j.fields["items"].elems| == |feed|
    ensures forall i :: 0 <= i < |feed| ==> j.fields["items"].elems[i] == EncodeItem(feed[i])
  {
    JObject(map["items" := JArray(seq(|feed|, i requires 0 <= i < |feed| => EncodeItem(feed[i])))])
  }

  /** Whether the platform accepts the item's id as a UUID and its image as a URL. */
  predicate Decodable(item: FeedItem, decoder: JSONDecoder)
  {
    decoder.isUUIDString(item.id.uuidString) && decoder.isURLString(item.imageURL.absoluteString)
  }

  lemma ItemRoundTrip(item: FeedItem, decoder: JSONDecoder)
    requires Decodable(item, decoder)
    ensures DecodeItem(EncodeItem(item), decoder) == Some(Item(item.id, item.description, item.location, item.imageURL))
  {
  }

  /** The `items` array of a feed's JSON decodes back to the feed's fields, item by item. */
  lemma ItemsRoundTrip(feed: seq<FeedItem>, decoder: JSONDecoder)
    requires forall i :: 0 <= i < |feed| ==> Decodable(feed[i], decoder)
    ensures DecodeItems(EncodeFeed(feed).fields["items"].elems, decoder).Some?
    ensures Feed(DecodeItems(EncodeFeed(feed).fields["items"].elems, decoder).value) == feed
  {
  }

  /**
   * A 200 response whose body is the JSON of a feed maps back to that very
   * feed, in order, whenever its ids and image URLs are valid.
   */
  lemma MapDeliversEncodedFeed(feed: seq<FeedItem>, data: Data, response: HTTPURLResponse,
                               decoder: JSONDecoder)
    requires decoder.parse(data) == Some(EncodeFeed(feed))
    requires response.statusCode == OK_200
    requires forall i :: 0 <= i < |feed| ==> Decodable(feed[i], decoder)
    ensures Map(data, response, decoder) == Success(feed)
  {
  }

  /** `{"items": []}` with status 200 is an empty feed. */
  lemma MapEmptyList(data: Data, response: HTTPURLResponse, decoder: JSONDecoder)
    requires decoder.parse(data) == Some(JObject(map["items" := JArray([])]))
    requires response.statusCode == OK_200
    ensures Map(data, response, decoder) == Success([])
  {
  }
}
