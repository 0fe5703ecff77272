/**
 * The URLSession-backed client. Only the decision its data-task completion
 * makes is modelled: from the task's optional data, response and error to the
 * client's result.
 */
module URLSessionHTTPClient {
  import opened Wrappers
  import opened Foundation
  import opened HTTP

  /**
   * An error wins; otherwise data together with an HTTP response is a
   * success; anything else is the client's unexpected-representation error.
   */
  function Classify(data: Option<Data>, response: Option<URLResponse>, error: Option<AnyError>): (r: HTTPURLResult)
    ensures error.Some? ==> r == Failure(error.value)
    ensures r.Success? <==> error.None? && data.Some? && response.Some? && response.value.HTTP?
    ensures r.Success? ==> r.data == data.value && r.response == response.value.http
    ensures error.None? && r.Failure? ==> r.error == UnExpectedValueRepresentation
  {
    if error.Some? then Failure(error.value)
    else if data.Some? && response.Some? && response.value.HTTP? then Success(data.value, response.value.http)
    else Failure(UnExpectedValueRepresentation)
  }

  /** Every combination the client's tests call an invalid representation yields a failure. */
  lemma InvalidRepresentationsFail(data: Data, http: HTTPURLResponse, nonHTTP: URL, error: AnyError)
    ensures Classify(None, None, None).Failure?
    ensures Classify(None, Some(NonHTTP(nonHTTP)), None).Failure?
    ensures Classify(Some(data), None, None).Failure?
    ensures Classify(Some(data), None, Some(error)).Failure?
    ensures Classify(None, Some(NonHTTP(nonHTTP)), Some(error)).Failure?
    ensures Classify(None, Some(HTTP(http)), Some(error)).Failure?
    ensures Classify(Some(data), Some(NonHTTP(nonHTTP)), Some(error)).Failure?
    ensures Classify(Some(data), Some(HTTP(http)), Some(error)).Failure?
    ensures Classify(Some(data), Some(NonHTTP(nonHTTP)), None).Failure?
  {
  }
}
