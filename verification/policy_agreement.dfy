/** How the decorator's cachability policy and the client's validation relate.
    Both inspect the same `cod`, but only the policy lets a body that does not
    decode through; validation rejects it. */
module PolicyAgreement {
  import opened Payload
  import opened CachedApiCaller
  import opened OpenWeatherMap

  /** Everything the client accepts is cachable. */
  lemma AcceptedIsCachable(response: Response, endpoint: string, decode: Decoder)
    ensures ValidateApiResponse(response, endpoint, decode).Success? ==> IsCachable(response, decode)
  {
  }

  /** The two disagree on exactly one kind of response: a body that decodes
      to `null`. It is cached by the decorator and rejected by the client. */
  lemma CachableButRejected(response: Response, endpoint: string, decode: Decoder)
    ensures IsCachable(response, decode) && ValidateApiResponse(response, endpoint, decode).Failure?
        <==> response.Body? && decode(response.text) == DecodesToNull
  {
  }
}
