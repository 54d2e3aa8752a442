/** The raw material that flows between the transport, the cache and the
    client: response bodies and what JSON decoding makes of them. */
module Payload {
  import opened Wrappers

  /** What a transport returns: PHP `false` when no response was obtained,
      otherwise the response body. */
  datatype Response = NoResponse | Body(text: string)

  /** What `json_decode` makes of a body, reduced to the one thing the code
      inspects: the `cod` field, read with PHP's loose comparison.
      - DecodesToNull: the body is not JSON (or is the literal `null`);
      - DecodesToFalse: the body is the JSON literal `false`;
      - DecodesTo(cod): any other value; `cod` is the numeric value of its
        `cod` member, or None when there is none (PHP then reads `null`). */
  datatype Decoded = DecodesToNull | DecodesToFalse | DecodesTo(cod: Option<int>)

  /** The status code the OpenWeatherMap API reports on success. */
  const SuccessCode := 200

  /** JSON decoding is a parameter of the model, not an implementation. */
  type Decoder = string -> Decoded

  /** True when `200 != $json->cod` holds for a decoded value that is neither
      `false` nor `null`: a missing `cod` reads as `null`, which is unequal to 200. */
  predicate IsErrorEnvelope(d: Decoded) {
    d.DecodesTo? && d.cod != Some(SuccessCode)
  }
}
