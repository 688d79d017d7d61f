/** The per-item answer of a batch call, as the JSON codec decodes it. */
module BatchResponses {
  import opened Wrappers
  import opened JavaText

  /** One response header; duplicates keep their order. */
  datatype Header = Header(name: Option<string>, value: Option<string>)

  /** A decoded batch response: HTTP status, headers and body, each null when the payload omits it. */
  datatype BatchResponse = BatchResponse(code: int32, headers: Option<seq<Header>>, body: Option<string>)

  /** `new BatchResponse()`: code 0, no headers, no body. */
  const DefaultBatchResponse := BatchResponse(0, None, None)
}
