/**
 * The Graph API client: `post` publishes a post request as a form POST, `submitBatch` sends a batch
 * call and keeps its first answer, and `scrape` turns a scrape request into a batch call. The URL
 * fetcher, the JSON decoder and the URL encoder are supplied from outside, as functions.
 */
module Service {
  import opened Wrappers
  import opened JavaText
  import opened FacebookErrors
  import opened BatchItems
  import opened BatchResponses
  import BatchRequests
  import PostRequests
  import ScrapeRequests
  import ScrapeResponses

  /** The post endpoint with the id filled in (`String.format` writes a null id as "null"). */
  function PostUrl(facebookId: Option<string>): string {
    "https://graph.facebook.com/v2.8/" + NullableText(facebookId) + "/feed"
  }

  const BatchUrl := "https://graph.facebook.com"

  /** One `data(name, value)` call on the fetch builder. */
  datatype DataField = DataField(name: string, value: Option<string>)

  /** The POST the fetcher is asked to make: its URL and its form fields in the order they were added. */
  datatype HttpRequest = HttpRequest(url: string, data: seq<DataField>)

  /** An answer from the server: status and content. */
  datatype HttpResponse = HttpResponse(responseCode: int32, content: string)

  /** What waiting on the fetch gives: a response, or the failure the future reports. */
  datatype FetchOutcome = Fetched(response: HttpResponse) | FetchFailed(failure: ForeignFailure)

  /**
   * The exception `assertSuccessfulResponse` raises for a non-200 answer, from what the decoder made
   * of the error payload: a FacebookException with the error, a NullPointerException when the
   * payload or its error object is null, and the decoder's IOException wrapped in a RuntimeException.
   */
  function ErrorPayloadException(decoded: Result<Option<FacebookErrorResponse>, ForeignFailure>): (e: Exception)
    ensures e.FacebookException? <==> decoded.Ok? && decoded.value.Some? && decoded.value.value.facebookError.Some?
    ensures e.FacebookException? ==> e.error == decoded.value.value.facebookError.value
    ensures decoded.Err? ==> e == RuntimeException(CodecException(decoded.error))
    ensures decoded.Ok? && (decoded.value.None? || decoded.value.value.facebookError.None?) ==> e == NullPointerException(None)
  {
    match decoded
    case Err(f) => RuntimeException(CodecException(f))
    case Ok(None) => NullPointerException(None)
    case Ok(Some(FacebookErrorResponse(None))) => NullPointerException(None)
    case Ok(Some(FacebookErrorResponse(Some(err)))) => FacebookException(err)
  }

  /** The request a scrape or any other batch call sends: the token, then the URL-encoded JSON list of items. */
  function BatchHttpRequest(urlEncode: string -> string, request: BatchRequests.BatchRequest): (sent: HttpRequest)
    ensures sent.url == BatchUrl
    ensures |sent.data| == 2 && sent.data[0].name == "access_token" && sent.data[1].name == "batch"
    ensures sent.data[0].value == request.accessToken
    ensures sent.data[1].value == Some(urlEncode(ListToJson(request.batchItems)))
  {
    HttpRequest(BatchUrl, [DataField("access_token", request.accessToken),
                           DataField("batch", Some(urlEncode(ListToJson(request.batchItems))))])
  }

  /** `FacebookService`, with its collaborators as functions. */
  class FacebookService {
    /** `urlFetcher.connect(url).data(..)...post().get()` */
    const fetch: HttpRequest -> FetchOutcome
    /** `om.readValue(content, FacebookErrorResponse.class)`; a JSON `null` decodes to no object */
    const readError: string -> Result<Option<FacebookErrorResponse>, ForeignFailure>
    /** `om.readValue(content, List<BatchResponse>)`; a JSON `null` decodes to no list */
    const readBatch: string -> Result<Option<seq<BatchResponse>>, ForeignFailure>
    /** `URLEncoder.encode(text, "UTF-8")` */
    const urlEncode: string -> string

    constructor (fetch: HttpRequest -> FetchOutcome,
                 readError: string -> Result<Option<FacebookErrorResponse>, ForeignFailure>,
                 readBatch: string -> Result<Option<seq<BatchResponse>>, ForeignFailure>,
                 urlEncode: string -> string)
      ensures this.fetch == fetch && this.readError == readError
      ensures this.readBatch == readBatch && this.urlEncode == urlEncode
    {
      this.fetch := fetch;
      this.readError := readError;
      this.readBatch := readBatch;
      this.urlEncode := urlEncode;
    }

    /** `assertSuccessfulResponse`: nothing for status 200; otherwise the exception the error payload gives. */
    function AssertSuccessfulResponse(response: HttpResponse): (e: Option<Exception>)
      ensures e.None? <==> response.responseCode == 200
      ensures e.Some? ==> e.value == ErrorPayloadException(readError(response.content))
    {
      if response.responseCode != 200 then Some(ErrorPayloadException(readError(response.content))) else None
    }

    /**
     * What `post` makes of the fetch: the content of a 200 answer; otherwise the failure (the
     * fetch's own, or the one `assertSuccessfulResponse` raises) wrapped in a RuntimeException.
     */
    function PostOutcome(outcome: FetchOutcome): (r: Result<string, Exception>)
      ensures r.Ok? <==> outcome.Fetched? && outcome.response.responseCode == 200
      ensures r.Ok? ==> r.value == outcome.response.content
      ensures outcome.FetchFailed? ==> r == Err(RuntimeException(TransportException(outcome.failure)))
      ensures outcome.Fetched? && outcome.response.responseCode != 200 ==>
        r == Err(RuntimeException(ErrorPayloadException(readError(outcome.response.content))))
    {
      match outcome
      case FetchFailed(f) => Err(RuntimeException(TransportException(f)))
      case Fetched(response) =>
        var failure := AssertSuccessfulResponse(response);
        if failure.Some? then Err(RuntimeException(failure.value)) else Ok(response.content)
    }

    /**
     * What `submitBatch` makes of the fetch: for a 200 answer whose list decodes, its first response,
     * or `new BatchResponse()` when the list is empty; every failure wrapped in a RuntimeException.
     */
    function BatchOutcome(outcome: FetchOutcome): (r: Result<BatchResponse, Exception>)
      ensures r.Ok? <==> outcome.Fetched? && outcome.response.responseCode == 200
                         && readBatch(outcome.response.content).Ok? && readBatch(outcome.response.content).value.Some?
      ensures r.Ok? ==> var list := readBatch(outcome.response.content).value.value;
                        r.value == (if list == [] then DefaultBatchResponse else list[0])
      ensures outcome.FetchFailed? ==> r == Err(RuntimeException(TransportException(outcome.failure)))
      ensures outcome.Fetched? && outcome.response.responseCode != 200 ==>
        r == Err(RuntimeException(ErrorPayloadException(readError(outcome.response.content))))
      ensures outcome.Fetched? && outcome.response.responseCode == 200 && readBatch(outcome.response.content).Err? ==>
        r == Err(RuntimeException(CodecException(readBatch(outcome.response.content).error)))
      ensures outcome.Fetched? && outcome.response.responseCode == 200 && readBatch(outcome.response.content) == Ok(None) ==>
        r == Err(RuntimeException(NullPointerException(None)))
    {
      match outcome
      case FetchFailed(f) => Err(RuntimeException(TransportException(f)))
      case Fetched(response) =>
        var failure := AssertSuccessfulResponse(response);
        if failure.Some? then Err(RuntimeException(failure.value))
        else
          match readBatch(response.content)
          case Err(f) => Err(RuntimeException(CodecException(f)))
          case Ok(None) => Err(RuntimeException(NullPointerException(None)))
          case Ok(Some(responses)) => Ok(if responses == [] then DefaultBatchResponse else responses[0])
    }

    /**
     * `post(request)`: a form POST to the post endpoint with six fields, title, message, link,
     * picture, description and access_token, absent optionals sent as "".
     */
    method Post(request: PostRequests.FacebookPostRequest) returns (sent: HttpRequest, result: Result<string, Exception>)
      ensures sent.url == PostUrl(request.facebookId)
      ensures sent.data == [DataField("title", Some(request.name.GetOr(""))),
                            DataField("message", Some(request.message.GetOr(""))),
                            DataField("link", Some(request.link.GetOr(""))),
                            DataField("picture", Some(request.imageUrl.GetOr(""))),
                            DataField("description", Some(request.description.GetOr(""))),
                            DataField("access_token", request.accessToken)]
      ensures result == PostOutcome(fetch(sent))
    {
      var data := [];
      data := data + [DataField("title", Some(request.name.GetOr("")))];
      data := data + [DataField("message", Some(request.message.GetOr("")))];
      data := data + [DataField("link", Some(request.link.GetOr("")))];
      data := data + [DataField("picture", Some(request.imageUrl.GetOr("")))];
      data := data + [DataField("description", Some(request.description.GetOr("")))];
      data := data + [DataField("access_token", request.accessToken)];
      sent := HttpRequest(PostUrl(request.facebookId), data);
      var outcome := fetch(sent);
      if outcome.FetchFailed? {
        result := Err(RuntimeException(TransportException(outcome.failure)));
        return;
      }
      var failure := AssertSuccessfulResponse(outcome.response);
      if failure.Some? {
        result := Err(RuntimeException(failure.value));
        return;
      }
      result := Ok(outcome.response.content);
    }

    /** `submitBatch(request)`: the batch POST, then the first decoded response or a default one. */
    method SubmitBatch(request: BatchRequests.BatchRequest) returns (sent: HttpRequest, result: Result<BatchResponse, Exception>)
      ensures sent == BatchHttpRequest(urlEncode, request)
      ensures result == BatchOutcome(fetch(sent))
    {
      var data := [DataField("access_token", request.accessToken)];
      data := data + [DataField("batch", Some(urlEncode(ListToJson(request.batchItems))))];
      sent := HttpRequest(BatchUrl, data);
      var outcome := fetch(sent);
      if outcome.FetchFailed? {
        result := Err(RuntimeException(TransportException(outcome.failure)));
        return;
      }
      var failure := AssertSuccessfulResponse(outcome.response);
      if failure.Some? {
        result := Err(RuntimeException(failure.value));
        return;
      }
      var decoded := readBatch(outcome.response.content);
      if decoded.Err? {
        result := Err(RuntimeException(CodecException(decoded.error)));
      } else if decoded.value.None? {
        result := Err(RuntimeException(NullPointerException(None)));
      } else {
        var responses := decoded.value.value;
        result := Ok(if responses == [] then DefaultBatchResponse else responses[0]);
      }
    }

    /**
     * `scrape(request)`: a batch request with the request's token and one scrape item per link, in
     * order; its first response becomes the scrape response, whose per-link results stay empty.
     * A failure of the batch call propagates as it is.
     */
    method Scrape(request: ScrapeRequests.ScrapeRequest)
      returns (submitted: BatchRequests.BatchRequest, sent: HttpRequest, result: Result<ScrapeResponses.ScrapeResponse, Exception>)
      ensures submitted.accessToken == request.accessToken
      ensures ScrapeRequests.IsScrapeBatch(request.links, submitted.batchItems)
      ensures sent == BatchHttpRequest(urlEncode, submitted)
      ensures BatchOutcome(fetch(sent)).Ok? ==>
        result == Ok(ScrapeResponses.ScrapeResponse(Some(BatchOutcome(fetch(sent)).value), map[]))
      ensures BatchOutcome(fetch(sent)).Err? ==> result == Err(BatchOutcome(fetch(sent)).error)
    {
      var items := ScrapeRequests.ToBatchItems(request);
      var batch := new BatchRequests.Builder();
      batch.AccessToken(request.accessToken);
      batch.AddItems(items);
      submitted := batch.Build();
      var answer;
      sent, answer := SubmitBatch(submitted);
      if answer.Err? {
        result := Err(answer.error);
        return;
      }
      var response := new ScrapeResponses.Builder();
      response.ApiResponse(Some(answer.value));
      var built := response.Build();
      result := Ok(built);
    }
  }

  /**
   * A post answered with an error payload fails with an exception whose message contains the
   * message of the decoded Facebook error.
   */
  lemma PostErrorCarriesFacebookMessage(service: FacebookService, response: HttpResponse, err: FacebookError)
    requires response.responseCode != 200
    requires service.readError(response.content) == Ok(Some(FacebookErrorResponse(Some(err))))
    requires err.message.Some?
    ensures service.PostOutcome(Fetched(response)).Err?
    ensures Contains(service.PostOutcome(Fetched(response)).error.Message().value, err.message.value)
  {
    assert service.PostOutcome(Fetched(response)) == Err(RuntimeException(FacebookException(err)));
    WrappedMessageContainsErrorMessage(err);
  }
}
