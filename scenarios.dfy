/**
 * The situations the repository's unit tests set up, built with the model's builders and service,
 * with what those tests expect stated as postconditions.
 */
module Scenarios {
  import opened Wrappers
  import opened JavaText
  import opened BatchItems
  import opened BatchResponses
  import opened FacebookErrors
  import BatchRequests
  import LegacyPostRequests
  import LegacyScrapeRequests
  import LegacyScrapeResponses
  import PostRequests
  import ScrapeRequests
  import ScrapeResponses
  import JsonText
  import FormParams
  import opened Entries
  import Service
  import ResultMaps

  method MakeItem(m: HttpMethod, url: string, body: Option<string>) returns (item: BatchItem)
    ensures item == BatchItem(Some(m), Some(url), body)
  {
    var b := new BatchItems.Builder();
    if m == GET {
      b.Get();
    } else {
      b.Post();
    }
    b.RelativeUrl(Some(url));
    b.Body(body);
    item := b.Build();
  }

  /** Items built alike are equal; changing the method, the path or the body makes them differ. */
  method BatchItemEquality() returns (orig: BatchItem, same: BatchItem, diffMethod: BatchItem, diffUrl: BatchItem, diffBody: BatchItem)
    ensures orig.httpMethod.Some? && orig.httpMethod.value.Name() == "POST"
    ensures orig.relativeUrl == Some("/test") && orig.body == Some("message=hello")
    ensures diffMethod.httpMethod.Some? && diffMethod.httpMethod.value.Name() == "GET"
    ensures orig.Equals(same) && same.Equals(orig) && orig.Equals(orig)
    ensures !orig.Equals(diffMethod) && !orig.Equals(diffUrl) && !orig.Equals(diffBody)
  {
    orig := MakeItem(POST, "/test", Some("message=hello"));
    same := MakeItem(POST, "/test", Some("message=hello"));
    diffMethod := MakeItem(GET, "/test", Some("message=hello"));
    diffUrl := MakeItem(POST, "/diff", Some("message=hello"));
    diffBody := MakeItem(POST, "/test", Some("message=diff"));
  }

  method MakeBatch(token: string, items: seq<BatchItem>) returns (request: BatchRequests.BatchRequest)
    ensures request == BatchRequests.BatchRequest(Some(token), items)
  {
    var b := new BatchRequests.Builder();
    b.AccessToken(Some(token));
    b.AddItems(items);
    request := b.Build();
  }

  /** Batch requests are equal when token and items agree; a second copy of the item makes them differ. */
  method BatchRequestEquality()
    returns (orig: BatchRequests.BatchRequest, same: BatchRequests.BatchRequest,
             diffToken: BatchRequests.BatchRequest, diffItems: BatchRequests.BatchRequest)
    ensures orig.accessToken == Some("token") && |orig.batchItems| == 1
    ensures orig.batchItems[0] == BatchItem(Some(POST), Some("/test"), Some("message=hello"))
    ensures orig.Equals(same) && !orig.Equals(diffToken) && !orig.Equals(diffItems)
  {
    var item := MakeItem(POST, "/test", Some("message=hello"));
    var b := new BatchRequests.Builder();
    b.AccessToken(Some("token"));
    b.AddItem(item);
    orig := b.Build();
    var c := new BatchRequests.Builder();
    c.AccessToken(Some("token"));
    c.AddItem(item);
    same := c.Build();
    diffToken := MakeBatch("diffToken", [item]);
    var d := new BatchRequests.Builder();
    d.AccessToken(Some("token"));
    d.AddItemsOf(item, [item]);
    diffItems := d.Build();
  }

  /**
   * Adding links one at a time, as varargs or as a list gives the same scrape request; the token is
   * never set, so it stays null.
   */
  method ScrapeRequestEquality()
    returns (orig: ScrapeRequests.ScrapeRequest, same: ScrapeRequests.ScrapeRequest,
             same2: ScrapeRequests.ScrapeRequest, diffLink: ScrapeRequests.ScrapeRequest)
    ensures orig.links == ["link1", "link2"] && orig.accessToken == None
    ensures same.Equals(same2) && same2.Equals(orig) && orig.Equals(same)
    ensures !orig.Equals(diffLink)
  {
    var a := new ScrapeRequests.Builder();
    a.AddLink("link1");
    a.AddLink("link2");
    orig := a.Build();
    var b := new ScrapeRequests.Builder();
    b.AddLinksOf("link1", ["link2"]);
    same := b.Build();
    var c := new ScrapeRequests.Builder();
    c.AddLinks(["link1", "link2"]);
    same2 := c.Build();
    var d := new ScrapeRequests.Builder();
    d.AddLink("link1");
    d.AddLink("diffLink");
    diffLink := d.Build();
    assert orig.links[1] != diffLink.links[1];
  }

  method MakePost(id: string, title: string, message: string, description: string, imageUrl: string, link: string)
    returns (r: Result<LegacyPostRequests.PostRequest, Exception>)
    ensures r == Ok(LegacyPostRequests.PostRequest(id, Some(title), Some(message), Some(link), Some(imageUrl), Some(description)))
  {
    var b := new LegacyPostRequests.Builder();
    b.FacebookId(Some(id));
    b.Title(Some(title));
    b.Message(Some(message));
    b.Description(Some(description));
    b.ImageUrl(Some(imageUrl));
    b.Link(Some(link));
    r := b.Build();
  }

  /** Post requests with every field equal are equal and hash alike; each changed field makes them differ. */
  method PostRequestEquality()
    returns (orig: LegacyPostRequests.PostRequest, same: LegacyPostRequests.PostRequest,
             diffs: seq<LegacyPostRequests.PostRequest>)
    ensures orig.facebookId == "id" && orig.title == Some("title") && orig.message == Some("message")
    ensures orig.description == Some("description") && orig.link == Some("link") && orig.imageUrl == Some("imgurl")
    ensures orig.Equals(same) && orig.HashCode() == same.HashCode()
    ensures |diffs| == 6 && forall i :: 0 <= i < |diffs| ==> !orig.Equals(diffs[i])
  {
    var r := MakePost("id", "title", "message", "description", "imgurl", "link");
    orig := r.value;
    r := MakePost("id", "title", "message", "description", "imgurl", "link");
    same := r.value;
    var diffId := MakePost("diffId", "title", "message", "description", "imgurl", "link");
    var diffTitle := MakePost("id", "DIFF", "message", "description", "imgurl", "link");
    var diffMessage := MakePost("id", "title", "DIFF", "description", "imgurl", "link");
    var diffDesc := MakePost("id", "title", "message", "DIFF", "imgurl", "link");
    var diffImgUrl := MakePost("id", "title", "message", "description", "DIFF", "link");
    var diffLink := MakePost("id", "title", "message", "description", "imgurl", "DIFF");
    diffs := [diffId.value, diffTitle.value, diffMessage.value, diffDesc.value, diffImgUrl.value, diffLink.value];
  }

  /** A request built with only an id has every optional field absent, as one read with null fields has. */
  method PostRequestOnlyId() returns (r: Result<LegacyPostRequests.PostRequest, Exception>)
    ensures r.Ok? && r.value.facebookId == "id"
    ensures r.value.Equals(LegacyPostRequests.PostRequest("id", None, None, None, None, None))
  {
    var b := new LegacyPostRequests.Builder();
    b.FacebookId(Some("id"));
    r := b.Build();
  }

  /** Building a post request without an id fails with the null-check's message. */
  method PostRequestWithoutId() returns (r: Result<LegacyPostRequests.PostRequest, Exception>)
    ensures r.Err? && r.error.ClassName() == "java.lang.NullPointerException"
    ensures r.error.Message() == Some("facebookId must not be null")
  {
    var b := new LegacyPostRequests.Builder();
    b.Title(Some("title"));
    r := b.Build();
  }

  method MakeScrapeResponse(request: Option<LegacyScrapeRequests.ScrapeRequest>, text: string,
                            failure: Option<LegacyScrapeResponses.Throwable>)
    returns (response: LegacyScrapeResponses.ScrapeResponse)
    ensures response.request == request
    ensures failure.None? ==> response.results == map["link1" := text]
    ensures failure.Some? ==>
      response.results == map["link1" := text, "link2" := LegacyScrapeResponses.FullStackTrace(failure.value)]
  {
    var b := new LegacyScrapeResponses.Builder();
    b.Request(request);
    b.AddResult("link1", text);
    if failure.Some? {
      b.AddExceptionResult("link2", failure.value);
    }
    response := b.Build();
  }

  /**
   * A response holding a success text for one link and an exception for another: both links are
   * keys, the success text is a value and the stored trace contains the exception's message.
   */
  method ScrapeResponseResults(request: LegacyScrapeRequests.ScrapeRequest, frames: seq<string>)
    returns (orig: LegacyScrapeResponses.ScrapeResponse, same: LegacyScrapeResponses.ScrapeResponse,
             diffRequest: LegacyScrapeResponses.ScrapeResponse, diffResult: LegacyScrapeResponses.ScrapeResponse)
    ensures orig.request == Some(request)
    ensures orig.results.Keys == {"link1", "link2"} && orig.results["link1"] == "Success"
    ensures Contains(orig.results["link2"], "Error Msg")
    ensures orig.Equals(same) && !orig.Equals(diffRequest) && !orig.Equals(diffResult)
  {
    var exception := LegacyScrapeResponses.Throwable("java.lang.Exception", Some("Error Msg"), frames);
    LegacyScrapeResponses.StackTraceContainsMessage(exception);
    orig := MakeScrapeResponse(Some(request), "Success", Some(exception));
    same := MakeScrapeResponse(Some(request), "Success", Some(exception));
    diffRequest := MakeScrapeResponse(None, "Success", Some(exception));
    diffResult := MakeScrapeResponse(Some(request), "Diff Response", None);
    assert "link2" in orig.results && "link2" !in diffResult.results;
  }

  const PostItem := BatchItem(Some(POST), Some("/post"), Some("message=hello&description=world"))
  const GetItem := BatchItem(Some(GET), Some("/get?key=1"), None)

  lemma PostItemHead()
    ensures "{\"method\":\"" + "POST" + "\",\"relative_url\":\"" + "/post"
         == "{\"method\":\"POST\",\"relative_url\":\"/post"
  {
    assert "{\"method\":\"" + "POST" == "{\"method\":\"POST";
    assert "{\"method\":\"POST" + "\",\"relative_url\":\"" == "{\"method\":\"POST\",\"relative_url\":\"";
  }

  lemma PostItemTail()
    ensures "{\"method\":\"POST\",\"relative_url\":\"/post" + "\",\"body\":\"" + "message=hello&description=world" + "\"}"
         == "{\"method\":\"POST\",\"relative_url\":\"/post\",\"body\":\"message=hello&description=world\"}"
  {
    assert "{\"method\":\"POST\",\"relative_url\":\"/post" + "\",\"body\":\"" == "{\"method\":\"POST\",\"relative_url\":\"/post\",\"body\":\"";
    assert "{\"method\":\"POST\",\"relative_url\":\"/post\",\"body\":\"" + "message=hello&description=world"
        == "{\"method\":\"POST\",\"relative_url\":\"/post\",\"body\":\"message=hello&description=world";
  }

  lemma PostItemLayout()
    ensures "{\"method\":\"" + "POST" + "\",\"relative_url\":\"" + "/post" + "\",\"body\":\"" + "message=hello&description=world" + "\"}"
         == "{\"method\":\"POST\",\"relative_url\":\"/post\",\"body\":\"message=hello&description=world\"}"
  {
    PostItemHead();
    PostItemTail();
  }

  lemma GetItemLayout()
    ensures "{\"method\":\"" + "GET" + "\",\"relative_url\":\"" + "/get?key=1" + "\"}"
         == "{\"method\":\"GET\",\"relative_url\":\"/get?key=1\"}"
  {
    assert "{\"method\":\"" + "GET" == "{\"method\":\"GET";
    assert "{\"method\":\"GET" + "\",\"relative_url\":\"" == "{\"method\":\"GET\",\"relative_url\":\"";
  }

  /** The POST item of the batch test is written with its three properties. */
  lemma PostItemJson()
    ensures ToJson(PostItem) == "{\"method\":\"POST\",\"relative_url\":\"/post\",\"body\":\"message=hello&description=world\"}"
  {
    assert JsonText.Plain("/post") && JsonText.Plain("message=hello&description=world");
    FullJson(POST, "/post", "message=hello&description=world");
    PostItemLayout();
  }

  /** The GET item of the batch test has no body, so its object has no body property. */
  lemma GetItemJson()
    ensures ToJson(GetItem) == "{\"method\":\"GET\",\"relative_url\":\"/get?key=1\"}"
  {
    assert JsonText.Plain("/get?key=1");
    NoBodyJson(GET, "/get?key=1");
    GetItemLayout();
  }

  /** The JSON list the batch test expects, item after item. */
  lemma BatchJson()
    ensures ListToJson([PostItem, GetItem])
         == "[" + "{\"method\":\"POST\",\"relative_url\":\"/post\",\"body\":\"message=hello&description=world\"}"
          + "," + "{\"method\":\"GET\",\"relative_url\":\"/get?key=1\"}" + "]"
  {
    PostItemJson();
    GetItemJson();
    ListOfTwoJson(PostItem, GetItem);
  }

  /** Posting for id "facebookId" calls the post endpoint of that id; a 200 answer gives its content. */
  method PostToFeed(service: Service.FacebookService, systemZone: PostRequests.LocalDateTime -> int64)
    returns (sent: Service.HttpRequest, result: Result<string, Exception>)
    requires forall r :: service.fetch(r) == Service.Fetched(Service.HttpResponse(200, "SUCCESS"))
    ensures sent.url == "https://graph.facebook.com/v2.8/facebookId/feed"
    ensures result == Ok("SUCCESS")
  {
    var b := new PostRequests.Builder();
    b.FacebookId(Some("facebookId"));
    var request := b.Build(systemZone);
    sent, result := service.Post(request);
    assert "https://graph.facebook.com/v2.8/" + "facebookId" == "https://graph.facebook.com/v2.8/facebookId";
  }

  /** A post sends title, message, link, picture, description and access_token, with the builder's values. */
  method PostPayload(service: Service.FacebookService, systemZone: PostRequests.LocalDateTime -> int64)
    returns (sent: Service.HttpRequest)
    ensures |sent.data| == 6
    ensures forall i :: 0 <= i < 6 ==> sent.data[i].name == ["title", "message", "link", "picture", "description", "access_token"][i]
    ensures forall i :: 0 <= i < 6 ==>
      sent.data[i].value == Some(["Post Title", "Post Message", "localhost:8080/post_link",
                                  "localhost:8080/image.png", "Post Description", "mock_access_token"][i])
  {
    var b := new PostRequests.Builder();
    b.FacebookId(Some("id"));
    b.AccessToken(Some("mock_access_token"));
    b.Title(Some("Post Title"));
    b.Message(Some("Post Message"));
    b.Description(Some("Post Description"));
    b.Link(Some("localhost:8080/post_link"));
    b.ImageUrl(Some("localhost:8080/image.png"));
    var request := b.Build(systemZone);
    var result;
    sent, result := service.Post(request);
  }

  /** The batch test's request sends its token and the URL-encoded JSON list of its two items. */
  method BatchPayload(service: Service.FacebookService) returns (sent: Service.HttpRequest)
    ensures sent.url == "https://graph.facebook.com"
    ensures sent.data == [Service.DataField("access_token", Some("sample_token")),
                          Service.DataField("batch", Some(service.urlEncode(
                            "[" + "{\"method\":\"POST\",\"relative_url\":\"/post\",\"body\":\"message=hello&description=world\"}"
                            + "," + "{\"method\":\"GET\",\"relative_url\":\"/get?key=1\"}" + "]")))]
  {
    var post := MakeItem(POST, "/post", Some("message=hello&description=world"));
    var get := MakeItem(GET, "/get?key=1", None);
    var b := new BatchRequests.Builder();
    b.AccessToken(Some("sample_token"));
    b.AddItem(post);
    b.AddItem(get);
    var request := b.Build();
    var result;
    sent, result := service.SubmitBatch(request);
    BatchJson();
  }

  /** A batch call answered with a one-element list gives that element. */
  method BatchAnswer(service: Service.FacebookService) returns (result: Result<BatchResponse, Exception>)
    requires forall r :: service.fetch(r) == Service.Fetched(Service.HttpResponse(200, "[{\"code\":200,\"body\":\"SUCCESS\"}]"))
    requires service.readBatch("[{\"code\":200,\"body\":\"SUCCESS\"}]") == Ok(Some([BatchResponse(200, None, Some("SUCCESS"))]))
    ensures result.Ok? && result.value.code == 200 && result.value.body == Some("SUCCESS")
  {
    var post := MakeItem(POST, "/post", Some("message=hello&description=world"));
    var get := MakeItem(GET, "/get?key=1", None);
    var b := new BatchRequests.Builder();
    b.AddItem(post);
    b.AddItem(get);
    var request := b.Build();
    var sent;
    sent, result := service.SubmitBatch(request);
  }

  /** A scrape goes to the batch endpoint, and the batch's first answer becomes the scrape response. */
  method ScrapeAnswer(service: Service.FacebookService) returns (sent: Service.HttpRequest, result: Result<ScrapeResponses.ScrapeResponse, Exception>)
    requires forall r :: service.fetch(r) == Service.Fetched(Service.HttpResponse(200, "[{\"code\":200,\"body\":\"SUCCESS\"}]"))
    requires service.readBatch("[{\"code\":200,\"body\":\"SUCCESS\"}]") == Ok(Some([BatchResponse(200, None, Some("SUCCESS"))]))
    ensures sent.url == "https://graph.facebook.com"
    ensures result.Ok? && result.value.apiResponse == Some(BatchResponse(200, None, Some("SUCCESS")))
  {
    var b := new ScrapeRequests.Builder();
    b.AddLink("localhost1");
    b.AddLink("localhost2");
    var request := b.Build();
    var submitted;
    submitted, sent, result := service.Scrape(request);
  }

  /**
   * A post scheduled for later is sent as an unpublished post with the publish time, in seconds
   * since the epoch, after its set optional parameters.
   */
  method ScheduledPost(systemZone: PostRequests.LocalDateTime -> int64, at: PostRequests.LocalDateTime)
    returns (params: string)
    requires systemZone(at) == 1454328825
    ensures params == "&message=hello&published=false&scheduled_publish_time=1454328825"
  {
    var b := new PostRequests.Builder();
    b.FacebookId(Some("id"));
    b.Message(Some("hello"));
    b.SchedulePublish(Some(at));
    var request := b.Build(systemZone);
    params := request.ToUrlParams();
    PostRequests.UnpublishedSuffix(request.Fields());
    HelloOnly(request.Fields());
    ScheduledLayout();
  }

  lemma ScheduledLayout()
    ensures "&message=hello" + "&published=false" + "&scheduled_publish_time=" + LongText(1454328825)
         == "&message=hello&published=false&scheduled_publish_time=1454328825"
  {
    EpochText();
    SchedulingText("1454328825");
    assert "&message=hello&published=false&scheduled_publish_time=" + "1454328825"
        == "&message=hello&published=false&scheduled_publish_time=1454328825";
  }

  lemma EpochText()
    ensures LongText(1454328825) == "1454328825"
  {
    assert NatText(1) == "1";
    assert NatText(14) == NatText(1) + "4";
    assert NatText(145) == NatText(14) + "5";
    assert NatText(1454) == NatText(145) + "4";
    assert NatText(14543) == NatText(1454) + "3";
    assert NatText(145432) == NatText(14543) + "2";
    assert NatText(1454328) == NatText(145432) + "8";
    assert NatText(14543288) == NatText(1454328) + "8";
    assert NatText(145432882) == NatText(14543288) + "2";
    assert NatText(1454328825) == NatText(145432882) + "5";
  }

  lemma SchedulingText(t: string)
    ensures "&message=hello" + "&published=false" + "&scheduled_publish_time=" + t
         == "&message=hello&published=false&scheduled_publish_time=" + t
  {
    assert "&message=hello" + "&published=false" == "&message=hello&published=false";
    assert "&message=hello&published=false" + "&scheduled_publish_time=" == "&message=hello&published=false&scheduled_publish_time=";
  }

  lemma HelloOnly(f: PostRequests.PostFields)
    requires f.name == None && f.message == Some("hello") && f.link == None && f.imageUrl == None && f.description == None
    ensures FormParams.Encode(Present(PostRequests.OptionalEntries(f))) == "&message=hello"
  {
    var es := PostRequests.OptionalEntries(f);
    assert Present(es) == [Pair("message", "hello")] by {
      PresentCons(es);
      PresentCons(es[1..]);
      PresentCons(es[2..]);
      PresentCons(es[3..]);
      PresentCons(es[4..]);
    }
    assert FormParams.Encode([Pair("message", "hello")]) == FormParams.Segment(Pair("message", "hello")) + FormParams.Encode([]);
  }

  /**
   * Any sequence of `addResult` calls on a fresh builder: the built map is the puts applied in
   * order, so it holds exactly the links put, each with the text of its last put.
   */
  method AddResults(puts: seq<ResultMaps.Put>) returns (response: ScrapeResponses.ScrapeResponse)
    ensures response.apiResponse == None
    ensures response.results == ResultMaps.PutAll(map[], puts)
    ensures response.results.Keys == ResultMaps.Links(puts)
  {
    var b := new ScrapeResponses.Builder();
    for n := 0 to |puts|
      invariant b.apiResponse == None
      invariant b.results == ResultMaps.PutAll(map[], puts[..n])
    {
      assert puts[..n + 1][..n] == puts[..n];
      b.AddResult(puts[n].link, puts[n].text);
    }
    assert puts[..|puts|] == puts;
    response := b.Build();
    ResultMaps.PutAllKeys(map[], puts);
  }
}
