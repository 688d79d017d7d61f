# A model of the beachninja Facebook Graph API client

The client publishes link posts to a user's or a page's feed and asks the Graph API to re-scrape
links. It also submits Graph API batch calls. Most of it is value objects with builders. The
logic lies in how those values turn into what goes over the wire:

- the form body `toUrlParams` writes for a post (`&name=…&message=…&published=false&scheduled_publish_time=…`);
- the batch item a post or a scrape link becomes;
- the JSON list of batch items;
- the form fields `FacebookService` hands to its URL fetcher;
- what the service makes of the answer.

This project models that layer in Dafny and proves what it promises.

- **Modules.** Each core Java class is one Dafny module:
  - `PostRequests` for `post/FacebookPostRequest`;
  - `ScrapeRequests`, `ScrapeResponses`, `BatchItems`, `BatchRequests` and `Service` for the scrape, batch and service classes;
  - `LegacyPostRequests`, `LegacyScrapeRequests` and `LegacyScrapeResponses` for the older `request`/`response` packages.
- **Values and builders.** Immutable Java objects are datatypes. A Java `null` is `None`. Builders, and the mutable JavaBean `post/FacebookPostRequest`, are classes whose methods change their fields under `modifies` clauses.
- **Shared modules.** `Entries` is present/absent named fields. `FormParams` is the `&key=value` body and a reader for it. `JsonText` is Jackson's string escaping and object/array layout. `JavaText` is `Long.toString`, `String.valueOf(null)` and `String.hashCode`. `FacebookErrors` is the error payload and the exceptions. `ResultMaps` is the put/overwrite semantics of the per-link result maps.
- **Collaborators.** The service's URL fetcher, its JSON decoder and `URLEncoder` are function-valued fields of the service object. The host's time zone is a function parameter of `Builder.Build`.
- **Test scenarios.** `Scenarios` restates the repository's unit tests as verified methods and lemmas over the model.

Source paths below are relative to the repository root.

## Model

| member | source | states |
|---|---|---|
| PostRequests.FacebookPostRequest.constructor | src/main/java/com/beachninja/facebook/post/FacebookPostRequest.java:45-68 | the seven texts are stored as given; the post is published exactly when there is no schedule; without one the epoch is 0, with one it is the schedule read in the host's zone |
| PostRequests.FacebookPostRequest.SetAccessToken | src/main/java/com/beachninja/facebook/post/FacebookPostRequest.java:98-101 | only the access token changes; every other field keeps its value |
| PostRequests.FacebookPostRequest.SetFacebookId | src/main/java/com/beachninja/facebook/post/FacebookPostRequest.java:103-106 | only the id changes |
| PostRequests.FacebookPostRequest.SetName | src/main/java/com/beachninja/facebook/post/FacebookPostRequest.java:108-111 | only the name changes; a null name makes it absent |
| PostRequests.FacebookPostRequest.SetMessage | src/main/java/com/beachninja/facebook/post/FacebookPostRequest.java:113-116 | only the message changes; null makes it absent |
| PostRequests.FacebookPostRequest.SetLink | src/main/java/com/beachninja/facebook/post/FacebookPostRequest.java:118-121 | only the link changes; null makes it absent |
| PostRequests.FacebookPostRequest.SetImageUrl | src/main/java/com/beachninja/facebook/post/FacebookPostRequest.java:123-126 | only the image URL changes; null makes it absent |
| PostRequests.FacebookPostRequest.SetDescription | src/main/java/com/beachninja/facebook/post/FacebookPostRequest.java:128-131 | only the description changes; null makes it absent |
| PostRequests.FacebookPostRequest.SetPublished | src/main/java/com/beachninja/facebook/post/FacebookPostRequest.java:133-136 | only the published flag changes |
| PostRequests.FacebookPostRequest.SetScheduledPublishTimeEpoch | src/main/java/com/beachninja/facebook/post/FacebookPostRequest.java:138-141 | only the epoch changes |
| PostRequests.AppendIfPresent | src/main/java/com/beachninja/facebook/post/FacebookPostRequest.java:154-158 | one `ifPresent` step appends the entry's `&key=value` segment when the value is present and nothing otherwise |
| PostRequests.FacebookPostRequest.ToUrlParams | src/main/java/com/beachninja/facebook/post/FacebookPostRequest.java:152-166 | the text built step by step in the StringBuilder is the form encoding of the present parameters, in the order name, message, link, picture, description, published, scheduled_publish_time |
| PostRequests.OptionalSegments | src/main/java/com/beachninja/facebook/post/FacebookPostRequest.java:154-158 | the five `ifPresent` appends, one after another, give exactly the encoding of the five optional parameters |
| PostRequests.SchedulingSegments | src/main/java/com/beachninja/facebook/post/FacebookPostRequest.java:161-164 | the scheduling parameters add the `published` and `scheduled_publish_time` segments for an unpublished post and nothing for a published one |
| PostRequests.ScheduledTail | src/main/java/com/beachninja/facebook/post/FacebookPostRequest.java:161-165 | what the unpublished branch appends after the optional segments completes the body, and a published post's body is the optional segments alone |
| PostRequests.UnpublishedSuffix | src/main/java/com/beachninja/facebook/post/FacebookPostRequest.java:161-164 | an unpublished post's body is its optional segments followed by `&published=false&scheduled_publish_time=<epoch>` |
| PostRequests.UrlParamsEmpty | src/main/java/com/beachninja/facebook/post/FacebookPostRequest.java:152-165 | the body is empty if and only if the post is published and all five optional fields are absent |
| PostRequests.ParamKeysOf | src/main/java/com/beachninja/facebook/post/FacebookPostRequest.java:154-163 | the body's seven parameter names are distinct, and the entries follow that order |
| PostRequests.ParamValues | src/main/java/com/beachninja/facebook/post/FacebookPostRequest.java:154-163 | each parameter among the present ones is its field's value: `picture` is the image URL, and `published`/`scheduled_publish_time` are present only for an unpublished post |
| PostRequests.UrlParamsDecode | src/main/java/com/beachninja/facebook/post/FacebookPostRequest.java:152-166 | reading the body back gives the parameter names in `ParamKeys` order, each at most once. Each name is present exactly when its field is, with that field's value; the two scheduling parameters are present exactly when the post is unpublished. This needs values without `&` |
| PostRequests.FacebookPostRequest.ToBatchItem | src/main/java/com/beachninja/facebook/post/FacebookPostRequest.java:168-173 | a POST item whose path is `<facebookId>/feed` (`null/feed` for a null id) and whose body is the form body |
| PostRequests.FacebookPostRequest.Equals | src/main/java/com/beachninja/facebook/post/FacebookPostRequest.java:175-189 | true if and only if all nine fields agree |
| PostRequests.Builder.constructor | src/main/java/com/beachninja/facebook/post/FacebookPostRequest.java:214-222 | a fresh builder has every setting unset |
| PostRequests.Builder.AccessToken | src/main/java/com/beachninja/facebook/post/FacebookPostRequest.java:224-227 | only the token setting changes |
| PostRequests.Builder.FacebookId | src/main/java/com/beachninja/facebook/post/FacebookPostRequest.java:229-232 | only the id setting changes |
| PostRequests.Builder.Title | src/main/java/com/beachninja/facebook/post/FacebookPostRequest.java:234-237 | only the title setting changes |
| PostRequests.Builder.Message | src/main/java/com/beachninja/facebook/post/FacebookPostRequest.java:239-242 | only the message setting changes |
| PostRequests.Builder.Link | src/main/java/com/beachninja/facebook/post/FacebookPostRequest.java:244-247 | only the link setting changes |
| PostRequests.Builder.ImageUrl | src/main/java/com/beachninja/facebook/post/FacebookPostRequest.java:249-252 | only the image URL setting changes |
| PostRequests.Builder.Description | src/main/java/com/beachninja/facebook/post/FacebookPostRequest.java:254-257 | only the description setting changes |
| PostRequests.Builder.SchedulePublish | src/main/java/com/beachninja/facebook/post/FacebookPostRequest.java:259-262 | only the schedule setting changes |
| PostRequests.Builder.Build | src/main/java/com/beachninja/facebook/post/FacebookPostRequest.java:264-267 | a new request whose name is the builder's title and whose publish flag and epoch follow the schedule as in the constructor |
| JavaText.LongTextRoundTrip | src/main/java/com/beachninja/facebook/post/FacebookPostRequest.java:163 | the decimal text appended for the epoch reads back as the same long |
| FormParams.DecodeEncode | src/main/java/com/beachninja/facebook/post/FacebookPostRequest.java:152-166 | a body of `&key=value` segments whose keys hold no `&` or `=` and whose values hold no `&` reads back as exactly the pairs it was written from |
| BatchItems.BatchItem.Equals | src/main/java/com/beachninja/facebook/batch/BatchItem.java:61-73 | true if and only if method, relative URL and body all agree |
| BatchItems.Builder.constructor | src/main/java/com/beachninja/facebook/batch/BatchItem.java:96-98 | a fresh builder has no method, no path and no body |
| BatchItems.Builder.Get | src/main/java/com/beachninja/facebook/batch/BatchItem.java:100-103 | the method becomes GET, whatever it was; path and body are unchanged |
| BatchItems.Builder.Post | src/main/java/com/beachninja/facebook/batch/BatchItem.java:105-108 | the method becomes POST, whatever it was; path and body are unchanged |
| BatchItems.Builder.RelativeUrl | src/main/java/com/beachninja/facebook/batch/BatchItem.java:110-113 | the path becomes the argument; method and body are unchanged |
| BatchItems.Builder.Body | src/main/java/com/beachninja/facebook/batch/BatchItem.java:115-118 | the body becomes the argument; method and path are unchanged |
| BatchItems.Builder.Build | src/main/java/com/beachninja/facebook/batch/BatchItem.java:120-122 | the item carries the three settings as they are; unset ones stay absent |
| BatchItems.JsonShape | src/main/java/com/beachninja/facebook/batch/BatchItem.java:13-27 | the JSON object names `method`, `relative_url` and `body` in that order, each at most once; each is named exactly when it is set, with its value |
| BatchItems.NoBodyJson | src/main/java/com/beachninja/facebook/batch/BatchItem.java:13-27 | an item with a method and a path but no body is written as `{"method":"…","relative_url":"…"}` |
| BatchItems.FullJson | src/main/java/com/beachninja/facebook/batch/BatchItem.java:13-27 | an item with all three fields is written as `{"method":"…","relative_url":"…","body":"…"}` |
| BatchItems.ListOfTwoJson | src/main/java/com/beachninja/facebook/service/FacebookService.java:117 | a list of two items is written as `[` first object `,` second object `]` |
| JsonText.UnescapeEscape | src/main/java/com/beachninja/facebook/service/FacebookService.java:117 | Jackson's string escaping loses nothing: unescaping the escaped text gives the original text back |
| BatchRequests.BatchRequest.Equals | src/main/java/com/beachninja/facebook/batch/BatchRequest.java:57-68 | true if and only if the tokens agree and the item lists are equal in order |
| BatchRequests.Builder.constructor | src/main/java/com/beachninja/facebook/batch/BatchRequest.java:86-89 | a fresh builder has no token and no items |
| BatchRequests.Builder.AccessToken | src/main/java/com/beachninja/facebook/batch/BatchRequest.java:91-94 | the token becomes the argument; the items are unchanged |
| BatchRequests.Builder.AddItem | src/main/java/com/beachninja/facebook/batch/BatchRequest.java:96-99 | exactly one item is appended at the end; earlier items and the token are unchanged |
| BatchRequests.Builder.AddItems | src/main/java/com/beachninja/facebook/batch/BatchRequest.java:101-104 | the collection's items are appended in order |
| BatchRequests.Builder.AddItemsOf | src/main/java/com/beachninja/facebook/batch/BatchRequest.java:106-109 | the first item and then the rest are appended in argument order |
| BatchRequests.Builder.Build | src/main/java/com/beachninja/facebook/batch/BatchRequest.java:111-113 | the request holds the token and the items in insertion order, as a value later builder calls cannot reach |
| ScrapeRequests.ScrapeRequest.Equals | src/main/java/com/beachninja/facebook/scrape/FacebookScrapeRequest.java:53-64 | true if and only if tokens and ordered link lists agree |
| ScrapeRequests.UrlParams | src/main/java/com/beachninja/facebook/scrape/FacebookScrapeRequest.java:86-91 | the scrape body is the form encoding of `id=<link>` followed by `scrape=true` |
| ScrapeRequests.UrlParamsDecode | src/main/java/com/beachninja/facebook/scrape/FacebookScrapeRequest.java:86-91 | reading a scrape body back gives the link under `id` and `true` under `scrape`, for a link without `&` |
| ScrapeRequests.ToBatchItems | src/main/java/com/beachninja/facebook/scrape/FacebookScrapeRequest.java:78-84 | one item per link, same length and order: each a POST with no path and the link's scrape body (so no links give no items) |
| ScrapeRequests.Builder.constructor | src/main/java/com/beachninja/facebook/scrape/FacebookScrapeRequest.java:96-98 | a fresh builder has no token and no links |
| ScrapeRequests.Builder.AccessToken | src/main/java/com/beachninja/facebook/scrape/FacebookScrapeRequest.java:100-103 | the token becomes the argument; the links are unchanged |
| ScrapeRequests.Builder.AddLink | src/main/java/com/beachninja/facebook/scrape/FacebookScrapeRequest.java:105-108 | exactly one link is appended at the end |
| ScrapeRequests.Builder.AddLinks | src/main/java/com/beachninja/facebook/scrape/FacebookScrapeRequest.java:110-113 | the collection's links are appended in order |
| ScrapeRequests.Builder.AddLinksOf | src/main/java/com/beachninja/facebook/scrape/FacebookScrapeRequest.java:115-118 | the first link and then the rest are appended in order |
| ScrapeRequests.Builder.Build | src/main/java/com/beachninja/facebook/scrape/FacebookScrapeRequest.java:120-122 | the request holds the token and the links in order, as a value later builder calls cannot reach |
| ScrapeResponses.ScrapeResponse.Equals | src/main/java/com/beachninja/facebook/scrape/FacebookScrapeResponse.java:54-65 | true if and only if the batch responses and the result maps agree |
| ScrapeResponses.Builder.constructor | src/main/java/com/beachninja/facebook/scrape/FacebookScrapeResponse.java:83-87 | a fresh builder has no batch response and an empty map |
| ScrapeResponses.Builder.ApiResponse | src/main/java/com/beachninja/facebook/scrape/FacebookScrapeResponse.java:89-92 | only the batch response changes; the results are untouched |
| ScrapeResponses.Builder.AddResult | src/main/java/com/beachninja/facebook/scrape/FacebookScrapeResponse.java:94-97 | the link maps to the text, replacing any earlier entry; other links and the batch response are unchanged |
| ScrapeResponses.Builder.Build | src/main/java/com/beachninja/facebook/scrape/FacebookScrapeResponse.java:99-101 | the response holds the batch response and a copy of the map |
| ResultMaps.PutAllKeys | src/main/java/com/beachninja/facebook/scrape/FacebookScrapeResponse.java:94-97 | after a run of puts the keys are the keys before plus exactly the links put |
| ResultMaps.PutAllLastWins | src/main/java/com/beachninja/facebook/scrape/FacebookScrapeResponse.java:94-97 | a link's value is the text of its last put: later puts overwrite earlier ones |
| ResultMaps.PutAllElsewhere | src/main/java/com/beachninja/facebook/scrape/FacebookScrapeResponse.java:94-97 | a link no put names keeps its entry, or its absence |
| Service.FacebookService.constructor | src/main/java/com/beachninja/facebook/service/FacebookService.java:57-62 | the service keeps the fetcher, the decoders and the URL encoder it is given |
| Service.ErrorPayloadException | src/main/java/com/beachninja/facebook/service/FacebookService.java:131-141 | a decoded error payload gives a FacebookException carrying that error; a null payload or error object gives a NullPointerException; a decoder IOException is wrapped in a RuntimeException |
| Service.FacebookService.AssertSuccessfulResponse | src/main/java/com/beachninja/facebook/service/FacebookService.java:131-141 | an exception is raised if and only if the status is not 200, and it is the one the error payload gives |
| Service.FacebookService.PostOutcome | src/main/java/com/beachninja/facebook/service/FacebookService.java:78-84 | success if and only if the fetch answered 200, with the answer's content; every failure is wrapped in a RuntimeException |
| Service.FacebookService.Post | src/main/java/com/beachninja/facebook/service/FacebookService.java:69-85 | posts to `https://graph.facebook.com/v2.8/<id>/feed` with exactly the six fields title, message, link, picture, description and access_token, in that order; absent texts are sent as "" |
| Service.PostErrorCarriesFacebookMessage | src/main/java/com/beachninja/facebook/service/FacebookService.java:82-84 | a post answered with a non-200 error payload fails with a message that contains the Facebook error's message |
| FacebookErrors.ErrorText | src/main/java/com/beachninja/facebook/error/FacebookError.java:57-65 | the text opens with `FacebookError{message=<message>`, holds `, type=<type>` and `, code=<code>`, and closes with `, fbtraceId=<id>}`; a null field reads `null` |
| FacebookErrors.WrappedMessageContainsErrorMessage | src/main/java/com/beachninja/facebook/exception/FacebookException.java:18-21 | the message of a FacebookException, and of a RuntimeException around it, contains the error's message |
| Service.BatchHttpRequest | src/main/java/com/beachninja/facebook/service/FacebookService.java:115-117 | a batch call goes to `https://graph.facebook.com` with exactly two fields: access_token with the token, then batch with the URL-encoded JSON list of the items |
| Service.FacebookService.BatchOutcome | src/main/java/com/beachninja/facebook/service/FacebookService.java:118-128 | success if and only if the fetch answered 200 and the list decodes; the result is then the first response, or `new BatchResponse()` (code 0, no headers, no body) for an empty list; each failure is wrapped in a RuntimeException |
| Service.FacebookService.SubmitBatch | src/main/java/com/beachninja/facebook/service/FacebookService.java:113-129 | sends the batch request and returns its outcome |
| Service.FacebookService.Scrape | src/main/java/com/beachninja/facebook/service/FacebookService.java:94-103 | submits a batch with the request's token and one scrape item per link, in order. The batch answer is the response's batch response, and the per-link results stay empty. A failure propagates unchanged |
| LegacyPostRequests.NewPostRequest | src/main/java/com/beachninja/facebook/request/FacebookPostRequest.java:57-70 | fails with a NullPointerException carrying "facebookId must not be null" if and only if the id is null; otherwise all six fields are stored as given, and a getter's value is absent exactly when its field was not set |
| JavaText.CodeUnitsAppend | src/main/java/com/beachninja/facebook/request/FacebookPostRequest.java:113-115 | the `char`s `String.hashCode` runs over: every character adds its own UTF-16 units at the end, one unit in the Basic Multilingual Plane and two surrogates above it |
| JavaText.CodeUnitsConcat | src/main/java/com/beachninja/facebook/request/FacebookPostRequest.java:113-115 | the code units of a concatenation are those of the first part followed by those of the second |
| JavaText.NonBmpHash | src/main/java/com/beachninja/facebook/request/FacebookPostRequest.java:113-115 | any single character above 0xFFFF hashes as 31 * high surrogate + low surrogate, in `int` arithmetic |
| JavaText.SurrogatePairHash | src/main/java/com/beachninja/facebook/request/FacebookPostRequest.java:113-115 | the instance U+1F600: its hash is Java's 1772899 (31 * 0xD83D + 0xDE00) |
| LegacyPostRequests.PostRequest.Equals | src/main/java/com/beachninja/facebook/request/FacebookPostRequest.java:96-115 | true if and only if all six fields agree; equal requests have equal hash codes |
| LegacyPostRequests.Builder.constructor | src/main/java/com/beachninja/facebook/request/FacebookPostRequest.java:132-138 | a fresh builder has every field unset |
| LegacyPostRequests.Builder.FacebookId | src/main/java/com/beachninja/facebook/request/FacebookPostRequest.java:141-144 | only the id setting changes |
| LegacyPostRequests.Builder.Title | src/main/java/com/beachninja/facebook/request/FacebookPostRequest.java:145-148 | only the title setting changes |
| LegacyPostRequests.Builder.Message | src/main/java/com/beachninja/facebook/request/FacebookPostRequest.java:149-152 | only the message setting changes |
| LegacyPostRequests.Builder.Link | src/main/java/com/beachninja/facebook/request/FacebookPostRequest.java:153-156 | only the link setting changes |
| LegacyPostRequests.Builder.ImageUrl | src/main/java/com/beachninja/facebook/request/FacebookPostRequest.java:157-160 | only the image URL setting changes |
| LegacyPostRequests.Builder.Description | src/main/java/com/beachninja/facebook/request/FacebookPostRequest.java:161-164 | only the description setting changes |
| LegacyPostRequests.Builder.Build | src/main/java/com/beachninja/facebook/request/FacebookPostRequest.java:165-167 | the checked constructor applied to the settings |
| LegacyScrapeRequests.ScrapeRequest.Equals | src/main/java/com/beachninja/facebook/request/FacebookScrapeRequest.java:42-52 | true if and only if the ordered link lists agree |
| LegacyScrapeRequests.Builder.constructor | src/main/java/com/beachninja/facebook/request/FacebookScrapeRequest.java:70-71 | a fresh builder has no links |
| LegacyScrapeRequests.Builder.AddLink | src/main/java/com/beachninja/facebook/request/FacebookScrapeRequest.java:73-76 | exactly one link is appended at the end |
| LegacyScrapeRequests.Builder.AddLinks | src/main/java/com/beachninja/facebook/request/FacebookScrapeRequest.java:77-80 | the collection's links are appended in order |
| LegacyScrapeRequests.Builder.AddLinksOf | src/main/java/com/beachninja/facebook/request/FacebookScrapeRequest.java:81-84 | the first link and then the rest are appended in order |
| LegacyScrapeRequests.Builder.Build | src/main/java/com/beachninja/facebook/request/FacebookScrapeRequest.java:86-88 | the request holds the links in order, as a value that neither later builder calls nor callers of `getLinks` can reach |
| LegacyScrapeResponses.ScrapeResponse.Equals | src/main/java/com/beachninja/facebook/response/FacebookScrapeResponse.java:55-66 | true if and only if the requests and the result maps agree |
| LegacyScrapeResponses.Builder.constructor | src/main/java/com/beachninja/facebook/response/FacebookScrapeResponse.java:84-88 | a fresh builder has no request and an empty map |
| LegacyScrapeResponses.Builder.Request | src/main/java/com/beachninja/facebook/response/FacebookScrapeResponse.java:90-93 | only the request changes |
| LegacyScrapeResponses.Builder.AddResult | src/main/java/com/beachninja/facebook/response/FacebookScrapeResponse.java:94-97 | the link maps to the text, replacing any earlier entry; nothing else changes |
| LegacyScrapeResponses.Builder.AddExceptionResult | src/main/java/com/beachninja/facebook/response/FacebookScrapeResponse.java:98-101 | the link maps to the exception's full stack trace, replacing any earlier entry; nothing else changes |
| LegacyScrapeResponses.StackTraceContainsMessage | src/main/java/com/beachninja/facebook/response/FacebookScrapeResponse.java:98-101 | the stack trace stored for an exception names its class and contains its message |
| LegacyScrapeResponses.Builder.Build | src/main/java/com/beachninja/facebook/response/FacebookScrapeResponse.java:103-105 | the response holds the request and a copy of the map |
| Scenarios.BatchItemEquality | src/test/java/com/beachninja/facebook/batch/BatchItemTest.java:17-37 | the built items report POST and GET, `/test` and `message=hello`; equal settings give equal items, and a different method, path or body gives unequal ones |
| Scenarios.BatchRequestEquality | src/test/java/com/beachninja/facebook/batch/BatchRequestTest.java:17-36 | the request reports token `token` and exactly its one item; a different token, or `[item, item]` instead of `[item]`, gives an unequal request |
| Scenarios.ScrapeRequestEquality | src/test/java/com/beachninja/facebook/request/FacebookScrapeRequestTest.java:19-37 | repeated `addLink`, `addLinks(a, b)` and `addLinks(list)` build equal `scrape.FacebookScrapeRequest` values with links `link1, link2` and a null token; a different second link gives an unequal one |
| Scenarios.PostRequestEquality | src/test/java/com/beachninja/facebook/request/FacebookPostRequestTest.java:20-58 | the getters return the built values; equal settings give equal requests with equal hash codes; each of the six single-field changes gives an unequal request |
| Scenarios.PostRequestOnlyId | src/test/java/com/beachninja/facebook/request/FacebookPostRequestTest.java:71-78 | a request with only an id equals the one whose other five fields are all null |
| Scenarios.PostRequestWithoutId | src/main/java/com/beachninja/facebook/request/FacebookPostRequest.java:63 | building without an id fails with a java.lang.NullPointerException whose message is "facebookId must not be null" |
| Scenarios.ScrapeResponseResults | src/test/java/com/beachninja/facebook/response/FacebookScrapeResponseTest.java:19-44 | the response's results have keys exactly `link1` and `link2`, with "Success" under `link1` and a text containing "Error Msg" under `link2`; a null request or a different map gives an unequal response |
| Scenarios.PostItemJson | src/test/java/com/beachninja/facebook/service/FacebookServiceTest.java:200-210 | the test's POST item is written as `{"method":"POST","relative_url":"/post","body":"message=hello&description=world"}` |
| Scenarios.GetItemJson | src/test/java/com/beachninja/facebook/service/FacebookServiceTest.java:201-211 | the test's GET item is written as `{"method":"GET","relative_url":"/get?key=1"}` |
| Scenarios.BatchJson | src/test/java/com/beachninja/facebook/service/FacebookServiceTest.java:199-211 | the test's two items are written as the JSON array of those two objects |
| Scenarios.BatchPayload | src/test/java/com/beachninja/facebook/service/FacebookServiceTest.java:193-212 | the batch call sends exactly `access_token=sample_token` and then `batch` = the URL encoding of that JSON array |
| Scenarios.BatchAnswer | src/test/java/com/beachninja/facebook/service/FacebookServiceTest.java:215-227 | a 200 answer decoding to one response gives that response, code 200 and body "SUCCESS" |
| Scenarios.PostToFeed | src/test/java/com/beachninja/facebook/service/FacebookServiceTest.java:59-79 | posting for id `facebookId` connects to `https://graph.facebook.com/v2.8/facebookId/feed`, and a 200 answer "SUCCESS" gives "SUCCESS" |
| Scenarios.PostPayload | src/test/java/com/beachninja/facebook/service/FacebookServiceTest.java:100-126 | a fully set post sends exactly title, message, link, picture, description and access_token with the builder's six values, in that order |
| Scenarios.ScrapeAnswer | src/test/java/com/beachninja/facebook/service/FacebookServiceTest.java:166-175 | a scrape of two links goes to the batch endpoint, and its response's batch response has body "SUCCESS" |
| Scenarios.ScheduledPost | src/main/java/com/beachninja/facebook/post/FacebookPostRequest.java:152-166 | a post with only a message, scheduled at epoch 1454328825, has the body `&message=hello&published=false&scheduled_publish_time=1454328825` |
| Scenarios.AddResults | src/main/java/com/beachninja/facebook/scrape/FacebookScrapeResponse.java:94-101 | any run of `addResult` calls on a fresh builder builds the map of those puts applied in order: exactly the links put, each with its last text, and no batch response |

## Left out

- HTTP transport (`UrlFetcher`, `Future.get()`, the answer's bytes and charset): the fetch is the service's `fetch` function, from the request sent to the answer or its failure.
- Jackson decoding (`om.readValue` of the error payload and of the batch response list): functions of the service (`readError`, `readBatch`) whose failure is an IOException. Jackson's encoding is modelled only for `BatchItem` and lists of them. A `JsonProcessingException` while encoding is not modelled, since these values always encode.
- `URLEncoder.encode(…, "UTF-8")`: the service's `urlEncode` function.
- `ZoneId.systemDefault()`: `PostRequests.Builder.Build` takes the host's conversion from a `LocalDateTime` to epoch seconds as a parameter.
- `ExceptionUtils.getFullStackTrace`: modelled for an exception without a cause. The trace is its `toString()` line, then one `\tat <frame>` line per frame, with `\n` as the line separator. Causes, suppressed exceptions and the platform separator are not modelled.
- `toString` of every class except `FacebookError` (`FacebookErrors.ErrorText`) and `Throwable` (`FacebookErrors.Exception.ToString`), which make up exception messages; `hashCode` of every class except the older post request; the Jackson no-argument constructors other than that of `post/FacebookPostRequest` (below), and the `@JsonProperty` names of the request and response classes: none of them feeds the wire format modelled here.
- `new FacebookPostRequest()` (`post/FacebookPostRequest.java:38`), the public no-argument constructor of the JavaBean, is not modelled. It leaves the five `Optional` fields null, so `toUrlParams` throws a NullPointerException at `name.ifPresent`, and so do `toBatchItem` and `FacebookService.post`, which wraps it in a RuntimeException. It also leaves `isPublished` false and the epoch 0, so a bean filled only through the setters for the optional fields writes `&published=false&scheduled_publish_time=0`. The model's `PostRequests.FacebookPostRequest` is only ever built by `Builder.build`, where every `Optional` is present or empty and the publish flag and epoch follow the schedule.
- Null elements inside collections, null map keys, and a `null` argument to `equals`, `scrape`, `post` or `submitBatch` (the last two throw a NullPointerException inside their `try` blocks, which comes out wrapped in a RuntimeException): the model's sequences, maps and arguments never hold null. The `getClass()` test in every `equals` is implied by Dafny's typing.
- Aliasing: `getBatchItems`, `getLinks` and `getResults` hand out or copy Java lists and maps. The datatype model makes every built value immutable, so no alias to the builder exists in it. The copying constructors are not modelled separately.
- Characters outside the Basic Multilingual Plane: a Dafny `char` is a Unicode scalar value, so such a character is one element of a model string where Java holds two UTF-16 code units. `JavaText.StringHash` hashes the UTF-16 encoding (`JavaText.CodeUnits`), as Java does. Jackson leaves both surrogates unescaped, so `JsonText.Escape` writes the same text per character. String lengths and indices in the model count characters, not code units.
- `FacebookService.post` calls Guava's `.or("")` on the `java.util.Optional` getters of `post/FacebookPostRequest`, which does not compile. It is modelled as `orElse("")`, which is evidently meant.
- `FacebookService.post` builds a `FacebookPostResponse` with `request(..)` and `apiResponse(..)` builder methods that class lacks. The result of `post` is therefore modelled as the answer's content string.
- The scrape-payload test (`FacebookServiceTest.java:144-164`) expects per-link `id`/`scrape` form fields that the batch-based `scrape` never sends. It is not restated; the model follows the code, which sends `access_token` and `batch`.
- `toUrlParams` writes values as they are, without URL encoding. The model follows the code here, not the description of the body as form-encoded.
- BatchItems.NoBodyJson: states the exact JSON text only for values that need no JSON escape (no quote, backslash or control character); other values are covered by `JsonText.UnescapeEscape` and `BatchItems.JsonShape`.
- BatchItems.FullJson: the same restriction to values that need no JSON escape.
- PostRequests.UrlParamsDecode: states the reading of a body back only for values without `&`, since `toUrlParams` does not escape the separator and such bodies are ambiguous.
- ScrapeRequests.UrlParamsDecode: the same restriction to a link without `&`.
