/**
 * The older scrape response (the `response` package's FacebookScrapeResponse): the request it
 * answers and a per-link result map holding either the API's text or an exception's stack trace.
 */
module LegacyScrapeResponses {
  import opened Wrappers
  import opened JavaText
  import opened LegacyScrapeRequests

  /** An exception as `getFullStackTrace` sees it: its class, its message and its stack frames. */
  datatype Throwable = Throwable(className: string, message: Option<string>, frames: seq<string>) {

    /** `Throwable.toString()`: the class name, then ": " and the message when there is one. */
    function ToString(): string {
      className + (if message.Some? then ": " + message.value else "")
    }
  }

  /** The frame lines of a printed stack trace, one "\tat <frame>" line each. */
  function FrameLines(frames: seq<string>): string
    decreases |frames|
  {
    if frames == [] then "" else "\tat " + frames[0] + "\n" + FrameLines(frames[1..])
  }

  /** `ExceptionUtils.getFullStackTrace(t)` for an exception without a cause: its `toString()` line, then its frames. */
  function FullStackTrace(t: Throwable): string {
    t.ToString() + "\n" + FrameLines(t.frames)
  }

  /** The stack trace names the exception's class and contains its message. */
  lemma StackTraceContainsMessage(t: Throwable)
    ensures Contains(FullStackTrace(t), t.className)
    ensures t.message.Some? ==> Contains(FullStackTrace(t), t.message.value)
  {
    var rest := (if t.message.Some? then ": " + t.message.value else "") + "\n" + FrameLines(t.frames);
    assert FullStackTrace(t) == "" + t.className + rest;
    ContainsMiddle("", t.className, rest);
    if t.message.Some? {
      var m := t.message.value;
      assert FullStackTrace(t) == t.className + ": " + m + ("\n" + FrameLines(t.frames));
      ContainsMiddle(t.className + ": ", m, "\n" + FrameLines(t.frames));
    }
  }

  /** A built response; the constructor copies the map. */
  datatype ScrapeResponse = ScrapeResponse(request: Option<ScrapeRequest>, results: map<string, string>) {

    /** `equals`: the same request and the same map. */
    function Equals(that: ScrapeResponse): (r: bool)
      ensures r <==> this == that
    {
      request == that.request && results == that.results
    }
  }

  /** `FacebookScrapeResponse.Builder`: a request and a hash map both `addResult` methods put into. */
  class Builder {
    var request: Option<ScrapeRequest>
    var results: map<string, string>

    constructor ()
      ensures request == None && results == map[]
    {
      request, results := None, map[];
    }

    method Request(r: Option<ScrapeRequest>)
      modifies this
      ensures request == r && results == old(results)
    {
      request := r;
    }

    /** `addResult(link, text)`: `results.put`, replacing any earlier result for the link. */
    method AddResult(link: string, text: string)
      modifies this
      ensures results == old(results)[link := text] && request == old(request)
    {
      results := results[link := text];
    }

    /** `addResult(link, exception)`: puts the exception's full stack trace under the link. */
    method AddExceptionResult(link: string, e: Throwable)
      modifies this
      ensures results == old(results)[link := FullStackTrace(e)] && request == old(request)
    {
      results := results[link := FullStackTrace(e)];
    }

    /** `build()`: a response holding a copy of the map. */
    method Build() returns (response: ScrapeResponse)
      ensures response.request == request && response.results == results
    {
      response := ScrapeResponse(request, results);
    }
  }
}
