/** The result of a batch scrape call (the `scrape` package's FacebookScrapeResponse) and its builder. */
module ScrapeResponses {
  import opened Wrappers
  import opened BatchResponses

  /** The batch call's first response and a per-link result map; the constructor copies the map. */
  datatype ScrapeResponse = ScrapeResponse(apiResponse: Option<BatchResponse>, results: map<string, string>) {

    /** `equals`: the same batch response and the same map. */
    function Equals(that: ScrapeResponse): (r: bool)
      ensures r <==> this == that
    {
      apiResponse == that.apiResponse && results == that.results
    }
  }

  /** `FacebookScrapeResponse.Builder`: a batch response and a hash map that `addResult` puts into. */
  class Builder {
    var apiResponse: Option<BatchResponse>
    var results: map<string, string>

    constructor ()
      ensures apiResponse == None && results == map[]
    {
      apiResponse, results := None, map[];
    }

    /** `apiResponse(r)`: sets the batch response and leaves the results alone. */
    method ApiResponse(response: Option<BatchResponse>)
      modifies this
      ensures apiResponse == response && results == old(results)
    {
      apiResponse := response;
    }

    /** `addResult(link, text)`: `results.put`, replacing any earlier result for the link. */
    method AddResult(link: string, text: string)
      modifies this
      ensures results == old(results)[link := text] && apiResponse == old(apiResponse)
    {
      results := results[link := text];
    }

    /** `build()`: a response holding a copy of the map, which later calls on the builder do not reach. */
    method Build() returns (response: ScrapeResponse)
      ensures response.apiResponse == apiResponse && response.results == results
    {
      response := ScrapeResponse(apiResponse, results);
    }
  }
}
