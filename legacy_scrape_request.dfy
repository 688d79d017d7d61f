/** The older scrape request (the `request` package's FacebookScrapeRequest): links only. */
module LegacyScrapeRequests {

  /** A built request; the constructor copies the builder's list and `getLinks` hands out a copy. */
  datatype ScrapeRequest = ScrapeRequest(links: seq<string>) {

    /** `equals`: the same links in the same order. */
    function Equals(that: ScrapeRequest): (r: bool)
      ensures r <==> this == that
    {
      links == that.links
    }
  }

  /** `FacebookScrapeRequest.Builder`: a list the add methods append to. */
  class Builder {
    var links: seq<string>

    constructor ()
      ensures links == []
    {
      links := [];
    }

    /** `addLink(link)`: one link more, at the end. */
    method AddLink(link: string)
      modifies this
      ensures links == old(links) + [link]
    {
      links := links + [link];
    }

    /** `addLinks(Collection)`: all of them, in order, at the end. */
    method AddLinks(more: seq<string>)
      modifies this
      ensures links == old(links) + more
    {
      links := links + more;
    }

    /** `addLinks(link, more...)`: the first link, then the rest, at the end. */
    method AddLinksOf(link: string, more: seq<string>)
      modifies this
      ensures links == old(links) + [link] + more
    {
      links := links + ([link] + more);
    }

    /** `build()`: a request holding a copy of the list. */
    method Build() returns (request: ScrapeRequest)
      ensures request.links == links
    {
      request := ScrapeRequest(links);
    }
  }
}
