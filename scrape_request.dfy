/** A request to re-scrape a list of links, and its translation into batch items. */
module ScrapeRequests {
  import opened Wrappers
  import opened Entries
  import opened BatchItems
  import FormParams

  /** A built request; the links keep the order they were added in. */
  datatype ScrapeRequest = ScrapeRequest(accessToken: Option<string>, links: seq<string>) {

    /** `FacebookScrapeRequest.equals`: same token and the same links in the same order. */
    function Equals(that: ScrapeRequest): (r: bool)
      ensures r <==> this == that
    {
      accessToken == that.accessToken && links == that.links
    }
  }

  /** The body asking for one link to be scraped: `toUrlParams(link)`. */
  function UrlParams(link: string): (body: string)
    ensures body == FormParams.Encode([Pair("id", link), Pair("scrape", "true")])
  {
    var ps := [Pair("id", link), Pair("scrape", "true")];
    assert FormParams.Encode(ps[1..]) == "&scrape=true" by {
      assert ps[1..][1..] == [];
    }
    "&id=" + link + "&scrape=true"
  }

  /** A link without '&' is read back from its body under `id`, and `scrape` reads as "true". */
  lemma UrlParamsDecode(link: string)
    requires '&' !in link
    ensures Lookup(FormParams.Decode(UrlParams(link)), "id") == Some(link)
    ensures Lookup(FormParams.Decode(UrlParams(link)), "scrape") == Some("true")
  {
    var ps := [Pair("id", link), Pair("scrape", "true")];
    assert FormParams.WellFormed(ps[0]) && FormParams.WellFormed(ps[1]);
    FormParams.DecodeEncode(ps);
    assert FormParams.Decode(UrlParams(link)) == ps;
    assert Lookup(ps, "scrape") == Lookup(ps[1..], "scrape");
  }

  /** `items` holds one POST item per link, in the links' order, with no path and the link's scrape body. */
  ghost predicate IsScrapeBatch(links: seq<string>, items: seq<BatchItem>) {
    |items| == |links| &&
    forall i :: 0 <= i < |links| ==> items[i] == BatchItem(Some(POST), None, Some(UrlParams(links[i])))
  }

  /** `toBatchItems()`: walks the links in order, building one item for each. */
  method ToBatchItems(request: ScrapeRequest) returns (items: seq<BatchItem>)
    ensures IsScrapeBatch(request.links, items)
  {
    items := [];
    for i := 0 to |request.links|
      invariant |items| == i
      invariant forall j :: 0 <= j < i ==> items[j] == BatchItem(Some(POST), None, Some(UrlParams(request.links[j])))
    {
      var builder := new BatchItems.Builder();
      builder.Post();
      builder.Body(Some(UrlParams(request.links[i])));
      var item := builder.Build();
      items := items + [item];
    }
  }

  /** `FacebookScrapeRequest.Builder`: a token and a list of links the add methods append to. */
  class Builder {
    var accessToken: Option<string>
    var links: seq<string>

    constructor ()
      ensures accessToken == None && links == []
    {
      accessToken, links := None, [];
    }

    method AccessToken(token: Option<string>)
      modifies this
      ensures accessToken == token && links == old(links)
    {
      accessToken := token;
    }

    /** `addLink(link)`: one link more, at the end. */
    method AddLink(link: string)
      modifies this
      ensures links == old(links) + [link] && accessToken == old(accessToken)
    {
      links := links + [link];
    }

    /** `addLinks(Collection)`: all of them, in order, at the end. */
    method AddLinks(more: seq<string>)
      modifies this
      ensures links == old(links) + more && accessToken == old(accessToken)
    {
      links := links + more;
    }

    /** `addLinks(link, more...)`: the first link and then the rest, at the end. */
    method AddLinksOf(link: string, more: seq<string>)
      modifies this
      ensures links == old(links) + [link] + more && accessToken == old(accessToken)
    {
      links := links + ([link] + more);
    }

    /** `build()`: a request holding a copy of the list. */
    method Build() returns (request: ScrapeRequest)
      ensures request.accessToken == accessToken && request.links == links
    {
      request := ScrapeRequest(accessToken, links);
    }
  }
}
