/** A batch call: the access token and the ordered items; order is what pairs items with responses. */
module BatchRequests {
  import opened Wrappers
  import opened BatchItems

  datatype BatchRequest = BatchRequest(accessToken: Option<string>, batchItems: seq<BatchItem>) {

    /** `BatchRequest.equals`: same token and the same items in the same order. */
    function Equals(that: BatchRequest): (r: bool)
      ensures r <==> this == that
    {
      accessToken == that.accessToken && batchItems == that.batchItems
    }
  }

  /** `BatchRequest.Builder`: a token and a list the add methods append to. */
  class Builder {
    var accessToken: Option<string>
    var batchItems: seq<BatchItem>

    constructor ()
      ensures accessToken == None && batchItems == []
    {
      accessToken, batchItems := None, [];
    }

    method AccessToken(token: Option<string>)
      modifies this
      ensures accessToken == token && batchItems == old(batchItems)
    {
      accessToken := token;
    }

    /** `addItem(item)`: one item more, at the end. */
    method AddItem(item: BatchItem)
      modifies this
      ensures batchItems == old(batchItems) + [item] && accessToken == old(accessToken)
    {
      batchItems := batchItems + [item];
    }

    /** `addItems(Collection)`: all of them, in the collection's order, at the end. */
    method AddItems(items: seq<BatchItem>)
      modifies this
      ensures batchItems == old(batchItems) + items && accessToken == old(accessToken)
    {
      batchItems := batchItems + items;
    }

    /** `addItems(item, more...)`: the first item and then the rest, at the end. */
    method AddItemsOf(item: BatchItem, more: seq<BatchItem>)
      modifies this
      ensures batchItems == old(batchItems) + [item] + more && accessToken == old(accessToken)
    {
      batchItems := batchItems + ([item] + more);
    }

    /** `build()`: a request holding a copy of the list, so later calls on the builder do not reach it. */
    method Build() returns (request: BatchRequest)
      ensures request.accessToken == accessToken && request.batchItems == batchItems
    {
      request := BatchRequest(accessToken, batchItems);
    }
  }
}
