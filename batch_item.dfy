/** One operation of a Graph API batch call: its HTTP method, the path it targets and its body. */
module BatchItems {
  import opened Wrappers
  import opened Entries
  import JsonText

  /** The two methods the builder offers. */
  datatype HttpMethod = GET | POST {
    function Name(): string {
      match this
      case GET => "GET"
      case POST => "POST"
    }
  }

  /** A built batch item; each field is absent (null) until the builder sets it. */
  datatype BatchItem = BatchItem(httpMethod: Option<HttpMethod>, relativeUrl: Option<string>, body: Option<string>) {

    /** `BatchItem.equals`: the three fields compared one by one. */
    function Equals(that: BatchItem): (r: bool)
      ensures r <==> this == that
    {
      httpMethod == that.httpMethod && relativeUrl == that.relativeUrl && body == that.body
    }
  }

  /** `BatchItem.Builder`: every call overwrites one field; `Build` copies the three fields out. */
  class Builder {
    var httpMethod: Option<HttpMethod>
    var relativeUrl: Option<string>
    var body: Option<string>

    constructor ()
      ensures httpMethod == None && relativeUrl == None && body == None
    {
      httpMethod, relativeUrl, body := None, None, None;
    }

    method Get()
      modifies this
      ensures httpMethod == Some(GET)
      ensures relativeUrl == old(relativeUrl) && body == old(body)
    {
      httpMethod := Some(GET);
    }

    method Post()
      modifies this
      ensures httpMethod == Some(POST)
      ensures relativeUrl == old(relativeUrl) && body == old(body)
    {
      httpMethod := Some(POST);
    }

    method RelativeUrl(url: Option<string>)
      modifies this
      ensures relativeUrl == url
      ensures httpMethod == old(httpMethod) && body == old(body)
    {
      relativeUrl := url;
    }

    method Body(text: Option<string>)
      modifies this
      ensures body == text
      ensures httpMethod == old(httpMethod) && relativeUrl == old(relativeUrl)
    {
      body := text;
    }

    method Build() returns (item: BatchItem)
      ensures item.httpMethod == httpMethod && item.relativeUrl == relativeUrl && item.body == body
    {
      item := BatchItem(httpMethod, relativeUrl, body);
    }
  }

  /** The order Jackson writes the properties in. */
  const JsonKeys: seq<string> := ["method", "relative_url", "body"]

  /** The item's properties in declaration order, absent ones included. */
  function JsonEntries(item: BatchItem): seq<Entry> {
    [ Entry("method", if item.httpMethod.Some? then Some(item.httpMethod.value.Name()) else None),
      Entry("relative_url", item.relativeUrl),
      Entry("body", item.body) ]
  }

  /** The JSON object Jackson writes for an item under NON_NULL inclusion: absent properties are left out. */
  function ToJson(item: BatchItem): string {
    JsonText.ObjectJson(Present(JsonEntries(item)))
  }

  function ToJsonElements(items: seq<BatchItem>): seq<string>
    decreases |items|
  {
    if items == [] then [] else [ToJson(items[0])] + ToJsonElements(items[1..])
  }

  /** The JSON array Jackson writes for a list of items. */
  function ListToJson(items: seq<BatchItem>): string {
    JsonText.ArrayJson(ToJsonElements(items))
  }

  /**
   * The object written for an item names method, relative_url and body in that order, each at most
   * once, and names each property exactly when it is set, with the value it is set to.
   */
  lemma JsonShape(item: BatchItem)
    ensures IsSubsequence(Keys(Present(JsonEntries(item))), JsonKeys)
    ensures Lookup(Present(JsonEntries(item)), "method") == (if item.httpMethod.Some? then Some(item.httpMethod.value.Name()) else None)
    ensures Lookup(Present(JsonEntries(item)), "relative_url") == item.relativeUrl
    ensures Lookup(Present(JsonEntries(item)), "body") == item.body
  {
    var es := JsonEntries(item);
    assert EntryKeys(es) == JsonKeys by {
      assert EntryKeys(es[2..]) == ["body"];
      assert EntryKeys(es[1..]) == ["relative_url"] + EntryKeys(es[2..]);
    }
    assert Distinct(JsonKeys) by {
      assert JsonKeys[0] != JsonKeys[1] && JsonKeys[0] != JsonKeys[2] && JsonKeys[1] != JsonKeys[2];
    }
    PresentKeysInOrder(es);
    LookupPresent(es, "method");
    LookupPresent(es, "relative_url");
    LookupPresent(es, "body");
    assert LookupEntry(es[1..], "body") == LookupEntry(es[2..], "body");
  }

  lemma PlainNames()
    ensures JsonText.Plain("method") && JsonText.Plain("relative_url") && JsonText.Plain("body")
    ensures JsonText.Plain("GET") && JsonText.Plain("POST")
  {
  }

  lemma MethodMember(m: HttpMethod)
    ensures JsonText.Member(Pair("method", m.Name())) == "\"method\":\"" + m.Name() + "\""
  {
    PlainNames();
    JsonText.MemberPlain("method", m.Name());
    assert "\"" + "method" + "\":\"" == "\"method\":\"";
  }

  lemma RelativeUrlMember(url: string)
    requires JsonText.Plain(url)
    ensures JsonText.Member(Pair("relative_url", url)) == "\"relative_url\":\"" + url + "\""
  {
    PlainNames();
    JsonText.MemberPlain("relative_url", url);
    RelativeUrlPrefix();
  }

  lemma RelativeUrlPrefix()
    ensures "\"" + "relative_url" + "\":\"" == "\"relative_url\":\""
  {
  }

  lemma BodyMember(text: string)
    requires JsonText.Plain(text)
    ensures JsonText.Member(Pair("body", text)) == "\"body\":\"" + text + "\""
  {
    PlainNames();
    JsonText.MemberPlain("body", text);
    assert "\"" + "body" + "\":\"" == "\"body\":\"";
  }

  /**
   * An item with a method and a path but no body is written as an object of exactly those two
   * properties, method first.
   */
  lemma NoBodyJson(m: HttpMethod, url: string)
    requires JsonText.Plain(url)
    ensures ToJson(BatchItem(Some(m), Some(url), None))
         == "{\"method\":\"" + m.Name() + "\",\"relative_url\":\"" + url + "\"}"
  {
    var item := BatchItem(Some(m), Some(url), None);
    assert Present(JsonEntries(item)) == [Pair("method", m.Name()), Pair("relative_url", url)] by {
      PresentCons(JsonEntries(item));
      PresentCons(JsonEntries(item)[1..]);
      PresentCons(JsonEntries(item)[2..]);
    }
    JsonText.ObjectOfTwo(Pair("method", m.Name()), Pair("relative_url", url));
    MethodMember(m);
    RelativeUrlMember(url);
    NoBodyLayout(m.Name(), url);
  }

  lemma NoBodyLayout(name: string, url: string)
    ensures "{" + ("\"method\":\"" + name + "\"") + "," + ("\"relative_url\":\"" + url + "\"") + "}"
         == "{\"method\":\"" + name + "\",\"relative_url\":\"" + url + "\"}"
  {
    assert "\"" + "," + "\"relative_url\":\"" == "\",\"relative_url\":\"";
  }

  /** An item with all three properties set is written with all three, in declaration order. */
  lemma FullJson(m: HttpMethod, url: string, text: string)
    requires JsonText.Plain(url) && JsonText.Plain(text)
    ensures ToJson(BatchItem(Some(m), Some(url), Some(text)))
         == "{\"method\":\"" + m.Name() + "\",\"relative_url\":\"" + url + "\",\"body\":\"" + text + "\"}"
  {
    var item := BatchItem(Some(m), Some(url), Some(text));
    assert Present(JsonEntries(item)) == [Pair("method", m.Name()), Pair("relative_url", url), Pair("body", text)] by {
      PresentCons(JsonEntries(item));
      PresentCons(JsonEntries(item)[1..]);
      PresentCons(JsonEntries(item)[2..]);
    }
    JsonText.ObjectOfThree(Pair("method", m.Name()), Pair("relative_url", url), Pair("body", text));
    MethodMember(m);
    RelativeUrlMember(url);
    BodyMember(text);
    FullLayout(m.Name(), url, text);
  }

  lemma FullLayout(name: string, url: string, text: string)
    ensures "{" + ("\"method\":\"" + name + "\"") + "," + ("\"relative_url\":\"" + url + "\"") + ","
              + ("\"body\":\"" + text + "\"") + "}"
         == "{\"method\":\"" + name + "\",\"relative_url\":\"" + url + "\",\"body\":\"" + text + "\"}"
  {
    assert "\"" + "," + "\"relative_url\":\"" == "\",\"relative_url\":\"";
    assert "\"" + "," + "\"body\":\"" == "\",\"body\":\"";
  }

  /** A list of two items is the array of their two objects, in list order. */
  lemma ListOfTwoJson(first: BatchItem, second: BatchItem)
    ensures ListToJson([first, second]) == "[" + ToJson(first) + "," + ToJson(second) + "]"
  {
    assert [first, second][1..] == [second];
    assert ToJsonElements([second]) == [ToJson(second)] + ToJsonElements([]);
    assert ToJsonElements([first, second]) == [ToJson(first), ToJson(second)];
    JsonText.ArrayOfTwo(ToJson(first), ToJson(second));
  }
}
