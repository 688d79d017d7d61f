/**
 * A request to publish a link post on a user's or a page's feed, and the form body it is sent with
 * (the `post` package's FacebookPostRequest: a mutable object with setters and a builder).
 */
module PostRequests {
  import opened Wrappers
  import opened JavaText
  import opened Entries
  import FormParams
  import BatchItems

  /** A date and time without a zone, as the builder's `schedulePublish` takes it. */
  datatype LocalDateTime = LocalDateTime(year: int, month: int, day: int, hour: int, minute: int, second: int, nano: int)

  /** The nine fields of a post request, as one value. */
  datatype PostFields = PostFields(
    accessToken: Option<string>,
    facebookId: Option<string>,
    name: Option<string>,
    message: Option<string>,
    link: Option<string>,
    imageUrl: Option<string>,
    description: Option<string>,
    isPublished: bool,
    scheduledPublishTimeEpoch: int64)

  /** The body's parameter names in the order the body is written; `picture` carries the image URL. */
  const ParamKeys: seq<string> := ["name", "message", "link", "picture", "description", "published", "scheduled_publish_time"]

  /** The five optional parameters, each present when its field is. */
  function OptionalEntries(f: PostFields): seq<Entry> {
    [ Entry("name", f.name),
      Entry("message", f.message),
      Entry("link", f.link),
      Entry("picture", f.imageUrl),
      Entry("description", f.description) ]
  }

  /** The two scheduling parameters, present only for an unpublished post. */
  function SchedulingEntries(f: PostFields): seq<Entry> {
    [ Entry("published", if f.isPublished then None else Some(BoolText(f.isPublished))),
      Entry("scheduled_publish_time", if f.isPublished then None else Some(LongText(f.scheduledPublishTimeEpoch))) ]
  }

  /** Every parameter the body can carry, in the order of `ParamKeys`. */
  function ParamEntries(f: PostFields): seq<Entry> {
    OptionalEntries(f) + SchedulingEntries(f)
  }

  /** The form body of a post: one `&key=value` segment per present parameter, values written as they are. */
  function UrlParams(f: PostFields): string {
    FormParams.Encode(Present(ParamEntries(f)))
  }

  /** The encoding of one entry: its segment when present, nothing when absent. */
  function SegmentOf(e: Entry): string {
    FormParams.Encode(Present([e]))
  }

  /** `ifPresent(v -> sb.append("&key=").append(v))`. */
  method AppendIfPresent(sb: string, key: string, value: Option<string>) returns (r: string)
    ensures r == sb + SegmentOf(Entry(key, value))
  {
    r := sb;
    if value.Some? {
      r := r + "&" + key + "=" + value.value;
    }
    SingleSegment(Entry(key, value));
  }

  lemma SingleSegment(e: Entry)
    ensures SegmentOf(e) == if e.value.Some? then FormParams.Segment(Pair(e.key, e.value.value)) else ""
  {
    assert [e][1..] == [];
    if e.value.Some? {
      var p := Pair(e.key, e.value.value);
      assert Present([e]) == [p] + Present([]);
      assert [p][1..] == [];
      assert FormParams.Encode([p]) == FormParams.Segment(p) + FormParams.Encode([]);
    } else {
      assert Present([e]) == Present([]);
    }
  }

  /** The two literal prefixes `toUrlParams` writes are the segments of the scheduling parameters. */
  lemma SchedulingLiterals(v: string, w: string)
    ensures "&published=" + v == FormParams.Segment(Pair("published", v))
    ensures "&scheduled_publish_time=" + w == FormParams.Segment(Pair("scheduled_publish_time", w))
  {
  }

  /** A post request: a JavaBean whose setters change one field each. */
  class FacebookPostRequest {
    var accessToken: Option<string>
    var facebookId: Option<string>
    var name: Option<string>
    var message: Option<string>
    var link: Option<string>
    var imageUrl: Option<string>
    var description: Option<string>
    var isPublished: bool
    var scheduledPublishTimeEpoch: int64

    function Fields(): PostFields
      reads this
    {
      PostFields(accessToken, facebookId, name, message, link, imageUrl, description, isPublished, scheduledPublishTimeEpoch)
    }

    /**
     * The constructor the builder calls. Without a schedule the post is published at once and the
     * epoch is 0; with one it is unpublished and the epoch is the schedule read in the host's zone,
     * which `systemZone` stands for.
     */
    constructor (accessToken: Option<string>, facebookId: Option<string>, name: Option<string>,
                 message: Option<string>, link: Option<string>, imageUrl: Option<string>,
                 description: Option<string>, scheduledPublishDateTime: Option<LocalDateTime>,
                 systemZone: LocalDateTime -> int64)
      ensures this.accessToken == accessToken && this.facebookId == facebookId
      ensures this.name == name && this.message == message && this.link == link
      ensures this.imageUrl == imageUrl && this.description == description
      ensures isPublished <==> scheduledPublishDateTime.None?
      ensures scheduledPublishDateTime.None? ==> scheduledPublishTimeEpoch == 0
      ensures scheduledPublishDateTime.Some? ==> scheduledPublishTimeEpoch == systemZone(scheduledPublishDateTime.value)
    {
      this.accessToken := accessToken;
      this.facebookId := facebookId;
      this.name := name;
      this.message := message;
      this.link := link;
      this.imageUrl := imageUrl;
      this.description := description;
      if scheduledPublishDateTime.None? {
        isPublished := true;
        scheduledPublishTimeEpoch := 0;
      } else {
        isPublished := false;
        scheduledPublishTimeEpoch := systemZone(scheduledPublishDateTime.value);
      }
    }

    method SetAccessToken(v: Option<string>)
      modifies this
      ensures Fields() == old(Fields()).(accessToken := v)
    {
      accessToken := v;
    }

    method SetFacebookId(v: Option<string>)
      modifies this
      ensures Fields() == old(Fields()).(facebookId := v)
    {
      facebookId := v;
    }

    method SetName(v: Option<string>)
      modifies this
      ensures Fields() == old(Fields()).(name := v)
    {
      name := v;
    }

    method SetMessage(v: Option<string>)
      modifies this
      ensures Fields() == old(Fields()).(message := v)
    {
      message := v;
    }

    method SetLink(v: Option<string>)
      modifies this
      ensures Fields() == old(Fields()).(link := v)
    {
      link := v;
    }

    method SetImageUrl(v: Option<string>)
      modifies this
      ensures Fields() == old(Fields()).(imageUrl := v)
    {
      imageUrl := v;
    }

    method SetDescription(v: Option<string>)
      modifies this
      ensures Fields() == old(Fields()).(description := v)
    {
      description := v;
    }

    method SetPublished(published: bool)
      modifies this
      ensures Fields() == old(Fields()).(isPublished := published)
    {
      isPublished := published;
    }

    method SetScheduledPublishTimeEpoch(epoch: int64)
      modifies this
      ensures Fields() == old(Fields()).(scheduledPublishTimeEpoch := epoch)
    {
      scheduledPublishTimeEpoch := epoch;
    }

    /** `toUrlParams()`: the five optional segments as present, then the two scheduling ones when unpublished. */
    method ToUrlParams() returns (params: string)
      ensures params == UrlParams(Fields())
    {
      var sb := "";
      sb := AppendIfPresent(sb, "name", name);
      sb := AppendIfPresent(sb, "message", message);
      sb := AppendIfPresent(sb, "link", link);
      sb := AppendIfPresent(sb, "picture", imageUrl);
      sb := AppendIfPresent(sb, "description", description);
      OptionalSegments(Fields(), sb);
      ghost var optional := sb;
      if !isPublished {
        sb := sb + "&published=" + BoolText(isPublished);
        sb := sb + "&scheduled_publish_time=" + LongText(scheduledPublishTimeEpoch);
      }
      ScheduledTail(Fields(), optional, sb);
      params := sb;
    }

    /** `toBatchItem()`: a POST to `<facebookId>/feed` whose body is the form body. */
    method ToBatchItem() returns (item: BatchItems.BatchItem)
      ensures item.httpMethod == Some(BatchItems.POST)
      ensures item.relativeUrl == Some(NullableText(facebookId) + "/feed")
      ensures item.body == Some(UrlParams(Fields()))
    {
      var params := ToUrlParams();
      var b := new BatchItems.Builder();
      b.Post();
      b.RelativeUrl(Some(NullableText(facebookId) + "/feed"));
      b.Body(Some(params));
      item := b.Build();
    }

    /** `equals`: all nine fields compared. */
    function Equals(that: FacebookPostRequest): (r: bool)
      reads this, that
      ensures r <==> Fields() == that.Fields()
    {
      isPublished == that.isPublished
      && scheduledPublishTimeEpoch == that.scheduledPublishTimeEpoch
      && accessToken == that.accessToken
      && facebookId == that.facebookId
      && name == that.name
      && message == that.message
      && link == that.link
      && imageUrl == that.imageUrl
      && description == that.description
    }
  }

  /** What `toUrlParams` appends after the five optional segments completes the body. */
  lemma ScheduledTail(f: PostFields, optional: string, sb: string)
    requires optional == FormParams.Encode(Present(OptionalEntries(f)))
    requires f.isPublished ==> sb == optional
    requires !f.isPublished ==> sb == optional + "&published=" + BoolText(f.isPublished)
                                  + "&scheduled_publish_time=" + LongText(f.scheduledPublishTimeEpoch)
    ensures sb == UrlParams(f)
  {
    Concatenation(OptionalEntries(f), SchedulingEntries(f));
    SchedulingSegments(f);
    if !f.isPublished {
      var v, w := BoolText(f.isPublished), LongText(f.scheduledPublishTimeEpoch);
      var published, scheduled := "&published=" + v, "&scheduled_publish_time=" + w;
      SchedulingLiterals(v, w);
      assert sb == optional + published + scheduled by {
        assert optional + "&published=" + v == optional + published;
        assert optional + published + "&scheduled_publish_time=" + w == optional + published + scheduled;
      }
      assert optional + published + scheduled == optional + (published + scheduled);
    }
  }

  /** The five optional segments, written one after the other from an empty text, are the encoding of the optional entries. */
  lemma OptionalSegments(f: PostFields, sb: string)
    requires sb == "" + SegmentOf(Entry("name", f.name)) + SegmentOf(Entry("message", f.message))
                  + SegmentOf(Entry("link", f.link)) + SegmentOf(Entry("picture", f.imageUrl))
                  + SegmentOf(Entry("description", f.description))
    ensures sb == FormParams.Encode(Present(OptionalEntries(f)))
  {
    var es := OptionalEntries(f);
    assert es == [es[0]] + [es[1]] + [es[2]] + [es[3]] + [es[4]];
    Concatenation([es[0]] + [es[1]] + [es[2]] + [es[3]], [es[4]]);
    Concatenation([es[0]] + [es[1]] + [es[2]], [es[3]]);
    Concatenation([es[0]] + [es[1]], [es[2]]);
    Concatenation([es[0]], [es[1]]);
    assert "" + SegmentOf(es[0]) == SegmentOf(es[0]);
  }

  /** The encoding of two runs of entries is the encoding of the first followed by that of the second. */
  lemma Concatenation(a: seq<Entry>, b: seq<Entry>)
    ensures FormParams.Encode(Present(a + b)) == FormParams.Encode(Present(a)) + FormParams.Encode(Present(b))
  {
    PresentAppend(a, b);
    FormParams.EncodeAppend(Present(a), Present(b));
  }

  /** The scheduling entries encode to the two scheduling segments of an unpublished post and to nothing otherwise. */
  lemma SchedulingSegments(f: PostFields)
    ensures f.isPublished ==> FormParams.Encode(Present(SchedulingEntries(f))) == ""
    ensures !f.isPublished ==>
      FormParams.Encode(Present(SchedulingEntries(f)))
      == FormParams.Segment(Pair("published", BoolText(f.isPublished)))
       + FormParams.Segment(Pair("scheduled_publish_time", LongText(f.scheduledPublishTimeEpoch)))
  {
    var es := SchedulingEntries(f);
    assert es == [es[0]] + [es[1]];
    Concatenation([es[0]], [es[1]]);
    SingleSegment(es[0]);
    SingleSegment(es[1]);
  }

  /** `ParamKeys` names each parameter once, and `ParamEntries` follows it. */
  lemma ParamKeysOf(f: PostFields)
    ensures EntryKeys(ParamEntries(f)) == ParamKeys
    ensures Distinct(ParamKeys)
  {
    var es := ParamEntries(f);
    EntryKeysAt(es);
    assert Distinct(ParamKeys) by {
      forall i, j | 0 <= i < j < |ParamKeys| ensures ParamKeys[i] != ParamKeys[j] {
        assert ParamKeys[i][0] != ParamKeys[j][0] || |ParamKeys[i]| != |ParamKeys[j]| || ParamKeys[i][2] != ParamKeys[j][2];
      }
    }
  }

  /** No separator in any present optional value; these are the bodies read back unambiguously. */
  predicate NoAmpersands(f: PostFields) {
    (f.name.Some? ==> '&' !in f.name.value)
    && (f.message.Some? ==> '&' !in f.message.value)
    && (f.link.Some? ==> '&' !in f.link.value)
    && (f.imageUrl.Some? ==> '&' !in f.imageUrl.value)
    && (f.description.Some? ==> '&' !in f.description.value)
  }

  /** Without '&' in the optional values, every present parameter is a segment that reads back unambiguously. */
  lemma ParamsWellFormed(f: PostFields)
    requires NoAmpersands(f)
    ensures forall i :: 0 <= i < |Present(ParamEntries(f))| ==> FormParams.WellFormed(Present(ParamEntries(f))[i])
  {
    var es := ParamEntries(f);
    var ps := Present(es);
    PresentFrom(es);
    forall j | 0 <= j < |es| ensures PlainEntry(es[j]) {
      EntryPlain(f, j);
    }
    forall i | 0 <= i < |ps| ensures FormParams.WellFormed(ps[i]) {
      assert ps[i] in ps;
      assert Entry(ps[i].key, Some(ps[i].value)) in es;
    }
  }

  /** A key without separators and, when present, a value without '&'. */
  predicate PlainEntry(e: Entry) {
    PlainKey(e.key) && (e.value.Some? ==> '&' !in e.value.value)
  }

  predicate PlainKey(k: string) {
    '&' !in k && '=' !in k
  }

  lemma ParamKeysPlain()
    ensures forall i :: 0 <= i < |ParamKeys| ==> PlainKey(ParamKeys[i])
  {
    assert PlainKey("name");
    assert PlainKey("message");
    assert PlainKey("link");
    assert PlainKey("picture");
    assert PlainKey("description");
    assert PlainKey("published");
    assert PlainKey("scheduled_publish_time");
  }

  lemma EntryPlain(f: PostFields, j: nat)
    requires NoAmpersands(f) && j < 7
    ensures PlainEntry(ParamEntries(f)[j])
  {
    var es := ParamEntries(f);
    ParamKeysOf(f);
    EntryKeysAt(es);
    ParamKeysPlain();
    assert PlainKey(es[j].key);
    if j == 6 {
      DecimalHasNoSeparators(LongText(f.scheduledPublishTimeEpoch));
      assert es[6].value == if f.isPublished then None else Some(LongText(f.scheduledPublishTimeEpoch));
    } else if j == 5 {
      assert es[5].value == if f.isPublished then None else Some(BoolText(f.isPublished));
    } else {
      assert es[j] == OptionalEntries(f)[j];
    }
  }

  /** Each parameter's value in the body is the field it is written from. */
  lemma ParamValues(f: PostFields)
    ensures var ps := Present(ParamEntries(f));
      Lookup(ps, "name") == f.name
      && Lookup(ps, "message") == f.message
      && Lookup(ps, "link") == f.link
      && Lookup(ps, "picture") == f.imageUrl
      && Lookup(ps, "description") == f.description
      && Lookup(ps, "published") == (if f.isPublished then None else Some("false"))
      && Lookup(ps, "scheduled_publish_time") == (if f.isPublished then None else Some(LongText(f.scheduledPublishTimeEpoch)))
  {
    var es := ParamEntries(f);
    ParamKeysOf(f);
    forall i | 0 <= i < 7 ensures Lookup(Present(es), es[i].key) == es[i].value {
      LookupPresent(es, es[i].key);
      LookupEntryAt(es, i);
    }
    assert es[0].key == "name" && es[1].key == "message" && es[2].key == "link" && es[3].key == "picture";
    assert es[4].key == "description" && es[5].key == "published" && es[6].key == "scheduled_publish_time";
  }

  /**
   * Reading the body back gives the parameters in the order of `ParamKeys`, each at most once, and
   * each one present exactly when its field is: the five optional fields under their own names, the
   * image URL as `picture`, and `published=false` with the epoch exactly when the post is unpublished.
   */
  lemma UrlParamsDecode(f: PostFields)
    requires NoAmpersands(f)
    ensures var ps := FormParams.Decode(UrlParams(f));
      IsSubsequence(Keys(ps), ParamKeys)
      && Lookup(ps, "name") == f.name
      && Lookup(ps, "message") == f.message
      && Lookup(ps, "link") == f.link
      && Lookup(ps, "picture") == f.imageUrl
      && Lookup(ps, "description") == f.description
      && Lookup(ps, "published") == (if f.isPublished then None else Some("false"))
      && Lookup(ps, "scheduled_publish_time") == (if f.isPublished then None else Some(LongText(f.scheduledPublishTimeEpoch)))
  {
    var es := ParamEntries(f);
    ParamsWellFormed(f);
    FormParams.DecodeEncode(Present(es));
    ParamKeysOf(f);
    PresentKeysInOrder(es);
    ParamValues(f);
  }

  /** An unpublished post's body is its optional segments followed by the two scheduling segments. */
  lemma UnpublishedSuffix(f: PostFields)
    requires !f.isPublished
    ensures UrlParams(f) == FormParams.Encode(Present(OptionalEntries(f)))
      + "&published=false" + "&scheduled_publish_time=" + LongText(f.scheduledPublishTimeEpoch)
  {
    var optional := FormParams.Encode(Present(OptionalEntries(f)));
    ScheduledTail(f, optional, optional + "&published=" + BoolText(f.isPublished)
                                  + "&scheduled_publish_time=" + LongText(f.scheduledPublishTimeEpoch));
    assert optional + "&published=" + BoolText(f.isPublished) == optional + "&published=false" by {
      assert optional + "&published=" + "false" == optional + ("&published=" + "false");
    }
  }

  /** The body is empty exactly when the post is published at once and none of the five optional fields is set. */
  lemma UrlParamsEmpty(f: PostFields)
    ensures UrlParams(f) == "" <==>
      f.isPublished && f.name.None? && f.message.None? && f.link.None? && f.imageUrl.None? && f.description.None?
  {
    var es := ParamEntries(f);
    FormParams.EncodeEmpty(Present(es));
    PresentEmpty(es);
    assert UrlParams(f) == "" <==> Present(es) == [] by {
      if Present(es) != [] {
        assert UrlParams(f)[0] == '&';
      }
    }
    if !(f.isPublished && f.name.None? && f.message.None? && f.link.None? && f.imageUrl.None? && f.description.None?) {
      assert exists i :: 0 <= i < |es| && es[i].value.Some? by {
        if !f.isPublished { assert es[5].value.Some?; }
        else if f.name.Some? { assert es[0].value.Some?; }
        else if f.message.Some? { assert es[1].value.Some?; }
        else if f.link.Some? { assert es[2].value.Some?; }
        else if f.imageUrl.Some? { assert es[3].value.Some?; }
        else { assert es[4].value.Some?; }
      }
    }
  }

  /** The builder's settings, as one value. */
  datatype BuilderState = BuilderState(
    accessToken: Option<string>,
    facebookId: Option<string>,
    title: Option<string>,
    message: Option<string>,
    link: Option<string>,
    imageUrl: Option<string>,
    description: Option<string>,
    publishDateTime: Option<LocalDateTime>)

  /** `FacebookPostRequest.Builder`: each call sets one field; the title becomes the request's name. */
  class Builder {
    var accessToken: Option<string>
    var facebookId: Option<string>
    var title: Option<string>
    var message: Option<string>
    var link: Option<string>
    var imageUrl: Option<string>
    var description: Option<string>
    var publishDateTime: Option<LocalDateTime>

    function State(): BuilderState
      reads this
    {
      BuilderState(accessToken, facebookId, title, message, link, imageUrl, description, publishDateTime)
    }

    constructor ()
      ensures State() == BuilderState(None, None, None, None, None, None, None, None)
    {
      accessToken, facebookId, title, message := None, None, None, None;
      link, imageUrl, description, publishDateTime := None, None, None, None;
    }

    method AccessToken(v: Option<string>)
      modifies this
      ensures State() == old(State()).(accessToken := v)
    {
      accessToken := v;
    }

    method FacebookId(v: Option<string>)
      modifies this
      ensures State() == old(State()).(facebookId := v)
    {
      facebookId := v;
    }

    method Title(v: Option<string>)
      modifies this
      ensures State() == old(State()).(title := v)
    {
      title := v;
    }

    method Message(v: Option<string>)
      modifies this
      ensures State() == old(State()).(message := v)
    {
      message := v;
    }

    method Link(v: Option<string>)
      modifies this
      ensures State() == old(State()).(link := v)
    {
      link := v;
    }

    method ImageUrl(v: Option<string>)
      modifies this
      ensures State() == old(State()).(imageUrl := v)
    {
      imageUrl := v;
    }

    method Description(v: Option<string>)
      modifies this
      ensures State() == old(State()).(description := v)
    {
      description := v;
    }

    method SchedulePublish(v: Option<LocalDateTime>)
      modifies this
      ensures State() == old(State()).(publishDateTime := v)
    {
      publishDateTime := v;
    }

    /** `build()`: a new request from the settings; a schedule makes it unpublished at that instant. */
    method Build(systemZone: LocalDateTime -> int64) returns (request: FacebookPostRequest)
      ensures fresh(request)
      ensures request.Fields() == PostFields(accessToken, facebookId, title, message, link, imageUrl, description,
        publishDateTime.None?, if publishDateTime.None? then 0 else systemZone(publishDateTime.value))
    {
      request := new FacebookPostRequest(accessToken, facebookId, title, message, link, imageUrl, description,
        publishDateTime, systemZone);
    }
  }
}
