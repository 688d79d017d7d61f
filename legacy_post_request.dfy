/**
 * The older, immutable post request (the `request` package's FacebookPostRequest): a required
 * Facebook id and five nullable texts that the getters hand out as Optionals.
 */
module LegacyPostRequests {
  import opened Wrappers
  import opened JavaText
  import opened FacebookErrors

  /** A built request; the id is never null, the other fields may be. */
  datatype PostRequest = PostRequest(
    facebookId: string,
    title: Option<string>,
    message: Option<string>,
    link: Option<string>,
    imageUrl: Option<string>,
    description: Option<string>)
  {
    /** `equals`: the six fields compared; equal requests hash alike. */
    function Equals(that: PostRequest): (r: bool)
      ensures r <==> this == that
      ensures r ==> HashCode() == that.HashCode()
    {
      facebookId == that.facebookId
      && title == that.title
      && message == that.message
      && description == that.description
      && link == that.link
      && imageUrl == that.imageUrl
    }

    /** `Objects.hashCode(facebookId, title, message, description, link, imageUrl)`. */
    function HashCode(): int32 {
      NullableStringsHash([Some(facebookId), title, message, description, link, imageUrl])
    }
  }

  const NullIdMessage := "facebookId must not be null"

  /** The private constructor: `checkNotNull` refuses a null id with a NullPointerException carrying a message. */
  function NewPostRequest(facebookId: Option<string>, title: Option<string>, message: Option<string>,
                          link: Option<string>, imageUrl: Option<string>, description: Option<string>)
    : (r: Result<PostRequest, Exception>)
    ensures r.Err? <==> facebookId.None?
    ensures r.Err? ==> r.error == NullPointerException(Some(NullIdMessage))
    ensures r.Ok? ==> r.value.facebookId == facebookId.value
    ensures r.Ok? ==> r.value.title == title && r.value.message == message && r.value.link == link
    ensures r.Ok? ==> r.value.imageUrl == imageUrl && r.value.description == description
  {
    if facebookId.None? then Err(NullPointerException(Some(NullIdMessage)))
    else Ok(PostRequest(facebookId.value, title, message, link, imageUrl, description))
  }

  /** The builder's settings, as one value. */
  datatype BuilderState = BuilderState(
    facebookId: Option<string>,
    title: Option<string>,
    message: Option<string>,
    link: Option<string>,
    imageUrl: Option<string>,
    description: Option<string>)

  /** `FacebookPostRequest.Builder`: each call sets one field; nothing is checked until `build`. */
  class Builder {
    var facebookId: Option<string>
    var title: Option<string>
    var message: Option<string>
    var link: Option<string>
    var imageUrl: Option<string>
    var description: Option<string>

    function State(): BuilderState
      reads this
    {
      BuilderState(facebookId, title, message, link, imageUrl, description)
    }

    constructor ()
      ensures State() == BuilderState(None, None, None, None, None, None)
    {
      facebookId, title, message := None, None, None;
      link, imageUrl, description := None, None, None;
    }

    method FacebookId(v: Option<string>)
      modifies this
      ensures State() == old(State()).(facebookId := v)
    {
      facebookId := v;
    }

    method Title(v: Option<string>)
      modifies this
      ensures State() == old(State()).(title := v)
    {
      title := v;
    }

    method Message(v: Option<string>)
      modifies this
      ensures State() == old(State()).(message := v)
    {
      message := v;
    }

    method Link(v: Option<string>)
      modifies this
      ensures State() == old(State()).(link := v)
    {
      link := v;
    }

    method ImageUrl(v: Option<string>)
      modifies this
      ensures State() == old(State()).(imageUrl := v)
    {
      imageUrl := v;
    }

    method Description(v: Option<string>)
      modifies this
      ensures State() == old(State()).(description := v)
    {
      description := v;
    }

    /** `build()`: the request, or the NullPointerException when no id was given. */
    method Build() returns (r: Result<PostRequest, Exception>)
      ensures r == NewPostRequest(facebookId, title, message, link, imageUrl, description)
    {
      r := NewPostRequest(facebookId, title, message, link, imageUrl, description);
    }
  }
}
