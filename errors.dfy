/** The Graph API's error payload and the exceptions the service raises. */
module FacebookErrors {
  import opened Wrappers
  import opened JavaText

  /** The `error` object of an error payload; fields the payload omits are null. */
  datatype FacebookError = FacebookError(message: Option<string>, errorType: Option<string>, code: int32, fbtraceId: Option<string>)

  /** The `{"error": {...}}` envelope. */
  datatype FacebookErrorResponse = FacebookErrorResponse(facebookError: Option<FacebookError>)

  /** A failure reported by a component the model does not see (the JSON codec, the URL fetcher). */
  datatype ForeignFailure = ForeignFailure(className: string, detail: Option<string>)

  /** The exceptions that reach a caller of the service. */
  datatype Exception =
    | FacebookException(error: FacebookError)
      /** an `IOException` thrown by the JSON codec */
    | CodecException(failure: ForeignFailure)
      /** an exception thrown while fetching (`ExecutionException`, `InterruptedException`) */
    | TransportException(failure: ForeignFailure)
    | NullPointerException(detail: Option<string>)
    | RuntimeException(cause: Exception)
  {
    function ClassName(): string {
      match this
      case FacebookException(_) => "com.beachninja.facebook.exception.FacebookException"
      case CodecException(f) => f.className
      case TransportException(f) => f.className
      case NullPointerException(_) => "java.lang.NullPointerException"
      case RuntimeException(_) => "java.lang.RuntimeException"
    }

    /**
     * `getMessage()`: a FacebookException carries the error's `toString()`, a RuntimeException built
     * around a cause carries the cause's `toString()`.
     */
    function Message(): Option<string>
      decreases this, 0
    {
      match this
      case FacebookException(e) => Some(ErrorText(e))
      case CodecException(f) => f.detail
      case TransportException(f) => f.detail
      case NullPointerException(d) => d
      case RuntimeException(c) => Some(c.ToString())
    }

    /** `Throwable.toString()`: the class name, then ": " and the message when there is one. */
    function ToString(): string
      decreases this, 1
    {
      ClassName() + (if Message().Some? then ": " + Message().value else "")
    }
  }

  /**
   * `FacebookError.toString()`, written by Guava's `MoreObjects.toStringHelper`: the class's simple
   * name, then `name=value` for message, type, code and fbtraceId, in that order, separated by ", "
   * and enclosed in braces, with a null value written as "null".
   */
  function ErrorText(e: FacebookError): (text: string)
    ensures OccursAt(text, "FacebookError{message=" + NullableText(e.message), 0)
    ensures Contains(text, ", type=" + NullableText(e.errorType))
    ensures Contains(text, ", code=" + LongText(e.code as int as int64))
    ensures OccursAt(text, ", fbtraceId=" + NullableText(e.fbtraceId) + "}", |text| - |", fbtraceId=" + NullableText(e.fbtraceId) + "}"|)
  {
    var head := "FacebookError{message=" + NullableText(e.message);
    var kind := ", type=" + NullableText(e.errorType);
    var code := ", code=" + LongText(e.code as int as int64);
    var last := ", fbtraceId=" + NullableText(e.fbtraceId) + "}";
    ContainsMiddle(head, kind, code + last);
    ContainsMiddle(head + kind, code, last);
    assert head + kind + (code + last) == head + kind + code + last;
    head + kind + code + last
  }

  /** The message of a FacebookException, and of the RuntimeException wrapping it, contains the error's message. */
  lemma WrappedMessageContainsErrorMessage(e: FacebookError)
    requires e.message.Some?
    ensures Contains(FacebookException(e).Message().value, e.message.value)
    ensures Contains(RuntimeException(FacebookException(e)).Message().value, e.message.value)
  {
    var m := e.message.value;
    var tail := ", type=" + NullableText(e.errorType) + ", code=" + LongText(e.code as int as int64)
      + ", fbtraceId=" + NullableText(e.fbtraceId) + "}";
    assert ErrorText(e) == "FacebookError{message=" + m + tail;
    ContainsMiddle("FacebookError{message=", m, tail);
    var prefix := "com.beachninja.facebook.exception.FacebookException" + ": " + "FacebookError{message=";
    assert FacebookException(e).ToString() == "com.beachninja.facebook.exception.FacebookException" + ": " + ErrorText(e);
    assert RuntimeException(FacebookException(e)).Message().value == prefix + m + tail;
    ContainsMiddle(prefix, m, tail);
  }
}
