/**
 * `PexKitError`: the closed taxonomy of API failures, each with a message that
 * by default is built from the variant's own fields; and `PexKitException`,
 * the bridge to exception-based callers, which keeps a cause only for
 * network errors.
 */
module Errors {
  import opened KotlinLang

  /**
   * A caught `Throwable`, seen through what this client reads of it: its
   * optional message and its optional cause.
   */
  datatype Throwable = Throwable(message: Option<string>, cause: Option<Throwable>)

  /**
   * The error kinds. Every constructor takes its message last, defaulting, as
   * Kotlin's data-class default arguments do, to a string built from the
   * other fields.
   */
  datatype PexKitError =
    | Unauthorized(message: string := "Invalid or missing API key")
    | Forbidden(message: string := "Access forbidden")
    | NotFound(resource: string, message: string := "Resource not found: " + resource)
    | RateLimited(
        retryAfter: Option<Int32>,
        message: string := "Rate limit exceeded"
          + (if retryAfter.Some? then ". Retry after " + IntToString(retryAfter.value) + " seconds" else ""))
    | ServerError(statusCode: Int32, message: string := "Server error: " + IntToString(statusCode))
    | NetworkError(
        cause: Throwable,
        message: string := if cause.message.Some? then cause.message.value else "Network error")
    | Unknown(
        status: Option<Int32>,
        body: Option<string>,
        message: string := "Unknown error" + StatusPart(status) + BodyPart(body))

  /** The `" (status: N)"` part of the default `Unknown` message, empty without a status. */
  function StatusPart(status: Option<Int32>): string
  {
    if status.Some? then " (status: " + IntToString(status.value) + ")" else ""
  }

  /** The `": body"` part of the default `Unknown` message, empty without a body. */
  function BodyPart(body: Option<string>): string
  {
    if body.Some? then ": " + body.value else ""
  }

  /**
   * `PexKitException(error)`: an `Exception` whose message is the error's
   * message and whose cause is the network error's cause, or none.
   */
  datatype PexKitException = PexKitException(error: PexKitError)
  {
    function Message(): (m: string)
      ensures m == error.message
    {
      error.message
    }

    function Cause(): (c: Option<Throwable>)
      ensures c.Some? <==> error.NetworkError?
      ensures c.Some? ==> c.value == error.cause
    {
      if error.NetworkError? then Some(error.cause) else None
    }

    /** The exception as the `Throwable` a caller catches. */
    function AsThrowable(): (t: Throwable)
      ensures t.message == Some(error.message)
      ensures t.cause == Cause()
    {
      Throwable(Some(Message()), Cause())
    }
  }

  /** `PexKitError.toException()`: wraps this same error. */
  function ToException(e: PexKitError): (x: PexKitException)
    ensures x.error == e
    ensures x.Message() == e.message
  {
    PexKitException(e)
  }

  /** The throwables reached by following `cause` from `t`, `t` first. */
  function CauseChain(t: Throwable): (chain: seq<Throwable>)
    ensures |chain| >= 1 && chain[0] == t
  {
    [t] + (if t.cause.Some? then CauseChain(t.cause.value) else [])
  }

  // ---------------------------------------------------------------------------
  // Default messages

  lemma DefaultMessages(resource: string, code: Int32, t: Throwable)
    ensures Unauthorized().message == "Invalid or missing API key"
    ensures Forbidden().message == "Access forbidden"
    ensures NotFound(resource).message == "Resource not found: " + resource
    ensures RateLimited(None).message == "Rate limit exceeded"
    ensures ServerError(code).message == "Server error: " + IntToString(code)
    ensures t.message.None? ==> NetworkError(t).message == "Network error"
    ensures t.message.Some? ==> NetworkError(t).message == t.message.value
    ensures Unknown(None, None).message == "Unknown error"
  {
  }

  /** The resource named in a default `NotFound` message is recoverable from it. */
  lemma NotFoundMessageInjective(a: string, b: string)
    requires NotFound(a).message == NotFound(b).message
    ensures a == b
  {
    PrefixCancels("Resource not found: ", a, b);
  }

  /** The status code in a default `ServerError` message is recoverable from it. */
  lemma ServerErrorMessageInjective(a: Int32, b: Int32)
    requires ServerError(a).message == ServerError(b).message
    ensures a == b
  {
    PrefixCancels("Server error: ", IntToString(a), IntToString(b));
    IntToStringInjective(a, b);
  }

  /** Retry-hint text appears in the `RateLimited` message exactly when a hint is present. */
  lemma RateLimitedMessageShowsHint(retryAfter: Option<Int32>)
    ensures retryAfter.None? ==> RateLimited(retryAfter).message == "Rate limit exceeded"
    ensures retryAfter.Some? ==>
      RateLimited(retryAfter).message
        == "Rate limit exceeded. Retry after " + IntToString(retryAfter.value) + " seconds"
    ensures |RateLimited(retryAfter).message| > 19 <==> retryAfter.Some?
  {
  }

  /** Different retry hints give different `RateLimited` messages. */
  lemma RateLimitedMessageInjective(a: Option<Int32>, b: Option<Int32>)
    requires RateLimited(a).message == RateLimited(b).message
    ensures a == b
  {
    RateLimitedMessageShowsHint(a);
    RateLimitedMessageShowsHint(b);
    if a.Some? && b.Some? {
      var p := "Rate limit exceeded. Retry after ";
      var ma := RateLimited(a).message;
      var mb := RateLimited(b).message;
      assert |IntToString(a.value)| == |IntToString(b.value)|;
      assert IntToString(a.value) == ma[|p|..|ma| - 8];
      assert IntToString(b.value) == mb[|p|..|mb| - 8];
      IntToStringInjective(a.value, b.value);
    }
  }

  /** Splitting at the first ')' when the leading parts contain none. */
  lemma SplitAtClose(d1: string, d2: string, r1: string, r2: string)
    requires forall i :: 0 <= i < |d1| ==> d1[i] != ')'
    requires forall i :: 0 <= i < |d2| ==> d2[i] != ')'
    requires d1 + ")" + r1 == d2 + ")" + r2
    ensures d1 == d2 && r1 == r2
  {
    var m1 := d1 + ")" + r1;
    var m2 := d2 + ")" + r2;
    assert m1[|d1|] == ')';
    assert m2[|d2|] == ')';
    assert forall k :: 0 <= k < |d1| ==> m1[k] == d1[k];
    assert forall k :: 0 <= k < |d2| ==> m2[k] == d2[k];
    assert |d1| == |d2|;
    assert d1 == m1[..|d1|];
    assert d2 == m2[..|d2|];
    assert r1 == m1[|d1| + 1..];
    assert r2 == m2[|d2| + 1..];
  }

  /** The optional `": " + body` tail of an `Unknown` message determines the body. */
  lemma BodyPartInjective(b1: Option<string>, b2: Option<string>)
    requires BodyPart(b1) == BodyPart(b2)
    ensures b1 == b2
  {
    if b1.Some? && b2.Some? {
      PrefixCancels(": ", b1.value, b2.value);
    }
  }

  /** After "Unknown error" comes a space exactly when a status code is shown. */
  lemma UnknownMessageSeparator(status: Option<Int32>, body: Option<string>)
    ensures var m := Unknown(status, body).message;
      (status.Some? ==> |m| > 13 && m[13] == ' ')
      && (status.None? ==> |m| == 13 || m[13] == ':')
  {
  }

  /** The part after the status digits of a default `Unknown` message with a status. */
  lemma UnknownMessageWithStatus(c: Int32, b: Option<string>)
    ensures Unknown(Some(c), b).message == "Unknown error (status: " + (IntToString(c) + ")" + BodyPart(b))
  {
    var d := IntToString(c);
    assert "Unknown error" + (" (status: " + d + ")") == "Unknown error (status: " + (d + ")");
  }

  /** With a status shown, the message determines the status and the body. */
  lemma UnknownWithStatusInjective(c1: Int32, b1: Option<string>, c2: Int32, b2: Option<string>)
    requires Unknown(Some(c1), b1).message == Unknown(Some(c2), b2).message
    ensures c1 == c2 && b1 == b2
  {
    var d1 := IntToString(c1);
    var d2 := IntToString(c2);
    UnknownMessageWithStatus(c1, b1);
    UnknownMessageWithStatus(c2, b2);
    PrefixCancels("Unknown error (status: ", d1 + ")" + BodyPart(b1), d2 + ")" + BodyPart(b2));
    SplitAtClose(d1, d2, BodyPart(b1), BodyPart(b2));
    IntToStringInjective(c1, c2);
    BodyPartInjective(b1, b2);
  }

  /** A default `Unknown` message determines both its status code and its body. */
  lemma UnknownMessageInjective(s1: Option<Int32>, b1: Option<string>, s2: Option<Int32>, b2: Option<string>)
    requires Unknown(s1, b1).message == Unknown(s2, b2).message
    ensures s1 == s2 && b1 == b2
  {
    UnknownMessageSeparator(s1, b1);
    UnknownMessageSeparator(s2, b2);
    assert s1.Some? <==> s2.Some?;
    if s1.Some? {
      UnknownWithStatusInjective(s1.value, b1, s2.value, b2);
    } else {
      assert Unknown(s1, b1).message == "Unknown error" + BodyPart(b1);
      assert Unknown(s2, b2).message == "Unknown error" + BodyPart(b2);
      PrefixCancels("Unknown error", BodyPart(b1), BodyPart(b2));
      BodyPartInjective(b1, b2);
    }
  }

  // ---------------------------------------------------------------------------
  // The exception bridge

  /** Only a network error hands its cause to the exception, and then that very cause. */
  lemma ExceptionCause(e: PexKitError)
    ensures ToException(e).Cause() == if e.NetworkError? then Some(e.cause) else None
    ensures ToException(e).AsThrowable().message == Some(e.message)
  {
  }

  /** The exception's cause chain continues with the network error's whole cause chain. */
  lemma ExceptionKeepsCauseChain(cause: Throwable)
    ensures CauseChain(ToException(NetworkError(cause)).AsThrowable())[1..] == CauseChain(cause)
  {
  }
}
