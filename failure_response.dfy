/**
 * The structured error a service broker backend returns to choose the HTTP
 * status, the log-correlation tag and the shape of the error body of a
 * failed request, and the builder that constructs it.
 *
 * The Go value wraps an `error`; only its message is observable here, so
 * the cause is kept as that message. The builder is a value: each step
 * returns a builder with one more setting, and `Build` yields the failure.
 */
module FailureResponses {
  import opened Options
  import R = ApiResponses
  import Decimal

  const StatusInternalServerError := 500

  /** The status is an HTTP error status: 4xx or 5xx. */
  predicate IsErrorStatus(code: int) {
    400 <= code < 600
  }

  /** The text of the warning logged when a failure carries a status that is not an error status. */
  function InvalidStatusWarning(code: int): (w: string)
    ensures |w| > 0
  {
    "Invalid failure http response code: " + Decimal.IntToString(code)
      + ", expected 4xx or 5xx, returning internal server error: "
      + Decimal.IntToString(StatusInternalServerError) + "."
  }

  datatype FailureResponse = FailureResponse(
    message: string,       // the cause's message
    statusCode: int,
    loggerAction: string,
    errorKey: string,      // "" when no error key was set
    emptyResponse: bool)
  {
    /** The failure's message, as Go's `Error()` reports it. */
    function Error(): (m: string)
      ensures m == message
    {
      message
    }

    /**
     * The body a handler writes for this failure: nothing when built with an
     * empty response, otherwise the error key (possibly empty) and the cause
     * as description.
     */
    function ErrorResponse<A>(): (r: R.Envelope<A>)
      ensures r.EmptyResponse? <==> emptyResponse
      ensures r.ErrorResponse? <==> !emptyResponse
      ensures r.ErrorResponse? ==> r.description == message && r.error == errorKey
    {
      if emptyResponse then R.Envelope<A>.EmptyResponse
      else R.Envelope<A>.ErrorResponse(errorKey, message)
    }

    /**
     * The status to send: the failure's own when it is an error status,
     * otherwise 500. In the second case a warning naming both codes is
     * logged when a logger is supplied; it is returned here instead.
     */
    function ValidatedStatusCode(hasLogger: bool): (r: (int, Option<string>))
      ensures IsErrorStatus(r.0)
      ensures IsErrorStatus(statusCode) ==> r == (statusCode, None)
      ensures !IsErrorStatus(statusCode) ==> r.0 == StatusInternalServerError
      ensures r.1.Some? <==> hasLogger && !IsErrorStatus(statusCode)
      ensures r.1.Some? ==> r.1.value == InvalidStatusWarning(statusCode)
    {
      if IsErrorStatus(statusCode) then (statusCode, None)
      else (StatusInternalServerError, if hasLogger then Some(InvalidStatusWarning(statusCode)) else None)
    }

    /** A new failure whose message is this one's followed by a space and `extra`. */
    function AppendErrorMessage(extra: string): (r: FailureResponse)
      ensures r.Error() == Error() + " " + extra
      ensures r.statusCode == statusCode && r.loggerAction == loggerAction
      ensures r.errorKey == errorKey && r.emptyResponse == emptyResponse
    {
      this.(message := message + " " + extra)
    }

    /** The log-correlation tag the failure was created with. */
    function LoggerAction(): (a: string)
      ensures a == loggerAction
    {
      loggerAction
    }
  }

  /** A failure whose body carries the cause as description and no error key. */
  function NewFailureResponse(cause: string, statusCode: int, loggerAction: string): (r: FailureResponse)
    ensures r.Error() == cause && r.statusCode == statusCode && r.LoggerAction() == loggerAction
    ensures r.errorKey == "" && !r.emptyResponse
  {
    FailureResponse(cause, statusCode, loggerAction, "", false)
  }

  /** The builder's accumulated settings. */
  datatype FailureResponseBuilder = FailureResponseBuilder(
    message: string,
    statusCode: int,
    loggerAction: string,
    errorKey: string,
    emptyResponse: bool)
  {
    /** Sets the public error key shown in the body. */
    function WithErrorKey(key: string): (b: FailureResponseBuilder)
      ensures b.errorKey == key
      ensures b.message == message && b.statusCode == statusCode && b.loggerAction == loggerAction
      ensures b.emptyResponse == emptyResponse
    {
      this.(errorKey := key)
    }

    /** Asks for an empty body whatever the cause. */
    function WithEmptyResponse(): (b: FailureResponseBuilder)
      ensures b.emptyResponse
      ensures b.message == message && b.statusCode == statusCode && b.loggerAction == loggerAction
      ensures b.errorKey == errorKey
    {
      this.(emptyResponse := true)
    }

    /** The failure with every accumulated setting. */
    function Build(): (f: FailureResponse)
      ensures f.Error() == message && f.statusCode == statusCode && f.LoggerAction() == loggerAction
      ensures f.errorKey == errorKey && f.emptyResponse == emptyResponse
    {
      FailureResponse(message, statusCode, loggerAction, errorKey, emptyResponse)
    }
  }

  /** A builder with no error key and a non-empty body. */
  function NewFailureResponseBuilder(cause: string, statusCode: int, loggerAction: string): (b: FailureResponseBuilder)
    ensures b.message == cause && b.statusCode == statusCode && b.loggerAction == loggerAction
    ensures b.errorKey == "" && !b.emptyResponse
  {
    FailureResponseBuilder(cause, statusCode, loggerAction, "", false)
  }

  // ---- Properties ----

  /** Built without options, a builder gives the same failure as the constructor. */
  lemma BuilderDefault(cause: string, statusCode: int, loggerAction: string)
    ensures NewFailureResponseBuilder(cause, statusCode, loggerAction).Build()
         == NewFailureResponse(cause, statusCode, loggerAction)
  {
  }

  /** A plain failure's body is an ErrorResponse with the cause as description and no error. */
  lemma PlainErrorResponse<A>(cause: string, statusCode: int, loggerAction: string)
    ensures NewFailureResponse(cause, statusCode, loggerAction).ErrorResponse<A>()
         == R.Envelope<A>.ErrorResponse("", cause)
    ensures R.Keys(NewFailureResponse(cause, statusCode, loggerAction).ErrorResponse<A>()) == {R.DescriptionKey}
  {
    R.ErrorResponseKeys<A>("", cause);
  }

  /** With an error key, the body carries that key and the cause. */
  lemma KeyedErrorResponse<A>(cause: string, statusCode: int, loggerAction: string, key: string)
    ensures NewFailureResponseBuilder(cause, statusCode, loggerAction).WithErrorKey(key).Build().ErrorResponse<A>()
         == R.Envelope<A>.ErrorResponse(key, cause)
  {
  }

  /** With an empty response, the body is empty whatever the cause and the error key. */
  lemma EmptyErrorResponse<A>(b: FailureResponseBuilder, key: string)
    ensures b.WithEmptyResponse().Build().ErrorResponse<A>() == R.Envelope<A>.EmptyResponse
    ensures b.WithEmptyResponse().WithErrorKey(key).Build().ErrorResponse<A>() == R.Envelope<A>.EmptyResponse
    ensures b.WithErrorKey(key).WithEmptyResponse().Build().ErrorResponse<A>() == R.Envelope<A>.EmptyResponse
  {
  }

  /**
   * Appending a message keeps the classification: the same validated status,
   * logger action and presentation; a non-empty body describes the longer message.
   */
  lemma AppendKeepsClassification<A>(f: FailureResponse, extra: string, hasLogger: bool)
    ensures f.AppendErrorMessage(extra).ValidatedStatusCode(hasLogger) == f.ValidatedStatusCode(hasLogger)
    ensures f.AppendErrorMessage(extra).LoggerAction() == f.LoggerAction()
    ensures !f.emptyResponse ==>
      f.AppendErrorMessage(extra).ErrorResponse<A>() == R.Envelope<A>.ErrorResponse(f.errorKey, f.Error() + " " + extra)
    ensures f.emptyResponse ==>
      f.AppendErrorMessage(extra).ErrorResponse<A>() == f.ErrorResponse<A>()
  {
  }

  /** An error status is sent as it is, whatever the presentation. */
  lemma ValidStatusUnchanged(b: FailureResponseBuilder, hasLogger: bool, key: string)
    requires IsErrorStatus(b.statusCode)
    ensures b.Build().ValidatedStatusCode(hasLogger) == (b.statusCode, None)
    ensures b.WithErrorKey(key).Build().ValidatedStatusCode(hasLogger) == (b.statusCode, None)
    ensures b.WithEmptyResponse().Build().ValidatedStatusCode(hasLogger) == (b.statusCode, None)
  {
  }

  /** Status 600 is sent as 500, with the warning naming 600 and 500 when a logger is given. */
  lemma Status600Replaced(cause: string, loggerAction: string)
    ensures NewFailureResponse(cause, 600, loggerAction).ValidatedStatusCode(false) == (500, None)
    ensures NewFailureResponse(cause, 600, loggerAction).ValidatedStatusCode(true)
         == (500, Some("Invalid failure http response code: " + "600"
                       + ", expected 4xx or 5xx, returning internal server error: " + "500" + "."))
  {
    assert Decimal.DigitChar(0) == '0' && Decimal.DigitChar(5) == '5' && Decimal.DigitChar(6) == '6';
    assert Decimal.NatToString(60) == Decimal.NatToString(6) + "0" == "60";
    assert Decimal.IntToString(600) == Decimal.NatToString(60) + "0" == "600";
    assert Decimal.NatToString(50) == Decimal.NatToString(5) + "0" == "50";
    assert Decimal.IntToString(500) == Decimal.NatToString(50) + "0" == "500";
  }

  /** Validation is idempotent: a failure carrying the validated status keeps it. */
  lemma ValidatedStatusIdempotent(f: FailureResponse, hasLogger: bool)
    ensures f.(statusCode := f.ValidatedStatusCode(hasLogger).0).ValidatedStatusCode(hasLogger)
         == (f.ValidatedStatusCode(hasLogger).0, None)
  {
  }

  /** The warning names the offending code: different codes give different warnings. */
  lemma WarningNamesCode(c1: int, c2: int)
    requires InvalidStatusWarning(c1) == InvalidStatusWarning(c2)
    ensures c1 == c2
  {
    var prefix := "Invalid failure http response code: ";
    var suffix := ", expected 4xx or 5xx, returning internal server error: "
      + Decimal.IntToString(StatusInternalServerError) + ".";
    var s1, s2 := Decimal.IntToString(c1), Decimal.IntToString(c2);
    var w := InvalidStatusWarning(c1);
    assert w == prefix + s1 + suffix;
    assert w == prefix + s2 + suffix;
    assert |s1| == |s2|;
    assert s1 == w[|prefix|..|prefix| + |s1|];
    assert s2 == w[|prefix|..|prefix| + |s2|];
    Decimal.IntToStringInjective(c1, c2);
  }

  /** The logger action survives every builder step. */
  lemma LoggerActionKept(cause: string, statusCode: int, loggerAction: string, key: string)
    ensures NewFailureResponseBuilder(cause, statusCode, loggerAction).WithErrorKey(key).Build().LoggerAction() == loggerAction
    ensures NewFailureResponseBuilder(cause, statusCode, loggerAction).WithEmptyResponse().Build().LoggerAction() == loggerAction
    ensures NewFailureResponse(cause, statusCode, loggerAction).LoggerAction() == loggerAction
  {
  }
}
