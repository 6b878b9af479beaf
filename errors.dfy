/**
 * The client's error classes and `handleHttpError`, which turns a non-2xx
 * response into one of them by status code, taking the message from the
 * body's `detail`, then its `message`, then the status line.
 */
module Errors {
  import opened Wrappers
  import opened JsValue

  /**
   * The subclasses of `PixelLabError` the client throws. The message is the
   * value the error was built with (a body's `detail` may be any JSON value).
   * `ValidationError` records whether a `ZodError` was attached.
   */
  datatype PixelLabError =
    | AuthenticationError(message: Value)
    | ValidationError(message: Value, hasValidationErrors: bool)
    | RateLimitError(message: Value)
    | HttpError(message: Value, status: int)
  {
    /** The `code` each subclass passes to `PixelLabError`. */
    function Code(): string {
      match this
      case AuthenticationError(_) => "AUTHENTICATION_ERROR"
      case ValidationError(_, _) => "VALIDATION_ERROR"
      case RateLimitError(_) => "RATE_LIMIT_ERROR"
      case HttpError(_, _) => "HTTP_ERROR"
    }

    /** The `name` each subclass sets. */
    function Name(): string {
      match this
      case AuthenticationError(_) => "AuthenticationError"
      case ValidationError(_, _) => "ValidationError"
      case RateLimitError(_) => "RateLimitError"
      case HttpError(_, _) => "HttpError"
    }
  }

  /**
   * What an operation can throw: the raw `ZodError` of its input schema, one
   * of the client's errors, the `TypeError` of reading a property of `null`,
   * the error of reading a 2xx body that is not JSON, or a failure of the
   * transport itself, passed on unchanged.
   */
  datatype Thrown =
    | ZodError
    | Raised(error: PixelLabError)
    | TypeError
    | InvalidJson
    | TransportFailure

  /** `response.ok`: a status in 200..299. */
  predicate Ok(status: int) {
    200 <= status <= 299
  }

  /** A response as `handleHttpError` reads it; `body` is `None` when it is not JSON. */
  datatype ErrorResponse = ErrorResponse(status: int, statusText: string, body: Option<Value>)

  /** The message used when the body names none: "HTTP <status>: <statusText>". */
  function StatusLine(status: int, statusText: string): string {
    "HTTP " + IntToString(status) + ": " + statusText
  }

  /** `errorData.detail || errorData.message || "HTTP <status>: <statusText>"`. */
  function ErrorMessage(errorData: Value, status: int, statusText: string): (m: Value)
    ensures Truthy(m)
  {
    var detail := Get(errorData, "detail");
    var message := Get(errorData, "message");
    if Truthy(detail) then detail
    else if Truthy(message) then message
    else Str(StatusLine(status, statusText))
  }

  /** The `switch` on the status: 401, 422 and 429 have their own class, every other status is an `HttpError`. */
  function Classify(status: int, message: Value): (e: PixelLabError)
    ensures e.message == message
    ensures status == 401 <==> e.AuthenticationError?
    ensures status == 422 <==> e.ValidationError? && !e.hasValidationErrors
    ensures status == 429 <==> e.RateLimitError?
    ensures status != 401 && status != 422 && status != 429 <==> e.HttpError? && e.status == status
  {
    if status == 401 then AuthenticationError(message)
    else if status == 422 then ValidationError(message, false)
    else if status == 429 then RateLimitError(message)
    else HttpError(message, status)
  }

  /**
   * `handleHttpError` as written: a body that is not JSON leaves `errorData`
   * as `{}`, but a body that is JSON `null` replaces it, and `null.detail`
   * then throws a `TypeError` instead of a client error.
   */
  function HandleHttpErrorAsWritten(r: ErrorResponse): (t: Thrown)
    ensures t.TypeError? <==> r.body == Some(Null)
    ensures !t.TypeError? ==> t.Raised? && Truthy(t.error.message) && t.error == Classify(r.status, t.error.message)
  {
    var errorData := if r.body.Some? then r.body.value else Obj(map[]);
    if errorData == Null then TypeError
    else Raised(Classify(r.status, ErrorMessage(errorData, r.status, r.statusText)))
  }

  /**
   * `handleHttpError` with a `null` body read like an empty one; it never
   * returns normally, so its result is the error it throws.
   */
  function HandleHttpError(r: ErrorResponse): (e: PixelLabError)
    ensures Truthy(e.message)
    ensures e == Classify(r.status, e.message)
    ensures r.body.None? || r.body == Some(Null) ==> e.message == Str(StatusLine(r.status, r.statusText))
  {
    var errorData := if r.body.Some? && r.body.value != Null then r.body.value else Obj(map[]);
    Classify(r.status, ErrorMessage(errorData, r.status, r.statusText))
  }

  /** The error chosen for each status, with its code and name. */
  lemma ClassifiedByStatus(r: ErrorResponse)
    ensures var e := HandleHttpError(r);
      (r.status == 401 <==> e.AuthenticationError?) &&
      (r.status == 422 <==> e.ValidationError?) &&
      (r.status == 429 <==> e.RateLimitError?) &&
      (r.status != 401 && r.status != 422 && r.status != 429 <==> e.HttpError?)
    ensures var e := HandleHttpError(r);
      (e.AuthenticationError? ==> e.Code() == "AUTHENTICATION_ERROR" && e.Name() == "AuthenticationError") &&
      (e.ValidationError? ==> e.Code() == "VALIDATION_ERROR" && !e.hasValidationErrors) &&
      (e.RateLimitError? ==> e.Code() == "RATE_LIMIT_ERROR" && e.Name() == "RateLimitError") &&
      (e.HttpError? ==> e.Code() == "HTTP_ERROR" && e.status == r.status)
  {
  }

  /**
   * The message is the body's `detail` when truthy, else its `message` when
   * truthy, else the status line; a body that is not JSON, or is `null`,
   * always gives the status line.
   */
  lemma MessagePrecedence(r: ErrorResponse)
    ensures var m := HandleHttpError(r).message;
      if r.body.None? || r.body.value == Null then m == Str(StatusLine(r.status, r.statusText))
      else if Truthy(Get(r.body.value, "detail")) then m == Get(r.body.value, "detail")
      else if Truthy(Get(r.body.value, "message")) then m == Get(r.body.value, "message")
      else m == Str(StatusLine(r.status, r.statusText))
    ensures Truthy(HandleHttpError(r).message)
  {
  }

  /** The status line carries the status, which reads back from its digits. */
  lemma StatusLineCarriesStatus(status: nat, statusText: string)
    ensures var line := StatusLine(status, statusText);
      var digits := NatToString(status);
      line[..5] == "HTTP " && line[5..5 + |digits|] == digits && DigitsValue(digits) == status &&
      line[5 + |digits|..] == ": " + statusText
  {
    var digits := NatToString(status);
    NatToStringRoundTrip(status);
    assert StatusLine(status, statusText) == "HTTP " + digits + (": " + statusText);
    ThreeParts("HTTP ", digits, ": " + statusText);
  }

  /** Each part of a three-part concatenation is read back by slicing. */
  lemma ThreeParts(a: string, b: string, c: string)
    ensures (a + b + c)[..|a|] == a && (a + b + c)[|a|..|a| + |b|] == b && (a + b + c)[|a| + |b|..] == c
  {
    assert (a + b + c)[..|a|] == a;
    assert (a + b + c)[|a|..|a| + |b|] == b;
    assert (a + b + c)[|a| + |b|..] == c;
  }

  /** Both versions agree on every body except JSON `null`. */
  lemma CorrectedAgrees(r: ErrorResponse)
    requires r.body != Some(Null)
    ensures HandleHttpErrorAsWritten(r) == Raised(HandleHttpError(r))
  {
  }

  /** As written, a `TypeError` is thrown exactly for a body that is JSON `null`. */
  lemma TypeErrorExactlyOnNull(r: ErrorResponse)
    ensures HandleHttpErrorAsWritten(r) == TypeError <==> r.body == Some(Null)
  {
  }

  /** A 500 whose body is JSON `null` throws a `TypeError` as written, not an `HttpError`. */
  lemma NullBodyThrowsTypeError()
    ensures HandleHttpErrorAsWritten(ErrorResponse(500, "Internal Server Error", Some(Null))) == TypeError
    ensures HandleHttpError(ErrorResponse(500, "Internal Server Error", Some(Null)))
      == HttpError(Str("HTTP 500: Internal Server Error"), 500)
  {
    InternalServerErrorLine();
  }

  /** The status line of a 500. */
  lemma InternalServerErrorLine()
    ensures StatusLine(500, "Internal Server Error") == "HTTP 500: Internal Server Error"
  {
    assert NatToString(500) == "500" by {
      assert NatToString(5) == "5";
      assert NatToString(50) == NatToString(5) + "0";
    }
  }

  /** A 429 with `{detail: "slow down"}` is a `RateLimitError` whose message is "slow down". */
  lemma RateLimitedWithDetail()
    ensures var e := HandleHttpError(ErrorResponse(429, "Too Many Requests", Some(Obj(map["detail" := Str("slow down")]))));
      e == RateLimitError(Str("slow down")) && e.Code() == "RATE_LIMIT_ERROR"
  {
  }
}
