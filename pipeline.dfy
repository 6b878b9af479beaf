/**
 * The sequence every operation follows: validate the parameters (outside the
 * `try`), build the request, and read the answer: a non-2xx status goes to
 * `handleHttpError`, a 2xx body is validated against the response schema,
 * and a `ZodError` from that schema becomes a `ValidationError`.
 */
module Pipeline {
  import opened Wrappers
  import opened JsValue
  import opened Zod
  import opened Errors
  import opened Client

  datatype Method = GET | POST

  /** A request as `fetch` is given it; the body is the JSON value its text denotes. */
  datatype HttpRequest = HttpRequest(verb: Method, url: string, headers: map<string, string>, body: Option<Value>)

  /** The request of a POST operation: the client's headers plus the JSON content type, and the stringified body. */
  function PostRequest(client: PixelLabClient, path: string, requestData: Value): (req: HttpRequest)
    ensures req.verb == POST && req.url == client.Url(path)
    ensures req.headers.Keys == {"Authorization", "Content-Type"}
    ensures req.headers["Authorization"] == client.Headers()["Authorization"]
    ensures req.headers["Content-Type"] == "application/json"
    ensures req.body == Some(Stringify(requestData))
  {
    HttpRequest(POST, client.Url(path), client.Headers()["Content-Type" := "application/json"], Some(Stringify(requestData)))
  }

  /** The request of a GET operation: only the client's headers, and no body. */
  function GetRequest(client: PixelLabClient, path: string): (req: HttpRequest)
    ensures req.verb == GET && req.url == client.Url(path)
    ensures req.headers == client.Headers() && req.body.None?
  {
    HttpRequest(GET, client.Url(path), client.Headers(), None)
  }

  /** A response: its status, status text and body, `None` when the body is not JSON. */
  datatype HttpResponse = HttpResponse(status: int, statusText: string, body: Option<Value>)

  /** What the network does with a request: it answers, or `fetch` itself fails. */
  datatype Exchange = Answered(response: HttpResponse) | Unreachable

  /** One call of an operation: the request it sent, if any, and what it returned or threw. */
  datatype Call<T> = Call(sent: Option<HttpRequest>, outcome: Result<T, Thrown>)

  /** The message of a `ValidationError` wrapping a response schema failure. */
  const ResponseValidationFailed: string := "Response validation failed"

  /** The `try` block after `fetch`: error statuses, the JSON body, and the response schema. */
  function Receive<T>(exchange: Exchange, parse: Value -> Parsed<T>): (r: Result<T, Thrown>)
    ensures exchange.Unreachable? ==> r == Failure(TransportFailure)
    ensures exchange.Answered? && !Ok(exchange.response.status) ==>
      var resp := exchange.response;
      r == Failure(Raised(HandleHttpError(ErrorResponse(resp.status, resp.statusText, resp.body))))
    ensures exchange.Answered? && Ok(exchange.response.status) && exchange.response.body.None? ==>
      r == Failure(InvalidJson)
    ensures exchange.Answered? && Ok(exchange.response.status) && exchange.response.body.Some? ==>
      var parsed := parse(exchange.response.body.value);
      (parsed.Success? ==> r == Success(parsed.value)) &&
      (parsed.Failure? ==> r == Failure(Raised(ValidationError(Str(ResponseValidationFailed), true))))
  {
    match exchange
    case Unreachable => Failure(TransportFailure)
    case Answered(resp) =>
      if !Ok(resp.status) then Failure(Raised(HandleHttpError(ErrorResponse(resp.status, resp.statusText, resp.body))))
      else if resp.body.None? then Failure(InvalidJson)
      else
        match parse(resp.body.value)
        case Success(t) => Success(t)
        case Failure(_) => Failure(Raised(ValidationError(Str(ResponseValidationFailed), true)))
  }

  /**
   * A POST operation: `schema.parse(params)`, modelled by `validate`, throws
   * its `ZodError` before any request is made; otherwise the request carries
   * `requestData` of the validated parameters and the answer is read by
   * `Receive`.
   */
  function PostCall<P, T>(client: PixelLabClient, path: string, validate: Value -> Parsed<P>,
                          requestData: P -> Value, parse: Value -> Parsed<T>, params: Value,
                          exchange: Exchange): (c: Call<T>)
    ensures c.sent.None? <==> validate(params).Failure?
    ensures c.sent.None? ==> c.outcome == Failure(ZodError)
    ensures c.sent.Some? ==> c.sent.value == PostRequest(client, path, requestData(validate(params).value))
    ensures c.sent.Some? ==> c.outcome == Receive(exchange, parse)
  {
    match validate(params)
    case Failure(_) => Call(None, Failure(ZodError))
    case Success(validated) => Call(Some(PostRequest(client, path, requestData(validated))), Receive(exchange, parse))
  }

  /** A GET operation: there are no parameters, so the request is always sent. */
  function GetCall<T>(client: PixelLabClient, path: string, parse: Value -> Parsed<T>, exchange: Exchange): (c: Call<T>)
    ensures c.sent == Some(GetRequest(client, path))
    ensures c.outcome == Receive(exchange, parse)
  {
    Call(Some(GetRequest(client, path)), Receive(exchange, parse))
  }

  /**
   * Error answers against `handleHttpError` as written: on every body but
   * JSON `null` they throw exactly what the code as written throws; on a
   * `null` body the code as written throws a `TypeError`, and `Receive` the
   * error of the status line.
   */
  lemma ReceiveAsWritten<T>(response: HttpResponse, parse: Value -> Parsed<T>)
    requires !Ok(response.status)
    ensures var er := ErrorResponse(response.status, response.statusText, response.body);
      response.body != Some(Null) ==> Receive(Answered(response), parse) == Failure(HandleHttpErrorAsWritten(er))
    ensures var er := ErrorResponse(response.status, response.statusText, response.body);
      response.body == Some(Null) ==>
        HandleHttpErrorAsWritten(er) == TypeError &&
        Receive(Answered(response), parse) ==
          Failure(Raised(Classify(response.status, Str(StatusLine(response.status, response.statusText)))))
  {
    var er := ErrorResponse(response.status, response.statusText, response.body);
    if response.body != Some(Null) {
      CorrectedAgrees(er);
    }
  }

  /** A response schema failure is always wrapped: no raw `ZodError` leaves the `try` block. */
  lemma ReceiveNeverRawZodError<T>(exchange: Exchange, parse: Value -> Parsed<T>)
    ensures Receive(exchange, parse) != Failure(ZodError)
  {
  }

  /**
   * A `ValidationError` carrying schema details comes from a response schema
   * failure and from nothing else (a 422 status gives one without details).
   */
  lemma WrappedExactlyOnResponseFailure<T>(exchange: Exchange, parse: Value -> Parsed<T>)
    ensures (exists m :: Receive(exchange, parse) == Failure(Raised(ValidationError(m, true)))) <==>
      exchange.Answered? && Ok(exchange.response.status) && exchange.response.body.Some? &&
      parse(exchange.response.body.value).Failure?
  {
    if exchange.Answered? && Ok(exchange.response.status) && exchange.response.body.Some? &&
      parse(exchange.response.body.value).Failure? {
      assert Receive(exchange, parse) == Failure(Raised(ValidationError(Str(ResponseValidationFailed), true)));
    }
  }

  /** A raw `ZodError` means the parameters were rejected and nothing was sent. */
  lemma ZodErrorOnlyFromInput<P, T>(client: PixelLabClient, path: string, validate: Value -> Parsed<P>,
                                    requestData: P -> Value, parse: Value -> Parsed<T>, params: Value,
                                    exchange: Exchange)
    ensures PostCall(client, path, validate, requestData, parse, params, exchange).outcome == Failure(ZodError) <==>
      validate(params).Failure?
  {
    var c := PostCall(client, path, validate, requestData, parse, params, exchange);
    if c.sent.Some? {
      ReceiveNeverRawZodError(exchange, parse);
    }
  }

  /** The body sent for an object is JSON: no `undefined` and no class instance is left in it. */
  lemma PostBodyIsJson(client: PixelLabClient, path: string, requestData: Value)
    requires requestData.Obj?
    ensures IsJson(PostRequest(client, path, requestData).body.value)
  {
  }
}
