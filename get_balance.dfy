/** `getBalance`: the account's remaining credit. */
module GetBalance {
  import opened Wrappers
  import opened JsValue
  import opened Zod
  import opened Errors
  import opened Client
  import opened Pipeline
  import opened Responses

  const Path: string := "/balance"

  /**
   * `client.getBalance()`: a GET with only the client's headers and no body;
   * the answer is read as `{type: "usd", usd}` and returned as parsed.
   */
  function GetBalance(client: PixelLabClient, exchange: Exchange): (c: Call<Usd>)
    ensures c.sent.Some?
    ensures c.sent.value.verb == GET && c.sent.value.url == client.Url(Path)
    ensures c.sent.value.headers == client.Headers() && c.sent.value.body.None?
    ensures c.outcome == Receive(exchange, ParseUsd)
  {
    GetCall(client, Path, ParseUsd, exchange)
  }

  /** A 2xx answer `{type: "usd", usd: 12.5}` is returned unchanged. */
  lemma TwelveFifty(client: PixelLabClient)
    ensures var body := Obj(map["type" := Str("usd"), "usd" := Num(12.5)]);
      var c := GetBalance(client, Answered(HttpResponse(200, "OK", Some(body))));
      c.outcome.Success? && c.outcome.value.ToValue() == body
  {
    UsdRoundTrip(Usd(12.5));
  }

  /**
   * A 2xx answer is returned exactly when its `type` is "usd" and its `usd` a
   * number, with that amount; anything else becomes the wrapped
   * `ValidationError`.
   */
  lemma BalanceRead(client: PixelLabClient, status: int, statusText: string, body: Value)
    requires Ok(status)
    ensures var c := GetBalance(client, Answered(HttpResponse(status, statusText, Some(body))));
      (IsObject(body) && Get(body, "type") == Str("usd") && Get(body, "usd").Num? ==>
        c.outcome == Success(Usd(Get(body, "usd").n))) &&
      (!(IsObject(body) && Get(body, "type") == Str("usd") && Get(body, "usd").Num?) ==>
        c.outcome == Failure(Raised(ValidationError(Str(ResponseValidationFailed), true))))
  {
    UsdAccepted(body);
  }

  /** A non-2xx answer is classified by `handleHttpError`, whatever its body. */
  lemma ErrorStatusClassified(client: PixelLabClient, response: HttpResponse)
    requires !Ok(response.status)
    ensures GetBalance(client, Answered(response)).outcome ==
      Failure(Raised(HandleHttpError(ErrorResponse(response.status, response.statusText, response.body))))
  {
  }
}
