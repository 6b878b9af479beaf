/** `PixelLabClient`: the secret and base URL every operation builds its request from. */
module Client {
  import opened Wrappers

  /** The base URL used when none is given. */
  const DefaultBaseUrl: string := "https://api.pixellab.ai/v1"

  /** A client; both fields are readonly once constructed. */
  datatype PixelLabClient = PixelLabClient(secret: string, baseUrl: string)
  {
    /** `headers()`: a single `Authorization` entry carrying the secret as a bearer token. */
    function Headers(): (h: map<string, string>)
      ensures h.Keys == {"Authorization"}
    {
      map["Authorization" := "Bearer " + secret]
    }

    /** The URL of an operation: the base URL followed by the operation's path. */
    function Url(path: string): (url: string)
      ensures |url| == |baseUrl| + |path| && url[..|baseUrl|] == baseUrl && url[|baseUrl|..] == path
    {
      baseUrl + path
    }
  }

  /** `new PixelLabClient(secret, baseUrl)`: an omitted base URL becomes the public service. */
  function New(secret: string, baseUrl: Option<string>): (c: PixelLabClient)
    ensures c.secret == secret
    ensures baseUrl.None? ==> c.baseUrl == DefaultBaseUrl
    ensures baseUrl.Some? ==> c.baseUrl == baseUrl.value
  {
    PixelLabClient(secret, if baseUrl.Some? then baseUrl.value else DefaultBaseUrl)
  }

  /**
   * The token of an `Authorization` value using the "Bearer" scheme of
   * section 2.1 of RFC 6750: the text after "Bearer" and one space.
   */
  function BearerToken(authorization: string): (token: Option<string>)
    ensures token.Some? ==> authorization == "Bearer " + token.value
    ensures token.None? ==> forall t :: authorization != "Bearer " + t
  {
    if |authorization| >= 7 && authorization[..7] == "Bearer " then Some(authorization[7..]) else None
  }

  /** The `Authorization` header reads back as a bearer token equal to the secret. */
  lemma HeadersCarrySecret(c: PixelLabClient)
    ensures BearerToken(c.Headers()["Authorization"]) == Some(c.secret)
  {
    assert ("Bearer " + c.secret)[..7] == "Bearer ";
    assert ("Bearer " + c.secret)[7..] == c.secret;
  }

  /** `new PixelLabClient("test-secret")` sends "Bearer test-secret" to the public service. */
  lemma DefaultClientHeaders()
    ensures New("test-secret", None).Headers() == map["Authorization" := "Bearer test-secret"]
    ensures New("test-secret", None).Url("/balance") == "https://api.pixellab.ai/v1/balance"
  {
    assert "Bearer " + "test-secret" == "Bearer test-secret";
  }
}
