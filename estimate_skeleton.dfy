/** `estimateSkeleton`: the keypoints of the character in an image. */
module EstimateSkeleton {
  import opened Wrappers
  import opened JsValue
  import opened Zod
  import opened Keypoints
  import opened Base64Images
  import opened Errors
  import opened Client
  import opened Pipeline
  import opened Responses
  import opened RequestBody

  const Path: string := "/estimate-skeleton"

  /** The validated parameters: the one image. */
  datatype Params = Params(image: Base64Image)

  /** `EstimateSkeletonParamsSchema.parse(params)`: an object whose `image` is an image object. */
  function Validate(v: Value): (r: Parsed<Params>)
    ensures r.Success? <==> IsObject(v) && Get(v, "image").ImageInstance?
    ensures r.Success? ==> r.value.image.AsValue() == Get(v, "image")
  {
    var image := Instance(Get(v, "image"));
    if IsObject(v) && image.Success? then Success(Params(image.value)) else Failure(SchemaError)
  }

  /** An object holding an image object under `image` is read as that image, whatever else it holds. */
  lemma Accepted(v: Value, img: Base64Image)
    requires v.Obj? && Get(v, "image") == img.AsValue()
    ensures Validate(v) == Success(Params(img))
  {
    InstanceRoundTrip(img);
  }

  /** `requestData`: the single key `image`, holding the image's wire form. */
  function RequestData(p: Params): (r: Value)
    ensures r.Obj? && r.props.Keys == {"image"} && IsJson(r)
  {
    Obj(map["image" := Dump(p.image)])
  }

  /** The JSON object sent: `JSON.stringify(requestData)`, with the single key `image`. */
  function Body(p: Params): (r: map<string, Value>)
    ensures r.Keys == {"image"}
    ensures IsJson(r["image"])
  {
    Stringify(RequestData(p)).props
  }

  /** The body is exactly `{image: {type: "base64", base64, format}}`. */
  lemma BodyIsImage(p: Params)
    ensures Body(p) == map["image" := ImageJson(p.image.base64, p.image.format)]
  {
    StringifyJson(RequestData(p));
  }

  /**
   * `client.estimateSkeleton(params)`: invalid parameters throw the raw
   * `ZodError` and nothing is sent; otherwise the body is posted to the
   * operation's path and the answer, read as `{keypoints, usage}`, is
   * returned as parsed.
   */
  function EstimateSkeleton(client: PixelLabClient, params: Value, exchange: Exchange): (c: Call<SkeletonResponse>)
    ensures c.sent.None? <==> Validate(params).Failure?
    ensures c.sent.None? ==> c.outcome == Failure(ZodError)
    ensures c.sent.Some? ==>
      c.sent.value.verb == POST && c.sent.value.url == client.Url(Path) &&
      c.sent.value.body == Some(Obj(Body(Validate(params).value)))
    ensures c.sent.Some? ==> c.outcome == Receive(exchange, ParseSkeletonResponse)
  {
    PostCall(client, Path, Validate, RequestData, ParseSkeletonResponse, params, exchange)
  }

  /**
   * An image sent, and a 2xx answer: a valid body is returned as parsed
   * (keypoints in order, `zIndex` filled in), an invalid one becomes the
   * wrapped `ValidationError`, and a non-2xx status is classified by
   * `handleHttpError`.
   */
  lemma AnswerRead(client: PixelLabClient, img: Base64Image, response: HttpResponse)
    ensures var c := EstimateSkeleton(client, Obj(map["image" := img.AsValue()]), Answered(response));
      c.sent.Some? && c.sent.value.body == Some(Obj(map["image" := ImageJson(img.base64, img.format)])) &&
      (!Ok(response.status) ==>
        c.outcome == Failure(Raised(HandleHttpError(ErrorResponse(response.status, response.statusText, response.body))))) &&
      (Ok(response.status) && response.body.Some? && ParseSkeletonResponse(response.body.value).Success? ==>
        c.outcome == Success(ParseSkeletonResponse(response.body.value).value)) &&
      (Ok(response.status) && response.body.Some? && ParseSkeletonResponse(response.body.value).Failure? ==>
        c.outcome == Failure(Raised(ValidationError(Str(ResponseValidationFailed), true))))
  {
    var v := Obj(map["image" := img.AsValue()]);
    Accepted(v, img);
    BodyIsImage(Params(img));
  }

  /** A keypoint list answer is returned unchanged, order and `zIndex` values included. */
  lemma KeypointsReturned(ks: seq<Keypoint>, u: Usd)
    ensures ParseSkeletonResponse(SkeletonResponse(ks, u).ToValue()) == Success(SkeletonResponse(ks, u))
  {
    var items := KeypointValues(ks);
    forall i | 0 <= i < |items| ensures ParseKeypoint(items[i]) == Success(ks[i]) {
      KeypointRoundTrip(ks[i]);
    }
    var r := ParseKeypoints(Arr(items));
    assert r.Success? && r.value == ks;
    UsdRoundTrip(u);
  }
}
