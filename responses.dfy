/**
 * The response schemas the operations validate a 2xx body with, each read
 * into a typed value that is proved to be what the schema returns, and the
 * results the operations hand back to their callers.
 */
module Responses {
  import opened Wrappers
  import opened JsValue
  import opened Zod
  import opened Base64Images
  import opened Keypoints

  /** `{type: "usd", usd}`: the usage of one request, and the account balance. */
  datatype Usd = Usd(usd: real)
  {
    function ToValue(): Value {
      Obj(map["type" := Str("usd"), "usd" := Num(usd)])
    }
  }

  /** The usage schema of every operation, and `GetBalanceResponseSchema`. */
  const UsdSchema: Schema := ObjectSchema(map["type" := LiteralSchema("usd"), "usd" := NumberSchema(None, None)])

  /** Reads `{type: "usd", usd}`; any other `type` is rejected. */
  function ParseUsd(v: Value): (r: Parsed<Usd>)
    ensures r.Success? <==> Admits(UsdSchema, v)
    ensures r.Success? ==> r.value.ToValue() == Output(UsdSchema, v)
  {
    UsdFields(v);
    var t := Literal(Get(v, "type"), "usd");
    var x := Number(Get(v, "usd"), None, None);
    if IsObject(v) && t.Success? && x.Success? then Success(Usd(x.value)) else Failure(SchemaError)
  }

  /** The two fields, read one by one, are what `UsdSchema` admits and outputs. */
  lemma UsdFields(v: Value)
    ensures var t, x := Literal(Get(v, "type"), "usd"), Number(Get(v, "usd"), None, None);
      (IsObject(v) && t.Success? && x.Success? <==> Admits(UsdSchema, v)) &&
      (IsObject(v) && t.Success? && x.Success? ==> Usd(x.value).ToValue() == Output(UsdSchema, v))
  {
    LiteralAgrees(Get(v, "type"), "usd");
    NumberAgrees(Get(v, "usd"), None, None);
    TwoFields("type", LiteralSchema("usd"), "usd", NumberSchema(None, None), v);
  }

  /** The `type` must be the literal "usd" and `usd` a number; the amount is kept. */
  lemma UsdAccepted(v: Value)
    ensures ParseUsd(v).Success? <==> IsObject(v) && Get(v, "type") == Str("usd") && Get(v, "usd").Num?
    ensures ParseUsd(v).Success? ==> ParseUsd(v).value.usd == Get(v, "usd").n
  {
  }

  /** An amount written as `{type: "usd", usd}` reads back unchanged. */
  lemma UsdRoundTrip(u: Usd)
    ensures ParseUsd(u.ToValue()) == Success(u)
  {
  }

  /** A response image, read against the response schema (format `.optional().default("png")`). */
  function ParseResponseImage(v: Value): (r: Parsed<ImageData>)
    ensures r.Success? <==> Admits(ResponseImageSchema, v)
    ensures r.Success? ==> r.value.ToValue() == Output(ResponseImageSchema, v)
  {
    ResponseImageSchemaAgrees(v);
    ParseImageData(v)
  }

  /** A response image must have `type` "base64" and a string `base64`; a missing format is "png". */
  lemma ResponseImageAccepted(v: Value)
    ensures ParseResponseImage(v).Success? ==> Get(v, "type") == Str("base64") && Get(v, "base64").Str?
    ensures ParseResponseImage(v).Success? ==> ParseResponseImage(v).value.base64 == Get(v, "base64").s
    ensures ParseResponseImage(v).Success? && Get(v, "format") == Undefined ==>
      ParseResponseImage(v).value.format == DefaultFormat
    ensures ParseResponseImage(v).Success? && Get(v, "format") != Undefined ==>
      Get(v, "format") == Str(ParseResponseImage(v).value.format)
  {
  }

  /** The body of the single-image operations: `{image, usage}`. */
  datatype ImageResponse = ImageResponse(image: ImageData, usage: Usd)
  {
    function ToValue(): Value {
      Obj(map["image" := image.ToValue(), "usage" := usage.ToValue()])
    }
  }

  const ImageResponseSchema: Schema := ObjectSchema(map["image" := ResponseImageSchema, "usage" := UsdSchema])

  function ParseImageResponse(v: Value): (r: Parsed<ImageResponse>)
    ensures r.Success? <==> Admits(ImageResponseSchema, v)
    ensures r.Success? ==> r.value.ToValue() == Output(ImageResponseSchema, v)
  {
    TwoFields("image", ResponseImageSchema, "usage", UsdSchema, v);
    if !IsObject(v) then Failure(SchemaError)
    else
      var image :- ParseResponseImage(Get(v, "image"));
      var usage :- ParseUsd(Get(v, "usage"));
      Success(ImageResponse(image, usage))
  }

  /** A valid single-image body reads back unchanged. */
  lemma ImageResponseRoundTrip(r: ImageResponse)
    ensures ParseImageResponse(r.ToValue()) == Success(r)
  {
    var v := r.ToValue();
    assert Get(v, "image") == r.image.ToValue() && Get(v, "usage") == r.usage.ToValue();
    ImageDataRoundTrip(r.image);
    UsdRoundTrip(r.usage);
  }

  /** A valid response image reads back unchanged. */
  lemma ImageDataRoundTrip(d: ImageData)
    ensures ParseResponseImage(d.ToValue()) == Success(d)
  {
  }

  /** The wire forms of a list of images, in order. */
  function ImageValues(ds: seq<ImageData>): (r: seq<Value>)
    ensures |r| == |ds| && forall i :: 0 <= i < |ds| ==> r[i] == ds[i].ToValue()
  {
    seq(|ds|, i requires 0 <= i < |ds| => ds[i].ToValue())
  }

  /** `z.array(imageSchema)`: every element must be an image; order is kept. */
  function ParseImageList(v: Value): (r: Parsed<seq<ImageData>>)
    ensures r.Success? <==> Admits(ArraySchema(ResponseImageSchema), v)
    ensures r.Success? ==> Arr(ImageValues(r.value)) == Output(ArraySchema(ResponseImageSchema), v)
  {
    var r := ArrayOf(v, ParseResponseImage);
    if r.Success? then
      assert Arr(ImageValues(r.value)).items == Output(ArraySchema(ResponseImageSchema), v).items;
      r
    else r
  }

  /** The body of the animation operations: `{images: [...], usage}`. */
  datatype ImagesResponse = ImagesResponse(images: seq<ImageData>, usage: Usd)
  {
    function ToValue(): Value {
      Obj(map["images" := Arr(ImageValues(images)), "usage" := usage.ToValue()])
    }
  }

  const ImagesResponseSchema: Schema :=
    ObjectSchema(map["images" := ArraySchema(ResponseImageSchema), "usage" := UsdSchema])

  function ParseImagesResponse(v: Value): (r: Parsed<ImagesResponse>)
    ensures r.Success? <==> Admits(ImagesResponseSchema, v)
    ensures r.Success? ==> r.value.ToValue() == Output(ImagesResponseSchema, v)
  {
    TwoFields("images", ArraySchema(ResponseImageSchema), "usage", UsdSchema, v);
    if !IsObject(v) then Failure(SchemaError)
    else
      var images :- ParseImageList(Get(v, "images"));
      var usage :- ParseUsd(Get(v, "usage"));
      Success(ImagesResponse(images, usage))
  }

  /** Every image of the list must be valid, and the images keep their order. */
  lemma ImagesResponseInOrder(v: Value)
    requires ParseImagesResponse(v).Success?
    ensures var items := Get(v, "images").items;
      var images := ParseImagesResponse(v).value.images;
      Get(v, "images").Arr? && |images| == |items| &&
      forall i :: 0 <= i < |items| ==> ParseResponseImage(items[i]) == Success(images[i])
  {
  }

  /** The body of `estimateSkeleton`: `{keypoints: [...], usage}`. */
  datatype SkeletonResponse = SkeletonResponse(keypoints: seq<Keypoint>, usage: Usd)
  {
    function ToValue(): Value {
      Obj(map["keypoints" := Arr(KeypointValues(keypoints)), "usage" := usage.ToValue()])
    }
  }

  const SkeletonResponseSchema: Schema := ObjectSchema(map["keypoints" := KeypointListSchema, "usage" := UsdSchema])

  function ParseSkeletonResponse(v: Value): (r: Parsed<SkeletonResponse>)
    ensures r.Success? <==> Admits(SkeletonResponseSchema, v)
    ensures r.Success? ==> r.value.ToValue() == Output(SkeletonResponseSchema, v)
  {
    TwoFields("keypoints", KeypointListSchema, "usage", UsdSchema, v);
    if !IsObject(v) then Failure(SchemaError)
    else
      var keypoints :- ParseKeypoints(Get(v, "keypoints"));
      var usage :- ParseUsd(Get(v, "usage"));
      Success(SkeletonResponse(keypoints, usage))
  }

  /** Every keypoint must be valid (a listed label), their order is kept and absent `zIndex` values become 0. */
  lemma SkeletonResponseAccepted(v: Value)
    requires ParseSkeletonResponse(v).Success?
    ensures var items := Get(v, "keypoints").items;
      var ks := ParseSkeletonResponse(v).value.keypoints;
      Get(v, "keypoints").Arr? && |ks| == |items| &&
      forall i :: 0 <= i < |items| ==> ParseKeypoint(items[i]) == Success(ks[i])
  {
    var ks := ParseKeypoints(Get(v, "keypoints"));
    assert ks.Success?;
  }

  /** What the single-image operations return: the image rebuilt with `fromData`, and the usage. */
  datatype ImageResult = ImageResult(image: Base64Image, usage: Usd)

  function ImageResultOf(r: ImageResponse): (res: ImageResult)
    ensures res.image.ToJson() == r.image && res.usage == r.usage
  {
    ImageResult(FromData(r.image), r.usage)
  }

  /** What the animation operations return: each image rebuilt with `fromData`, in order, and the usage. */
  datatype ImagesResult = ImagesResult(images: seq<Base64Image>, usage: Usd)

  function ImagesResultOf(r: ImagesResponse): (res: ImagesResult)
    ensures |res.images| == |r.images| && res.usage == r.usage
    ensures forall i :: 0 <= i < |r.images| ==> res.images[i].ToJson() == r.images[i]
  {
    ImagesResult(seq(|r.images|, i requires 0 <= i < |r.images| => FromData(r.images[i])), r.usage)
  }

  /** A single-image body read into what the operation returns. */
  function ParseImageResult(v: Value): (r: Parsed<ImageResult>)
    ensures r.Success? <==> Admits(ImageResponseSchema, v)
    ensures r.Success? ==> r.value == ImageResultOf(ParseImageResponse(v).value)
  {
    var resp :- ParseImageResponse(v);
    Success(ImageResultOf(resp))
  }

  /** An animation body read into what the operation returns. */
  function ParseImagesResult(v: Value): (r: Parsed<ImagesResult>)
    ensures r.Success? <==> Admits(ImagesResponseSchema, v)
    ensures r.Success? ==> r.value == ImagesResultOf(ParseImagesResponse(v).value)
  {
    var resp :- ParseImagesResponse(v);
    Success(ImagesResultOf(resp))
  }
}
