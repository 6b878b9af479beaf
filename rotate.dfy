/** `rotate`: redraw an image from another view or direction. */
module Rotate {
  import opened Wrappers
  import opened JsValue
  import opened Zod
  import opened Types
  import opened ImageSizes
  import opened Base64Images
  import opened Errors
  import opened Client
  import opened Pipeline
  import opened Responses
  import opened RequestBody

  const Path: string := "/rotate"

  /** The validated parameters: defaults filled in, absent options `None`. */
  datatype Params = Params(
    imageSize: ImageSize,
    fromImage: Base64Image,
    fromView: Option<CameraView>,
    toView: Option<CameraView>,
    fromDirection: Option<Direction>,
    toDirection: Option<Direction>,
    viewChange: Option<real>,
    directionChange: Option<real>,
    imageGuidanceScale: real,
    isometric: bool,
    obliqueProjection: bool,
    initImage: Option<Base64Image>,
    initImageStrength: real,
    maskImage: Option<Base64Image>,
    colorImage: Option<Base64Image>,
    seed: real)
  {
    /** Every bound of the schema holds, both ends included. */
    predicate Valid() {
      imageSize.InBounds() &&
      1.0 <= imageGuidanceScale <= 20.0 && 0.0 <= initImageStrength <= 1000.0
    }
  }

  /**
   * The parameters object `v` gives the validated parameters `p`: every
   * field of `v` holds the one of `p`, a defaulted field being absent exactly
   * when `p` holds the default in its place; other keys are ignored.
   */
  predicate Gives(v: Value, p: Params) {
    v.Obj? &&
    ParseImageSize(Get(v, "imageSize")) == Success(p.imageSize) &&
    Get(v, "fromImage") == p.fromImage.AsValue() &&
    Get(v, "fromView") == OptCameraView(p.fromView) &&
    Get(v, "toView") == OptCameraView(p.toView) &&
    Get(v, "fromDirection") == OptDirection(p.fromDirection) &&
    Get(v, "toDirection") == OptDirection(p.toDirection) &&
    Get(v, "viewChange") == OptNum(p.viewChange) &&
    Get(v, "directionChange") == OptNum(p.directionChange) &&
    Provided(Get(v, "imageGuidanceScale"), Num(3.0)) == Num(p.imageGuidanceScale) &&
    Provided(Get(v, "isometric"), Bool(false)) == Bool(p.isometric) &&
    Provided(Get(v, "obliqueProjection"), Bool(false)) == Bool(p.obliqueProjection) &&
    Get(v, "initImage") == OptInstance(p.initImage) &&
    Provided(Get(v, "initImageStrength"), Num(300.0)) == Num(p.initImageStrength) &&
    Get(v, "maskImage") == OptInstance(p.maskImage) &&
    Get(v, "colorImage") == OptInstance(p.colorImage) &&
    Provided(Get(v, "seed"), Num(0.0)) == Num(p.seed)
  }

  /** `RotateParamsSchema.parse(params)`. */
  function Validate(v: Value): (r: Parsed<Params>)
    ensures r.Success? ==> r.value.Valid()
  {
    var imageSize := ParseImageSize(Get(v, "imageSize"));
    var fromImage := Instance(Get(v, "fromImage"));
    var fromView := OptionalCameraView(Get(v, "fromView"));
    var toView := OptionalCameraView(Get(v, "toView"));
    var fromDirection := OptionalDirection(Get(v, "fromDirection"));
    var toDirection := OptionalDirection(Get(v, "toDirection"));
    var viewChange := OptionalNumber(Get(v, "viewChange"), None, None);
    var directionChange := OptionalNumber(Get(v, "directionChange"), None, None);
    var imageGuidanceScale := NumberOr(Get(v, "imageGuidanceScale"), Some(1.0), Some(20.0), 3.0);
    var isometric := BooleanOr(Get(v, "isometric"), false);
    var obliqueProjection := BooleanOr(Get(v, "obliqueProjection"), false);
    var initImage := OptionalInstance(Get(v, "initImage"));
    var initImageStrength := NumberOr(Get(v, "initImageStrength"), Some(0.0), Some(1000.0), 300.0);
    var maskImage := OptionalInstance(Get(v, "maskImage"));
    var colorImage := OptionalInstance(Get(v, "colorImage"));
    var seed := NumberOr(Get(v, "seed"), None, None, 0.0);
    if IsObject(v) && imageSize.Success? && fromImage.Success? && fromView.Success? && toView.Success? &&
       fromDirection.Success? && toDirection.Success? && viewChange.Success? && directionChange.Success? &&
       imageGuidanceScale.Success? && isometric.Success? && obliqueProjection.Success? && initImage.Success? &&
       initImageStrength.Success? && maskImage.Success? && colorImage.Success? && seed.Success?
    then
      Success(Params(imageSize.value, fromImage.value, fromView.value, toView.value, fromDirection.value,
                     toDirection.value, viewChange.value, directionChange.value, imageGuidanceScale.value,
                     isometric.value, obliqueProjection.value, initImage.value, initImageStrength.value,
                     maskImage.value, colorImage.value, seed.value))
    else Failure(SchemaError)
  }

  /** Whatever is accepted is read field by field, defaults filled in. */
  lemma Read(v: Value)
    requires Validate(v).Success?
    ensures Gives(v, Validate(v).value)
  {
  }

  /** An object giving parameters within their bounds is accepted and read into exactly those parameters. */
  lemma Accepted(v: Value, p: Params)
    requires Gives(v, p) && p.Valid()
    ensures Validate(v) == Success(p)
  {
    NumbersRead(v, p);
    ChoicesRead(v, p);
    ImagesRead(v, p);
  }

  /** The size and the numeric fields are read as given, defaults filled in; the two changes have no bounds. */
  lemma NumbersRead(v: Value, p: Params)
    requires Gives(v, p) && p.Valid()
    ensures ParseImageSize(Get(v, "imageSize")) == Success(p.imageSize)
    ensures OptionalNumber(Get(v, "viewChange"), None, None) == Success(p.viewChange)
    ensures OptionalNumber(Get(v, "directionChange"), None, None) == Success(p.directionChange)
    ensures NumberOr(Get(v, "imageGuidanceScale"), Some(1.0), Some(20.0), 3.0) == Success(p.imageGuidanceScale)
    ensures NumberOr(Get(v, "initImageStrength"), Some(0.0), Some(1000.0), 300.0) == Success(p.initImageStrength)
    ensures NumberOr(Get(v, "seed"), None, None, 0.0) == Success(p.seed)
  {
    OptionalNumberRoundTrip(Get(v, "viewChange"), None, None, p.viewChange);
    OptionalNumberRoundTrip(Get(v, "directionChange"), None, None, p.directionChange);
    NumberOrRoundTrip(Get(v, "imageGuidanceScale"), Some(1.0), Some(20.0), 3.0, p.imageGuidanceScale);
    NumberOrRoundTrip(Get(v, "initImageStrength"), Some(0.0), Some(1000.0), 300.0, p.initImageStrength);
    NumberOrRoundTrip(Get(v, "seed"), None, None, 0.0, p.seed);
  }

  /** The views, directions and flags are read as given, defaults filled in. */
  lemma ChoicesRead(v: Value, p: Params)
    requires Gives(v, p) && p.Valid()
    ensures OptionalCameraView(Get(v, "fromView")) == Success(p.fromView)
    ensures OptionalCameraView(Get(v, "toView")) == Success(p.toView)
    ensures OptionalDirection(Get(v, "fromDirection")) == Success(p.fromDirection)
    ensures OptionalDirection(Get(v, "toDirection")) == Success(p.toDirection)
    ensures BooleanOr(Get(v, "isometric"), false) == Success(p.isometric)
    ensures BooleanOr(Get(v, "obliqueProjection"), false) == Success(p.obliqueProjection)
  {
    OptionalCameraViewRoundTrip(p.fromView);
    OptionalCameraViewRoundTrip(p.toView);
    OptionalDirectionRoundTrip(p.fromDirection);
    OptionalDirectionRoundTrip(p.toDirection);
    BooleanOrRoundTrip(Get(v, "isometric"), false, p.isometric);
    BooleanOrRoundTrip(Get(v, "obliqueProjection"), false, p.obliqueProjection);
  }

  /** The images are read as given, absent optional ones as absent. */
  lemma ImagesRead(v: Value, p: Params)
    requires Gives(v, p) && p.Valid()
    ensures Instance(Get(v, "fromImage")) == Success(p.fromImage)
    ensures OptionalInstance(Get(v, "initImage")) == Success(p.initImage)
    ensures OptionalInstance(Get(v, "maskImage")) == Success(p.maskImage)
    ensures OptionalInstance(Get(v, "colorImage")) == Success(p.colorImage)
  {
    InstanceRoundTrip(p.fromImage);
    OptionalInstanceRoundTrip(p.initImage);
    OptionalInstanceRoundTrip(p.maskImage);
    OptionalInstanceRoundTrip(p.colorImage);
  }

  /**
   * The keys of the `requestData` literal, in source order: every field under
   * its snake_case name (listed eight at a time).
   */
  const Keys: seq<string> := Keys0 + Keys1
  const Keys0: seq<string> := [
    "image_size", "image_guidance_scale", "from_view", "to_view", "from_direction", "to_direction",
    "view_change", "direction_change"
  ]
  const Keys1: seq<string> := [
    "isometric", "oblique_projection", "init_image", "init_image_strength", "mask_image", "from_image",
    "color_image", "seed"
  ]

  /** The values of the `requestData` literal, listed with their keys. */
  function Values(p: Params): (vs: seq<Value>)
    ensures |vs| == |Keys|
  {
    Values0(p) + Values1(p)
  }

  /** The values listed with `Keys0`. */
  function Values0(p: Params): (vs: seq<Value>)
    ensures |vs| == |Keys0|
  {
    [
      p.imageSize.ToValue(),
      Num(p.imageGuidanceScale),
      OptCameraView(p.fromView),
      OptCameraView(p.toView),
      OptDirection(p.fromDirection),
      OptDirection(p.toDirection),
      OptNum(p.viewChange),
      OptNum(p.directionChange)
    ]
  }

  /** The values listed with `Keys1`. */
  function Values1(p: Params): (vs: seq<Value>)
    ensures |vs| == |Keys1|
  {
    [
      Bool(p.isometric),
      Bool(p.obliqueProjection),
      DumpOrNull(p.initImage),
      Num(p.initImageStrength),
      DumpOrNull(p.maskImage),
      Dump(p.fromImage),
      DumpOrNull(p.colorImage),
      Num(p.seed)
    ]
  }

  /** `requestData`: an object with exactly the listed keys. */
  function RequestData(p: Params): (r: Value)
    ensures r.Obj? && r.props.Keys == set i | 0 <= i < |Keys| :: Keys[i]
  {
    ObjectOfKeys(Keys, Values(p));
    Obj(ObjectOf(Keys, Values(p)))
  }

  /**
   * The JSON object sent: `JSON.stringify(requestData)`, which keeps exactly
   * the keys whose value is not `undefined`.
   */
  function Body(p: Params): (r: map<string, Value>)
    ensures forall k :: k in r <==> k in RequestData(p).props && RequestData(p).props[k] != Undefined
  {
    Stringify(RequestData(p)).props
  }

  /** The rename is one-to-one: no snake_case key is used for two fields. */
  lemma KeysDistinct()
    ensures Distinct(Keys)
  {
  }

  /** The key `k` listed at position `i` with the value `x` is in the body as `x`, unless `x` is `undefined`. */
  lemma SentAt(p: Params, i: nat, k: string, x: Value)
    requires i < |Keys| && Keys[i] == k && Values(p)[i] == x && (x == Undefined || IsJson(x))
    ensures k in Body(p) <==> x != Undefined
    ensures x != Undefined ==> Body(p)[k] == x
  {
    KeysDistinct();
    Sent(Keys, Values(p), i, k, x);
  }

  /** The body has no key other than the sixteen snake_case names. */
  lemma Renamed(p: Params)
    ensures Body(p).Keys <= set i | 0 <= i < |Keys| :: Keys[i]
  {
    SentKeys(Keys, Values(p));
  }

  /** The size is always sent under `image_size`, as the validated `{width, height}`. */
  lemma ImageSizeSent(p: Params)
    ensures "image_size" in Body(p) && Body(p)["image_size"] == p.imageSize.ToValue()
  {
    SentAt(p, 0, "image_size", p.imageSize.ToValue());
  }

  /** The image guidance scale, 3 by default, is always sent under `image_guidance_scale`. */
  lemma ImageGuidanceScaleSent(p: Params)
    ensures "image_guidance_scale" in Body(p) && Body(p)["image_guidance_scale"] == Num(p.imageGuidanceScale)
  {
    SentAt(p, 1, "image_guidance_scale", Num(p.imageGuidanceScale));
  }

  /** `from_view` is left out of the body when absent, and sent as its literal otherwise. */
  lemma FromViewSent(p: Params)
    ensures "from_view" in Body(p) <==> p.fromView.Some?
    ensures p.fromView.Some? ==> Body(p)["from_view"] == Str(p.fromView.value.Name())
  {
    SentAt(p, 2, "from_view", OptCameraView(p.fromView));
  }

  /** `to_view` is left out of the body when absent, and sent as its literal otherwise. */
  lemma ToViewSent(p: Params)
    ensures "to_view" in Body(p) <==> p.toView.Some?
    ensures p.toView.Some? ==> Body(p)["to_view"] == Str(p.toView.value.Name())
  {
    SentAt(p, 3, "to_view", OptCameraView(p.toView));
  }

  /** `from_direction` is left out of the body when absent, and sent as its literal otherwise. */
  lemma FromDirectionSent(p: Params)
    ensures "from_direction" in Body(p) <==> p.fromDirection.Some?
    ensures p.fromDirection.Some? ==> Body(p)["from_direction"] == Str(p.fromDirection.value.Name())
  {
    SentAt(p, 4, "from_direction", OptDirection(p.fromDirection));
  }

  /** `to_direction` is left out of the body when absent, and sent as its literal otherwise. */
  lemma ToDirectionSent(p: Params)
    ensures "to_direction" in Body(p) <==> p.toDirection.Some?
    ensures p.toDirection.Some? ==> Body(p)["to_direction"] == Str(p.toDirection.value.Name())
  {
    SentAt(p, 5, "to_direction", OptDirection(p.toDirection));
  }

  /** `view_change` is left out of the body when absent, and sent as given otherwise. */
  lemma ViewChangeSent(p: Params)
    ensures "view_change" in Body(p) <==> p.viewChange.Some?
    ensures p.viewChange.Some? ==> Body(p)["view_change"] == Num(p.viewChange.value)
  {
    SentAt(p, 6, "view_change", OptNum(p.viewChange));
  }

  /** `direction_change` is left out of the body when absent, and sent as given otherwise. */
  lemma DirectionChangeSent(p: Params)
    ensures "direction_change" in Body(p) <==> p.directionChange.Some?
    ensures p.directionChange.Some? ==> Body(p)["direction_change"] == Num(p.directionChange.value)
  {
    SentAt(p, 7, "direction_change", OptNum(p.directionChange));
  }

  /** The isometric flag, false by default, is always sent under `isometric`. */
  lemma IsometricSent(p: Params)
    ensures "isometric" in Body(p) && Body(p)["isometric"] == Bool(p.isometric)
  {
    SentAt(p, 8, "isometric", Bool(p.isometric));
  }

  /** The oblique projection flag, false by default, is always sent under `oblique_projection`. */
  lemma ObliqueProjectionSent(p: Params)
    ensures "oblique_projection" in Body(p) && Body(p)["oblique_projection"] == Bool(p.obliqueProjection)
  {
    SentAt(p, 9, "oblique_projection", Bool(p.obliqueProjection));
  }

  /** An absent init image is sent as `null`, a present one as its wire form. */
  lemma InitImageSent(p: Params)
    ensures "init_image" in Body(p)
    ensures p.initImage.None? ==> Body(p)["init_image"] == Null
    ensures p.initImage.Some? ==> Body(p)["init_image"] == ImageJson(p.initImage.value.base64, p.initImage.value.format)
  {
    SentAt(p, 10, "init_image", DumpOrNull(p.initImage));
  }

  /** The init image strength, 300 by default, is always sent under `init_image_strength`. */
  lemma InitImageStrengthSent(p: Params)
    ensures "init_image_strength" in Body(p) && Body(p)["init_image_strength"] == Num(p.initImageStrength)
  {
    SentAt(p, 11, "init_image_strength", Num(p.initImageStrength));
  }

  /** An absent mask image is sent as `null`, a present one as its wire form. */
  lemma MaskImageSent(p: Params)
    ensures "mask_image" in Body(p)
    ensures p.maskImage.None? ==> Body(p)["mask_image"] == Null
    ensures p.maskImage.Some? ==> Body(p)["mask_image"] == ImageJson(p.maskImage.value.base64, p.maskImage.value.format)
  {
    SentAt(p, 12, "mask_image", DumpOrNull(p.maskImage));
  }

  /** The image to rotate is always sent under `from_image`, as its wire form and never `null`. */
  lemma FromImageSent(p: Params)
    ensures "from_image" in Body(p) && Body(p)["from_image"] == ImageJson(p.fromImage.base64, p.fromImage.format)
  {
    SentAt(p, 13, "from_image", Dump(p.fromImage));
  }

  /** An absent color image is sent as `null`, a present one as its wire form. */
  lemma ColorImageSent(p: Params)
    ensures "color_image" in Body(p)
    ensures p.colorImage.None? ==> Body(p)["color_image"] == Null
    ensures p.colorImage.Some? ==> Body(p)["color_image"] == ImageJson(p.colorImage.value.base64, p.colorImage.value.format)
  {
    SentAt(p, 14, "color_image", DumpOrNull(p.colorImage));
  }

  /** The seed, 0 by default, is always sent under `seed`. */
  lemma SeedSent(p: Params)
    ensures "seed" in Body(p) && Body(p)["seed"] == Num(p.seed)
  {
    SentAt(p, 15, "seed", Num(p.seed));
  }


  /**
   * `client.rotate(params)`: invalid parameters throw the raw
   * `ZodError` and nothing is sent; otherwise the body is posted to the
   * operation's path and the answer read as `{image, usage}`, the image rebuilt with `fromData`.
   */
  function Rotate(client: PixelLabClient, params: Value, exchange: Exchange): (c: Call<ImageResult>)
    ensures c.sent.None? <==> Validate(params).Failure?
    ensures c.sent.None? ==> c.outcome == Failure(ZodError)
    ensures c.sent.Some? ==>
      c.sent.value.verb == POST && c.sent.value.url == client.Url(Path) &&
      c.sent.value.body == Some(Obj(Body(Validate(params).value)))
    ensures c.sent.Some? ==> c.outcome == Receive(exchange, ParseImageResult)
  {
    PostCall(client, Path, Validate, RequestData, ParseImageResult, params, exchange)
  }

  /** Parameters without the image to rotate throw the raw `ZodError` before any request is made. */
  lemma FromImageRequired(client: PixelLabClient, params: Value, exchange: Exchange)
    requires Get(params, "fromImage") == Undefined
    ensures Rotate(client, params, exchange) == Call(None, Failure(ZodError))
  {
    assert Instance(Get(params, "fromImage")).Failure?;
    assert Validate(params).Failure? by {
      if Validate(params).Success? {
        Read(params);
      }
    }
  }

  /** Parameters without a size throw the raw `ZodError` before any request is made. */
  lemma ImageSizeRequired(client: PixelLabClient, params: Value, exchange: Exchange)
    requires Get(params, "imageSize") == Undefined
    ensures Rotate(client, params, exchange) == Call(None, Failure(ZodError))
  {
    assert ParseImageSize(Get(params, "imageSize")).Failure?;
    assert Validate(params).Failure? by {
      if Validate(params).Success? {
        Read(params);
      }
    }
  }

  /**
   * Parameters turning a 64x64 image from the side to the south, with a view
   * change of -720 and a direction change of 100000: the changes have no
   * bounds.
   */
  function TestParams(img: Base64Image): Value {
    Obj(map[
      "imageSize" := ImageSize(64.0, 64.0).ToValue(),
      "fromImage" := img.AsValue(),
      "fromView" := Str("side"),
      "toDirection" := Str("south"),
      "viewChange" := Num(-720.0),
      "directionChange" := Num(100000.0)
    ])
  }

  /** What validation makes of them: every other field takes its default or stays unset. */
  function TestValidated(img: Base64Image): Params {
    Params(ImageSize(64.0, 64.0), img, Some(CameraView.Side), None, None, Some(Direction.South), Some(-720.0), Some(100000.0),
           3.0, false, false, None, 300.0, None, None, 0.0)
  }

  /** They are accepted as given, with the defaults filled in. */
  lemma TestParamsAccepted(img: Base64Image)
    ensures Validate(TestParams(img)) == Success(TestValidated(img))
  {
    TestParamsGive(img);
    Accepted(TestParams(img), TestValidated(img));
  }

  /** Field by field, the test parameters give the validated ones. */
  lemma TestParamsGive(img: Base64Image)
    ensures Gives(TestParams(img), TestValidated(img))
  {
    TestFieldsGiven0(img);
    TestFieldsGiven1(img);
    TestDefaultsTaken0(img);
    TestDefaultsTaken1(img);
  }

  /** The fields the test gives are read as given. */
  lemma TestFieldsGiven0(img: Base64Image)
    ensures var v, p := TestParams(img), TestValidated(img);
      ParseImageSize(Get(v, "imageSize")) == Success(p.imageSize) &&
      Get(v, "fromImage") == p.fromImage.AsValue() &&
      Get(v, "fromView") == OptCameraView(p.fromView) &&
      Get(v, "toDirection") == OptDirection(p.toDirection)
  {
    ImageSizeRoundTrip(ImageSize(64.0, 64.0));
  }

  /** The fields the test gives are read as given. */
  lemma TestFieldsGiven1(img: Base64Image)
    ensures var v, p := TestParams(img), TestValidated(img);
      Get(v, "viewChange") == OptNum(p.viewChange) &&
      Get(v, "directionChange") == OptNum(p.directionChange)
  {
  }

  /** The fields the test leaves out take their defaults or stay unset. */
  lemma TestDefaultsTaken0(img: Base64Image)
    ensures var v, p := TestParams(img), TestValidated(img);
      Get(v, "toView") == OptCameraView(p.toView) &&
      Get(v, "fromDirection") == OptDirection(p.fromDirection) &&
      Provided(Get(v, "imageGuidanceScale"), Num(3.0)) == Num(p.imageGuidanceScale) &&
      Provided(Get(v, "isometric"), Bool(false)) == Bool(p.isometric) &&
      Provided(Get(v, "obliqueProjection"), Bool(false)) == Bool(p.obliqueProjection)
  {
    // A left-out key as long as a given one differs from it at the character shown.
    assert "isometric"[1] != "imageSize"[1];
    assert "isometric"[0] != "fromImage"[0];
  }

  /** The fields the test leaves out take their defaults or stay unset. */
  lemma TestDefaultsTaken1(img: Base64Image)
    ensures var v, p := TestParams(img), TestValidated(img);
      Get(v, "initImage") == OptInstance(p.initImage) &&
      Provided(Get(v, "initImageStrength"), Num(300.0)) == Num(p.initImageStrength) &&
      Get(v, "maskImage") == OptInstance(p.maskImage) &&
      Get(v, "colorImage") == OptInstance(p.colorImage) &&
      Provided(Get(v, "seed"), Num(0.0)) == Num(p.seed)
  {
    // A left-out key as long as a given one differs from it at the character shown.
    assert "initImage"[1] != "imageSize"[1];
    assert "initImage"[0] != "fromImage"[0];
    assert "maskImage"[0] != "imageSize"[0];
    assert "maskImage"[0] != "fromImage"[0];
    assert "colorImage"[0] != "viewChange"[0];
  }

  /**
   * Their body: the given view, direction and changes passed through, the
   * unset ones left out, the image to rotate as its wire form and the
   * absent images as `null`.
   */
  lemma TestBody(img: Base64Image)
    ensures var b := Body(TestValidated(img));
      "from_view" in b && b["from_view"] == Str("side") &&
      "to_direction" in b && b["to_direction"] == Str("south") &&
      "view_change" in b && b["view_change"] == Num(-720.0) &&
      "direction_change" in b && b["direction_change"] == Num(100000.0) &&
      "to_view" !in b && "from_direction" !in b &&
      "from_image" in b && b["from_image"] == ImageJson(img.base64, img.format) &&
      "init_image" in b && b["init_image"] == Null &&
      "mask_image" in b && b["mask_image"] == Null &&
      "color_image" in b && b["color_image"] == Null
  {
    var p := TestValidated(img);
    FromViewSent(p);
    ToDirectionSent(p);
    ViewChangeSent(p);
    DirectionChangeSent(p);
    ToViewSent(p);
    FromDirectionSent(p);
    FromImageSent(p);
    InitImageSent(p);
    MaskImageSent(p);
    ColorImageSent(p);
  }
}
