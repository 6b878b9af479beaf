/** `generateImagePixflux`: an image from a text description. */
module GenerateImagePixflux {
  import opened Wrappers
  import opened JsValue
  import opened Zod
  import opened Types
  import opened ImageSizes
  import opened Base64Images
  import opened Errors
  import opened Client
  import opened Pipeline
  import opened Responses
  import opened RequestBody

  const Path: string := "/generate-image-pixflux"

  /** The validated parameters: defaults filled in, absent options `None`. */
  datatype Params = Params(
    description: string,
    imageSize: ImageSize,
    negativeDescription: string,
    textGuidanceScale: real,
    outline: Option<Outline>,
    shading: Option<Shading>,
    detail: Option<Detail>,
    view: Option<CameraView>,
    direction: Option<Direction>,
    isometric: bool,
    noBackground: bool,
    coveragePercentage: Option<real>,
    initImage: Option<Base64Image>,
    initImageStrength: real,
    colorImage: Option<Base64Image>,
    seed: real)
  {
    /** Every bound of the schema holds, both ends included. */
    predicate Valid() {
      1 <= Utf16Length(description) <= 1000 && imageSize.InBounds() &&
      1.0 <= textGuidanceScale <= 20.0 &&
      (coveragePercentage.Some? ==> 0.0 <= coveragePercentage.value <= 100.0) &&
      0.0 <= initImageStrength <= 1000.0
    }

  }

  /**
   * The parameters object `v` gives the validated parameters `p`: every
   * field of `v` holds the one of `p`, a defaulted field being absent exactly
   * when `p` holds the default in its place; other keys are ignored.
   */
  predicate Gives(v: Value, p: Params) {
    v.Obj? &&
    Get(v, "description") == Str(p.description) &&
    ParseImageSize(Get(v, "imageSize")) == Success(p.imageSize) &&
    Provided(Get(v, "negativeDescription"), Str("")) == Str(p.negativeDescription) &&
    Provided(Get(v, "textGuidanceScale"), Num(8.0)) == Num(p.textGuidanceScale) &&
    Get(v, "outline") == OptOutline(p.outline) &&
    Get(v, "shading") == OptShading(p.shading) &&
    Get(v, "detail") == OptDetail(p.detail) &&
    Get(v, "view") == OptCameraView(p.view) &&
    Get(v, "direction") == OptDirection(p.direction) &&
    Provided(Get(v, "isometric"), Bool(false)) == Bool(p.isometric) &&
    Provided(Get(v, "noBackground"), Bool(false)) == Bool(p.noBackground) &&
    Get(v, "coveragePercentage") == OptNum(p.coveragePercentage) &&
    Get(v, "initImage") == OptInstance(p.initImage) &&
    Provided(Get(v, "initImageStrength"), Num(300.0)) == Num(p.initImageStrength) &&
    Get(v, "colorImage") == OptInstance(p.colorImage) &&
    Provided(Get(v, "seed"), Num(0.0)) == Num(p.seed)
  }

  /** `GenerateImagePixfluxParamsSchema.parse(params)`. */
  function Validate(v: Value): (r: Parsed<Params>)
    ensures r.Success? ==> r.value.Valid()
  {
    var description := Text(Get(v, "description"), 1, Some(1000));
    var imageSize := ParseImageSize(Get(v, "imageSize"));
    var negativeDescription := TextOr(Get(v, "negativeDescription"), "");
    var textGuidanceScale := NumberOr(Get(v, "textGuidanceScale"), Some(1.0), Some(20.0), 8.0);
    var outline := OptionalOutline(Get(v, "outline"));
    var shading := OptionalShading(Get(v, "shading"));
    var detail := OptionalDetail(Get(v, "detail"));
    var view := OptionalCameraView(Get(v, "view"));
    var direction := OptionalDirection(Get(v, "direction"));
    var isometric := BooleanOr(Get(v, "isometric"), false);
    var noBackground := BooleanOr(Get(v, "noBackground"), false);
    var coveragePercentage := OptionalNumber(Get(v, "coveragePercentage"), Some(0.0), Some(100.0));
    var initImage := OptionalInstance(Get(v, "initImage"));
    var initImageStrength := NumberOr(Get(v, "initImageStrength"), Some(0.0), Some(1000.0), 300.0);
    var colorImage := OptionalInstance(Get(v, "colorImage"));
    var seed := NumberOr(Get(v, "seed"), None, None, 0.0);
    if IsObject(v) && description.Success? && imageSize.Success? && negativeDescription.Success? &&
       textGuidanceScale.Success? && outline.Success? && shading.Success? && detail.Success? &&
       view.Success? && direction.Success? && isometric.Success? && noBackground.Success? &&
       coveragePercentage.Success? && initImage.Success? && initImageStrength.Success? &&
       colorImage.Success? && seed.Success?
    then
      Success(Params(description.value, imageSize.value, negativeDescription.value, textGuidanceScale.value,
                     outline.value, shading.value, detail.value, view.value, direction.value, isometric.value,
                     noBackground.value, coveragePercentage.value, initImage.value, initImageStrength.value,
                     colorImage.value, seed.value))
    else Failure(SchemaError)
  }

  /** Whatever is accepted is read field by field, defaults filled in. */
  lemma Read(v: Value)
    requires Validate(v).Success?
    ensures Gives(v, Validate(v).value)
  {
  }

  /** An object giving parameters within their bounds is accepted and read into exactly those parameters. */
  lemma Accepted(v: Value, p: Params)
    requires Gives(v, p) && p.Valid()
    ensures Validate(v) == Success(p)
  {
    TextsRead(v, p);
    NumbersRead(v, p);
    ChoicesRead(v, p);
  }

  /** The strings and booleans of `p` are read back from `v`. */
  lemma TextsRead(v: Value, p: Params)
    requires Gives(v, p) && p.Valid()
    ensures Text(Get(v, "description"), 1, Some(1000)) == Success(p.description)
    ensures TextOr(Get(v, "negativeDescription"), "") == Success(p.negativeDescription)
    ensures BooleanOr(Get(v, "isometric"), false) == Success(p.isometric)
    ensures BooleanOr(Get(v, "noBackground"), false) == Success(p.noBackground)
  {
    TextRoundTrip(Get(v, "description"), 1, Some(1000), p.description);
    TextOrRoundTrip(Get(v, "negativeDescription"), "", p.negativeDescription);
    BooleanOrRoundTrip(Get(v, "isometric"), false, p.isometric);
    BooleanOrRoundTrip(Get(v, "noBackground"), false, p.noBackground);
  }

  /** The numbers of `p` are read back from `v`. */
  lemma NumbersRead(v: Value, p: Params)
    requires Gives(v, p) && p.Valid()
    ensures NumberOr(Get(v, "textGuidanceScale"), Some(1.0), Some(20.0), 8.0) == Success(p.textGuidanceScale)
    ensures OptionalNumber(Get(v, "coveragePercentage"), Some(0.0), Some(100.0)) == Success(p.coveragePercentage)
    ensures NumberOr(Get(v, "initImageStrength"), Some(0.0), Some(1000.0), 300.0) == Success(p.initImageStrength)
    ensures NumberOr(Get(v, "seed"), None, None, 0.0) == Success(p.seed)
  {
    NumberOrRoundTrip(Get(v, "textGuidanceScale"), Some(1.0), Some(20.0), 8.0, p.textGuidanceScale);
    OptionalNumberRoundTrip(Get(v, "coveragePercentage"), Some(0.0), Some(100.0), p.coveragePercentage);
    NumberOrRoundTrip(Get(v, "initImageStrength"), Some(0.0), Some(1000.0), 300.0, p.initImageStrength);
    NumberOrRoundTrip(Get(v, "seed"), None, None, 0.0, p.seed);
  }

  /** The enum choices and the images of `p` are read back from `v`. */
  lemma ChoicesRead(v: Value, p: Params)
    requires Gives(v, p)
    ensures OptionalOutline(Get(v, "outline")) == Success(p.outline)
    ensures OptionalShading(Get(v, "shading")) == Success(p.shading)
    ensures OptionalDetail(Get(v, "detail")) == Success(p.detail)
    ensures OptionalCameraView(Get(v, "view")) == Success(p.view)
    ensures OptionalDirection(Get(v, "direction")) == Success(p.direction)
    ensures OptionalInstance(Get(v, "initImage")) == Success(p.initImage)
    ensures OptionalInstance(Get(v, "colorImage")) == Success(p.colorImage)
  {
    OptionalOutlineRoundTrip(p.outline);
    OptionalShadingRoundTrip(p.shading);
    OptionalDetailRoundTrip(p.detail);
    OptionalCameraViewRoundTrip(p.view);
    OptionalDirectionRoundTrip(p.direction);
    OptionalInstanceRoundTrip(p.initImage);
    OptionalInstanceRoundTrip(p.colorImage);
  }

  /** The keys of the `requestData` literal, in source order: every field under its snake_case name. */
  const Keys: seq<string> := [
    "description", "image_size", "negative_description", "text_guidance_scale",
    "outline", "shading", "detail", "view", "direction", "isometric", "no_background",
    "coverage_percentage", "init_image", "init_image_strength", "color_image", "seed"
  ]

  /** The values of the `requestData` literal, listed with their keys. */
  function Values(p: Params): (vs: seq<Value>)
    ensures |vs| == |Keys|
  {
    [
      Str(p.description),
      p.imageSize.ToValue(),
      Str(p.negativeDescription),
      Num(p.textGuidanceScale),
      OptOutline(p.outline),
      OptShading(p.shading),
      OptDetail(p.detail),
      OptCameraView(p.view),
      OptDirection(p.direction),
      Bool(p.isometric),
      Bool(p.noBackground),
      OptNum(p.coveragePercentage),
      DumpOrNull(p.initImage),
      Num(p.initImageStrength),
      DumpOrNull(p.colorImage),
      Num(p.seed)
    ]
  }

  /** `requestData`: an object with exactly the listed keys. */
  function RequestData(p: Params): (r: Value)
    ensures r.Obj? && r.props.Keys == set i | 0 <= i < |Keys| :: Keys[i]
  {
    ObjectOfKeys(Keys, Values(p));
    Obj(ObjectOf(Keys, Values(p)))
  }

  /**
   * The JSON object sent: `JSON.stringify(requestData)`, which keeps exactly
   * the keys whose value is not `undefined`.
   */
  function Body(p: Params): (r: map<string, Value>)
    ensures forall k :: k in r <==> k in RequestData(p).props && RequestData(p).props[k] != Undefined
  {
    Stringify(RequestData(p)).props
  }

  /** The rename is one-to-one: no snake_case key is used for two fields. */
  lemma KeysDistinct()
    ensures Distinct(Keys)
  {
  }

  /** The key `k` listed at position `i` with the value `x` is in the body as `x`, unless `x` is `undefined`. */
  lemma SentAt(p: Params, i: nat, k: string, x: Value)
    requires i < |Keys| && Keys[i] == k && Values(p)[i] == x && (x == Undefined || IsJson(x))
    ensures k in Body(p) <==> x != Undefined
    ensures x != Undefined ==> Body(p)[k] == x
  {
    KeysDistinct();
    Sent(Keys, Values(p), i, k, x);
  }

  /** The body has no key other than the sixteen snake_case names. */
  lemma Renamed(p: Params)
    ensures Body(p).Keys <= set i | 0 <= i < |Keys| :: Keys[i]
  {
    SentKeys(Keys, Values(p));
  }

  /** The description is always sent under `description`. */
  lemma DescriptionSent(p: Params)
    ensures "description" in Body(p) && Body(p)["description"] == Str(p.description)
  {
    SentAt(p, 0, "description", Str(p.description));
  }

  /** The size is always sent under `image_size`, as the validated `{width, height}`. */
  lemma ImageSizeSent(p: Params)
    ensures "image_size" in Body(p) && Body(p)["image_size"] == p.imageSize.ToValue()
  {
    SentAt(p, 1, "image_size", p.imageSize.ToValue());
  }

  /** The negative description, "" by default, is always sent under `negative_description`. */
  lemma NegativeDescriptionSent(p: Params)
    ensures "negative_description" in Body(p) && Body(p)["negative_description"] == Str(p.negativeDescription)
  {
    SentAt(p, 2, "negative_description", Str(p.negativeDescription));
  }

  /** The text guidance scale, 8 by default, is always sent under `text_guidance_scale`. */
  lemma TextGuidanceScaleSent(p: Params)
    ensures "text_guidance_scale" in Body(p) && Body(p)["text_guidance_scale"] == Num(p.textGuidanceScale)
  {
    assert Values(p)[3] == Num(p.textGuidanceScale);
    SentAt(p, 3, "text_guidance_scale", Num(p.textGuidanceScale));
  }

  /** `outline` is left out of the body when absent, and sent as its literal otherwise. */
  lemma OutlineSent(p: Params)
    ensures "outline" in Body(p) <==> p.outline.Some?
    ensures p.outline.Some? ==> Body(p)["outline"] == Str(p.outline.value.Name())
  {
    SentAt(p, 4, "outline", OptOutline(p.outline));
  }

  /** `shading` is left out of the body when absent, and sent as its literal otherwise. */
  lemma ShadingSent(p: Params)
    ensures "shading" in Body(p) <==> p.shading.Some?
    ensures p.shading.Some? ==> Body(p)["shading"] == Str(p.shading.value.Name())
  {
    SentAt(p, 5, "shading", OptShading(p.shading));
  }

  /** `detail` is left out of the body when absent, and sent as its literal otherwise. */
  lemma DetailSent(p: Params)
    ensures "detail" in Body(p) <==> p.detail.Some?
    ensures p.detail.Some? ==> Body(p)["detail"] == Str(p.detail.value.Name())
  {
    SentAt(p, 6, "detail", OptDetail(p.detail));
  }

  /** `view` is left out of the body when absent, and sent as its literal otherwise. */
  lemma ViewSent(p: Params)
    ensures "view" in Body(p) <==> p.view.Some?
    ensures p.view.Some? ==> Body(p)["view"] == Str(p.view.value.Name())
  {
    SentAt(p, 7, "view", OptCameraView(p.view));
  }

  /** `direction` is left out of the body when absent, and sent as its literal otherwise. */
  lemma DirectionSent(p: Params)
    ensures "direction" in Body(p) <==> p.direction.Some?
    ensures p.direction.Some? ==> Body(p)["direction"] == Str(p.direction.value.Name())
  {
    SentAt(p, 8, "direction", OptDirection(p.direction));
  }

  /** The isometric flag, false by default, is always sent under `isometric`. */
  lemma IsometricSent(p: Params)
    ensures "isometric" in Body(p) && Body(p)["isometric"] == Bool(p.isometric)
  {
    SentAt(p, 9, "isometric", Bool(p.isometric));
  }

  /** The no-background flag, false by default, is always sent under `no_background`. */
  lemma NoBackgroundSent(p: Params)
    ensures "no_background" in Body(p) && Body(p)["no_background"] == Bool(p.noBackground)
  {
    SentAt(p, 10, "no_background", Bool(p.noBackground));
  }

  /** `coverage_percentage` is left out of the body when absent, and sent as given otherwise. */
  lemma CoveragePercentageSent(p: Params)
    ensures "coverage_percentage" in Body(p) <==> p.coveragePercentage.Some?
    ensures p.coveragePercentage.Some? ==> Body(p)["coverage_percentage"] == Num(p.coveragePercentage.value)
  {
    SentAt(p, 11, "coverage_percentage", OptNum(p.coveragePercentage));
  }

  /** An absent init image is sent as `null`, a present one as its wire form. */
  lemma InitImageSent(p: Params)
    ensures "init_image" in Body(p)
    ensures p.initImage.None? ==> Body(p)["init_image"] == Null
    ensures p.initImage.Some? ==> Body(p)["init_image"] == ImageJson(p.initImage.value.base64, p.initImage.value.format)
  {
    SentAt(p, 12, "init_image", DumpOrNull(p.initImage));
  }

  /** The init image strength, 300 by default, is always sent under `init_image_strength`. */
  lemma InitImageStrengthSent(p: Params)
    ensures "init_image_strength" in Body(p) && Body(p)["init_image_strength"] == Num(p.initImageStrength)
  {
    SentAt(p, 13, "init_image_strength", Num(p.initImageStrength));
  }

  /** An absent color image is sent as `null`, a present one as its wire form. */
  lemma ColorImageSent(p: Params)
    ensures "color_image" in Body(p)
    ensures p.colorImage.None? ==> Body(p)["color_image"] == Null
    ensures p.colorImage.Some? ==> Body(p)["color_image"] == ImageJson(p.colorImage.value.base64, p.colorImage.value.format)
  {
    SentAt(p, 14, "color_image", DumpOrNull(p.colorImage));
  }

  /** The seed, 0 by default, is always sent under `seed`. */
  lemma SeedSent(p: Params)
    ensures "seed" in Body(p) && Body(p)["seed"] == Num(p.seed)
  {
    SentAt(p, 15, "seed", Num(p.seed));
  }


  /**
   * `client.generateImagePixflux(params)`: invalid parameters throw the raw
   * `ZodError` and nothing is sent; otherwise the body is posted to the
   * operation's path and the answer read as `{image, usage}`.
   */
  function GenerateImagePixflux(client: PixelLabClient, params: Value, exchange: Exchange): (c: Call<ImageResult>)
    ensures c.sent.None? <==> Validate(params).Failure?
    ensures c.sent.None? ==> c.outcome == Failure(ZodError)
    ensures c.sent.Some? ==>
      c.sent.value.verb == POST && c.sent.value.url == client.Url(Path) &&
      c.sent.value.body == Some(Obj(Body(Validate(params).value)))
    ensures c.sent.Some? ==> c.outcome == Receive(exchange, ParseImageResult)
  {
    PostCall(client, Path, Validate, RequestData, ParseImageResult, params, exchange)
  }

  /** The parameters of the package's own test: a 64x64 "cute dragon", no background, text guidance 8. */
  const TestParams: Value := Obj(map[
    "description" := Str("cute dragon"),
    "imageSize" := ImageSize(64.0, 64.0).ToValue(),
    "noBackground" := Bool(false),
    "textGuidanceScale" := Num(8.0)
  ])

  /** What validation makes of them: every other field takes its default. */
  const TestValidated: Params :=
    Params("cute dragon", ImageSize(64.0, 64.0), "", 8.0, None, None, None, None, None, false, false, None, None, 300.0, None, 0.0)

  /** The test parameters are accepted, with the defaults filled in. */
  lemma TestParamsAccepted()
    ensures Validate(TestParams) == Success(TestValidated)
  {
    TestParamsGive();
    Accepted(TestParams, TestValidated);
  }

  /** Field by field, the test parameters give the validated ones. */
  lemma TestParamsGive()
    ensures Gives(TestParams, TestValidated)
  {
    TestFieldsGiven();
    TestDefaultsTaken();
  }

  /** The four fields the test gives are read as given. */
  lemma TestFieldsGiven()
    ensures Get(TestParams, "description") == Str("cute dragon")
    ensures ParseImageSize(Get(TestParams, "imageSize")) == Success(ImageSize(64.0, 64.0))
    ensures Provided(Get(TestParams, "textGuidanceScale"), Num(8.0)) == Num(8.0)
    ensures Provided(Get(TestParams, "noBackground"), Bool(false)) == Bool(false)
  {
    ImageSizeRoundTrip(ImageSize(64.0, 64.0));
  }

  /** Every other field is absent, so it takes its default or stays unset. */
  lemma TestDefaultsTaken()
    ensures forall k :: k !in {"description", "imageSize", "noBackground", "textGuidanceScale"} ==>
      Get(TestParams, k) == Undefined
  {
  }

  /** The body of the test request: text guidance 8, no background false, seed 0, an empty negative description, no images. */
  lemma TestBody()
    ensures "text_guidance_scale" in Body(TestValidated) && Body(TestValidated)["text_guidance_scale"] == Num(8.0)
    ensures "no_background" in Body(TestValidated) && Body(TestValidated)["no_background"] == Bool(false)
    ensures "seed" in Body(TestValidated) && Body(TestValidated)["seed"] == Num(0.0)
    ensures "negative_description" in Body(TestValidated) && Body(TestValidated)["negative_description"] == Str("")
    ensures "init_image" in Body(TestValidated) && Body(TestValidated)["init_image"] == Null
    ensures "color_image" in Body(TestValidated) && Body(TestValidated)["color_image"] == Null
    ensures "init_image_strength" in Body(TestValidated) && Body(TestValidated)["init_image_strength"] == Num(300.0)
    ensures "outline" !in Body(TestValidated) && "coverage_percentage" !in Body(TestValidated)
  {
    TextGuidanceScaleSent(TestValidated);
    NoBackgroundSent(TestValidated);
    SeedSent(TestValidated);
    NegativeDescriptionSent(TestValidated);
    InitImageSent(TestValidated);
    ColorImageSent(TestValidated);
    InitImageStrengthSent(TestValidated);
    OutlineSent(TestValidated);
    CoveragePercentageSent(TestValidated);
  }

  /** Parameters whose size is rejected (a width of 0, say) throw the raw `ZodError` before any request is made. */
  lemma BadSizeNotSent(client: PixelLabClient, params: Value, exchange: Exchange)
    requires ParseImageSize(Get(params, "imageSize")).Failure?
    ensures GenerateImagePixflux(client, params, exchange) == Call(None, Failure(ZodError))
  {
  }

  /**
   * The maximum of 1000 counts UTF-16 code units: a description of 600 copies
   * of U+1F600, which lies beyond the Basic Multilingual Plane, is 1200 units
   * long, so it throws the raw `ZodError` and nothing is sent.
   */
  lemma AstralDescriptionNotSent(client: PixelLabClient, params: Value, exchange: Exchange)
    requires Get(params, "description") == Str(seq(600, i => '\U{1F600}'))
    ensures GenerateImagePixflux(client, params, exchange) == Call(None, Failure(ZodError))
  {
    assert Utf16Length(seq(600, i => '\U{1F600}')) == 1200;
    assert Text(Get(params, "description"), 1, Some(1000)).Failure?;
  }
}
