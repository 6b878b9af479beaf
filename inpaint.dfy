/** `inpaint`: repaint the masked part of an image from a description. */
module Inpaint {
  import opened Wrappers
  import opened JsValue
  import opened Zod
  import opened Types
  import opened ImageSizes
  import opened Base64Images
  import opened Errors
  import opened Client
  import opened Pipeline
  import opened Responses
  import opened RequestBody

  const Path: string := "/inpaint"

  /** The validated parameters: defaults filled in, absent options `None`. */
  datatype Params = Params(
    description: string,
    imageSize: ImageSize,
    inpaintingImage: Base64Image,
    maskImage: Base64Image,
    negativeDescription: string,
    textGuidanceScale: real,
    extraGuidanceScale: real,
    outline: Option<Outline>,
    shading: Option<Shading>,
    detail: Option<Detail>,
    view: Option<CameraView>,
    direction: Option<Direction>,
    isometric: bool,
    obliqueProjection: bool,
    noBackground: bool,
    initImage: Option<Base64Image>,
    initImageStrength: real,
    colorImage: Option<Base64Image>,
    seed: real)
  {
    /** Every bound of the schema holds, both ends included. */
    predicate Valid() {
      1 <= Utf16Length(description) && imageSize.InBounds() &&
      1.0 <= textGuidanceScale <= 20.0 && 0.0 <= extraGuidanceScale <= 20.0 &&
      0.0 <= initImageStrength <= 1000.0
    }
  }

  /**
   * The parameters object `v` gives the validated parameters `p`: every
   * field of `v` holds the one of `p`, a defaulted field being absent exactly
   * when `p` holds the default in its place; other keys are ignored.
   */
  predicate Gives(v: Value, p: Params) {
    v.Obj? &&
    Get(v, "description") == Str(p.description) &&
    ParseImageSize(Get(v, "imageSize")) == Success(p.imageSize) &&
    Get(v, "inpaintingImage") == p.inpaintingImage.AsValue() &&
    Get(v, "maskImage") == p.maskImage.AsValue() &&
    Provided(Get(v, "negativeDescription"), Str("")) == Str(p.negativeDescription) &&
    Provided(Get(v, "textGuidanceScale"), Num(3.0)) == Num(p.textGuidanceScale) &&
    Provided(Get(v, "extraGuidanceScale"), Num(3.0)) == Num(p.extraGuidanceScale) &&
    Get(v, "outline") == OptOutline(p.outline) &&
    Get(v, "shading") == OptShading(p.shading) &&
    Get(v, "detail") == OptDetail(p.detail) &&
    Get(v, "view") == OptCameraView(p.view) &&
    Get(v, "direction") == OptDirection(p.direction) &&
    Provided(Get(v, "isometric"), Bool(false)) == Bool(p.isometric) &&
    Provided(Get(v, "obliqueProjection"), Bool(false)) == Bool(p.obliqueProjection) &&
    Provided(Get(v, "noBackground"), Bool(false)) == Bool(p.noBackground) &&
    Get(v, "initImage") == OptInstance(p.initImage) &&
    Provided(Get(v, "initImageStrength"), Num(300.0)) == Num(p.initImageStrength) &&
    Get(v, "colorImage") == OptInstance(p.colorImage) &&
    Provided(Get(v, "seed"), Num(0.0)) == Num(p.seed)
  }

  /** `InpaintParamsSchema.parse(params)`. */
  function Validate(v: Value): (r: Parsed<Params>)
    ensures r.Success? ==> r.value.Valid()
  {
    var description := Text(Get(v, "description"), 1, None);
    var imageSize := ParseImageSize(Get(v, "imageSize"));
    var inpaintingImage := Instance(Get(v, "inpaintingImage"));
    var maskImage := Instance(Get(v, "maskImage"));
    var negativeDescription := TextOr(Get(v, "negativeDescription"), "");
    var textGuidanceScale := NumberOr(Get(v, "textGuidanceScale"), Some(1.0), Some(20.0), 3.0);
    var extraGuidanceScale := NumberOr(Get(v, "extraGuidanceScale"), Some(0.0), Some(20.0), 3.0);
    var outline := OptionalOutline(Get(v, "outline"));
    var shading := OptionalShading(Get(v, "shading"));
    var detail := OptionalDetail(Get(v, "detail"));
    var view := OptionalCameraView(Get(v, "view"));
    var direction := OptionalDirection(Get(v, "direction"));
    var isometric := BooleanOr(Get(v, "isometric"), false);
    var obliqueProjection := BooleanOr(Get(v, "obliqueProjection"), false);
    var noBackground := BooleanOr(Get(v, "noBackground"), false);
    var initImage := OptionalInstance(Get(v, "initImage"));
    var initImageStrength := NumberOr(Get(v, "initImageStrength"), Some(0.0), Some(1000.0), 300.0);
    var colorImage := OptionalInstance(Get(v, "colorImage"));
    var seed := NumberOr(Get(v, "seed"), None, None, 0.0);
    if IsObject(v) && description.Success? && imageSize.Success? && inpaintingImage.Success? &&
       maskImage.Success? && negativeDescription.Success? && textGuidanceScale.Success? &&
       extraGuidanceScale.Success? && outline.Success? && shading.Success? && detail.Success? &&
       view.Success? && direction.Success? && isometric.Success? && obliqueProjection.Success? &&
       noBackground.Success? && initImage.Success? && initImageStrength.Success? && colorImage.Success? &&
       seed.Success?
    then
      Success(Params(description.value, imageSize.value, inpaintingImage.value, maskImage.value,
                     negativeDescription.value, textGuidanceScale.value, extraGuidanceScale.value,
                     outline.value, shading.value, detail.value, view.value, direction.value, isometric.value,
                     obliqueProjection.value, noBackground.value, initImage.value, initImageStrength.value,
                     colorImage.value, seed.value))
    else Failure(SchemaError)
  }

  /** Whatever is accepted is read field by field, defaults filled in. */
  lemma Read(v: Value)
    requires Validate(v).Success?
    ensures Gives(v, Validate(v).value)
  {
  }

  /** An object giving parameters within their bounds is accepted and read into exactly those parameters. */
  lemma Accepted(v: Value, p: Params)
    requires Gives(v, p) && p.Valid()
    ensures Validate(v) == Success(p)
  {
    TextsRead(v, p);
    NumbersRead(v, p);
    ChoicesRead(v, p);
    ImagesRead(v, p);
  }

  /** The description, the negative description and the size are read as given. */
  lemma TextsRead(v: Value, p: Params)
    requires Gives(v, p) && p.Valid()
    ensures Text(Get(v, "description"), 1, None) == Success(p.description)
    ensures ParseImageSize(Get(v, "imageSize")) == Success(p.imageSize)
    ensures TextOr(Get(v, "negativeDescription"), "") == Success(p.negativeDescription)
  {
    TextRoundTrip(Get(v, "description"), 1, None, p.description);
    TextOrRoundTrip(Get(v, "negativeDescription"), "", p.negativeDescription);
  }

  /** The numeric fields within their bounds are read as given, defaults filled in. */
  lemma NumbersRead(v: Value, p: Params)
    requires Gives(v, p) && p.Valid()
    ensures NumberOr(Get(v, "textGuidanceScale"), Some(1.0), Some(20.0), 3.0) == Success(p.textGuidanceScale)
    ensures NumberOr(Get(v, "extraGuidanceScale"), Some(0.0), Some(20.0), 3.0) == Success(p.extraGuidanceScale)
    ensures NumberOr(Get(v, "initImageStrength"), Some(0.0), Some(1000.0), 300.0) == Success(p.initImageStrength)
    ensures NumberOr(Get(v, "seed"), None, None, 0.0) == Success(p.seed)
  {
    NumberOrRoundTrip(Get(v, "textGuidanceScale"), Some(1.0), Some(20.0), 3.0, p.textGuidanceScale);
    NumberOrRoundTrip(Get(v, "extraGuidanceScale"), Some(0.0), Some(20.0), 3.0, p.extraGuidanceScale);
    NumberOrRoundTrip(Get(v, "initImageStrength"), Some(0.0), Some(1000.0), 300.0, p.initImageStrength);
    NumberOrRoundTrip(Get(v, "seed"), None, None, 0.0, p.seed);
  }

  /** The enums and flags are read as given, defaults filled in. */
  lemma ChoicesRead(v: Value, p: Params)
    requires Gives(v, p) && p.Valid()
    ensures OptionalOutline(Get(v, "outline")) == Success(p.outline)
    ensures OptionalShading(Get(v, "shading")) == Success(p.shading)
    ensures OptionalDetail(Get(v, "detail")) == Success(p.detail)
    ensures OptionalCameraView(Get(v, "view")) == Success(p.view)
    ensures OptionalDirection(Get(v, "direction")) == Success(p.direction)
    ensures BooleanOr(Get(v, "isometric"), false) == Success(p.isometric)
    ensures BooleanOr(Get(v, "obliqueProjection"), false) == Success(p.obliqueProjection)
    ensures BooleanOr(Get(v, "noBackground"), false) == Success(p.noBackground)
  {
    OptionalOutlineRoundTrip(p.outline);
    OptionalShadingRoundTrip(p.shading);
    OptionalDetailRoundTrip(p.detail);
    OptionalCameraViewRoundTrip(p.view);
    OptionalDirectionRoundTrip(p.direction);
    BooleanOrRoundTrip(Get(v, "isometric"), false, p.isometric);
    BooleanOrRoundTrip(Get(v, "obliqueProjection"), false, p.obliqueProjection);
    BooleanOrRoundTrip(Get(v, "noBackground"), false, p.noBackground);
  }

  /** The images are read as given, absent optional ones as absent. */
  lemma ImagesRead(v: Value, p: Params)
    requires Gives(v, p) && p.Valid()
    ensures Instance(Get(v, "inpaintingImage")) == Success(p.inpaintingImage)
    ensures Instance(Get(v, "maskImage")) == Success(p.maskImage)
    ensures OptionalInstance(Get(v, "initImage")) == Success(p.initImage)
    ensures OptionalInstance(Get(v, "colorImage")) == Success(p.colorImage)
  {
    InstanceRoundTrip(p.inpaintingImage);
    InstanceRoundTrip(p.maskImage);
    OptionalInstanceRoundTrip(p.initImage);
    OptionalInstanceRoundTrip(p.colorImage);
  }

  /**
   * The keys of the `requestData` literal, in source order: every field under
   * its snake_case name (listed eight at a time).
   */
  const Keys: seq<string> := Keys0 + Keys1 + Keys2
  const Keys0: seq<string> := [
    "description", "image_size", "negative_description", "text_guidance_scale", "extra_guidance_scale",
    "outline", "shading", "detail"
  ]
  const Keys1: seq<string> := [
    "view", "direction", "isometric", "oblique_projection", "no_background", "init_image",
    "init_image_strength", "inpainting_image"
  ]
  const Keys2: seq<string> := [
    "mask_image", "color_image", "seed"
  ]

  /** The values of the `requestData` literal, listed with their keys. */
  function Values(p: Params): (vs: seq<Value>)
    ensures |vs| == |Keys|
  {
    Values0(p) + Values1(p) + Values2(p)
  }

  /** The values listed with `Keys0`. */
  function Values0(p: Params): (vs: seq<Value>)
    ensures |vs| == |Keys0|
  {
    [
      Str(p.description),
      p.imageSize.ToValue(),
      Str(p.negativeDescription),
      Num(p.textGuidanceScale),
      Num(p.extraGuidanceScale),
      OptOutline(p.outline),
      OptShading(p.shading),
      OptDetail(p.detail)
    ]
  }

  /** The values listed with `Keys1`. */
  function Values1(p: Params): (vs: seq<Value>)
    ensures |vs| == |Keys1|
  {
    [
      OptCameraView(p.view),
      OptDirection(p.direction),
      Bool(p.isometric),
      Bool(p.obliqueProjection),
      Bool(p.noBackground),
      DumpOrNull(p.initImage),
      Num(p.initImageStrength),
      Dump(p.inpaintingImage)
    ]
  }

  /** The values listed with `Keys2`. */
  function Values2(p: Params): (vs: seq<Value>)
    ensures |vs| == |Keys2|
  {
    [
      Dump(p.maskImage),
      DumpOrNull(p.colorImage),
      Num(p.seed)
    ]
  }

  /** `requestData`: an object with exactly the listed keys. */
  function RequestData(p: Params): (r: Value)
    ensures r.Obj? && r.props.Keys == set i | 0 <= i < |Keys| :: Keys[i]
  {
    ObjectOfKeys(Keys, Values(p));
    Obj(ObjectOf(Keys, Values(p)))
  }

  /**
   * The JSON object sent: `JSON.stringify(requestData)`, which keeps exactly
   * the keys whose value is not `undefined`.
   */
  function Body(p: Params): (r: map<string, Value>)
    ensures forall k :: k in r <==> k in RequestData(p).props && RequestData(p).props[k] != Undefined
  {
    Stringify(RequestData(p)).props
  }

  /** The rename is one-to-one: no snake_case key is used for two fields. */
  lemma KeysDistinct()
    ensures Distinct(Keys)
  {
  }

  /** The key `k` listed at position `i` with the value `x` is in the body as `x`, unless `x` is `undefined`. */
  lemma SentAt(p: Params, i: nat, k: string, x: Value)
    requires i < |Keys| && Keys[i] == k && Values(p)[i] == x && (x == Undefined || IsJson(x))
    ensures k in Body(p) <==> x != Undefined
    ensures x != Undefined ==> Body(p)[k] == x
  {
    KeysDistinct();
    Sent(Keys, Values(p), i, k, x);
  }

  /** The body has no key other than the nineteen snake_case names. */
  lemma Renamed(p: Params)
    ensures Body(p).Keys <= set i | 0 <= i < |Keys| :: Keys[i]
  {
    SentKeys(Keys, Values(p));
  }

  /** The description is always sent under `description`. */
  lemma DescriptionSent(p: Params)
    ensures "description" in Body(p) && Body(p)["description"] == Str(p.description)
  {
    SentAt(p, 0, "description", Str(p.description));
  }

  /** The size is always sent under `image_size`, as the validated `{width, height}`. */
  lemma ImageSizeSent(p: Params)
    ensures "image_size" in Body(p) && Body(p)["image_size"] == p.imageSize.ToValue()
  {
    SentAt(p, 1, "image_size", p.imageSize.ToValue());
  }

  /** The negative description, "" by default, is always sent under `negative_description`. */
  lemma NegativeDescriptionSent(p: Params)
    ensures "negative_description" in Body(p) && Body(p)["negative_description"] == Str(p.negativeDescription)
  {
    SentAt(p, 2, "negative_description", Str(p.negativeDescription));
  }

  /** The text guidance scale, 3 by default, is always sent under `text_guidance_scale`. */
  lemma TextGuidanceScaleSent(p: Params)
    ensures "text_guidance_scale" in Body(p) && Body(p)["text_guidance_scale"] == Num(p.textGuidanceScale)
  {
    SentAt(p, 3, "text_guidance_scale", Num(p.textGuidanceScale));
  }

  /** The extra guidance scale, 3 by default, is always sent under `extra_guidance_scale`. */
  lemma ExtraGuidanceScaleSent(p: Params)
    ensures "extra_guidance_scale" in Body(p) && Body(p)["extra_guidance_scale"] == Num(p.extraGuidanceScale)
  {
    SentAt(p, 4, "extra_guidance_scale", Num(p.extraGuidanceScale));
  }

  /** `outline` is left out of the body when absent, and sent as its literal otherwise. */
  lemma OutlineSent(p: Params)
    ensures "outline" in Body(p) <==> p.outline.Some?
    ensures p.outline.Some? ==> Body(p)["outline"] == Str(p.outline.value.Name())
  {
    SentAt(p, 5, "outline", OptOutline(p.outline));
  }

  /** `shading` is left out of the body when absent, and sent as its literal otherwise. */
  lemma ShadingSent(p: Params)
    ensures "shading" in Body(p) <==> p.shading.Some?
    ensures p.shading.Some? ==> Body(p)["shading"] == Str(p.shading.value.Name())
  {
    SentAt(p, 6, "shading", OptShading(p.shading));
  }

  /** `detail` is left out of the body when absent, and sent as its literal otherwise. */
  lemma DetailSent(p: Params)
    ensures "detail" in Body(p) <==> p.detail.Some?
    ensures p.detail.Some? ==> Body(p)["detail"] == Str(p.detail.value.Name())
  {
    SentAt(p, 7, "detail", OptDetail(p.detail));
  }

  /** `view` is left out of the body when absent, and sent as its literal otherwise. */
  lemma ViewSent(p: Params)
    ensures "view" in Body(p) <==> p.view.Some?
    ensures p.view.Some? ==> Body(p)["view"] == Str(p.view.value.Name())
  {
    SentAt(p, 8, "view", OptCameraView(p.view));
  }

  /** `direction` is left out of the body when absent, and sent as its literal otherwise. */
  lemma DirectionSent(p: Params)
    ensures "direction" in Body(p) <==> p.direction.Some?
    ensures p.direction.Some? ==> Body(p)["direction"] == Str(p.direction.value.Name())
  {
    SentAt(p, 9, "direction", OptDirection(p.direction));
  }

  /** The isometric flag, false by default, is always sent under `isometric`. */
  lemma IsometricSent(p: Params)
    ensures "isometric" in Body(p) && Body(p)["isometric"] == Bool(p.isometric)
  {
    SentAt(p, 10, "isometric", Bool(p.isometric));
  }

  /** The oblique projection flag, false by default, is always sent under `oblique_projection`. */
  lemma ObliqueProjectionSent(p: Params)
    ensures "oblique_projection" in Body(p) && Body(p)["oblique_projection"] == Bool(p.obliqueProjection)
  {
    SentAt(p, 11, "oblique_projection", Bool(p.obliqueProjection));
  }

  /** The no-background flag, false by default, is always sent under `no_background`. */
  lemma NoBackgroundSent(p: Params)
    ensures "no_background" in Body(p) && Body(p)["no_background"] == Bool(p.noBackground)
  {
    SentAt(p, 12, "no_background", Bool(p.noBackground));
  }

  /** An absent init image is sent as `null`, a present one as its wire form. */
  lemma InitImageSent(p: Params)
    ensures "init_image" in Body(p)
    ensures p.initImage.None? ==> Body(p)["init_image"] == Null
    ensures p.initImage.Some? ==> Body(p)["init_image"] == ImageJson(p.initImage.value.base64, p.initImage.value.format)
  {
    SentAt(p, 13, "init_image", DumpOrNull(p.initImage));
  }

  /** The init image strength, 300 by default, is always sent under `init_image_strength`. */
  lemma InitImageStrengthSent(p: Params)
    ensures "init_image_strength" in Body(p) && Body(p)["init_image_strength"] == Num(p.initImageStrength)
  {
    SentAt(p, 14, "init_image_strength", Num(p.initImageStrength));
  }

  /** The inpainting image is always sent under `inpainting_image`, as its wire form and never `null`. */
  lemma InpaintingImageSent(p: Params)
    ensures "inpainting_image" in Body(p) && Body(p)["inpainting_image"] == ImageJson(p.inpaintingImage.base64, p.inpaintingImage.format)
  {
    SentAt(p, 15, "inpainting_image", Dump(p.inpaintingImage));
  }

  /** The mask image is always sent under `mask_image`, as its wire form and never `null`. */
  lemma MaskImageSent(p: Params)
    ensures "mask_image" in Body(p) && Body(p)["mask_image"] == ImageJson(p.maskImage.base64, p.maskImage.format)
  {
    SentAt(p, 16, "mask_image", Dump(p.maskImage));
  }

  /** An absent color image is sent as `null`, a present one as its wire form. */
  lemma ColorImageSent(p: Params)
    ensures "color_image" in Body(p)
    ensures p.colorImage.None? ==> Body(p)["color_image"] == Null
    ensures p.colorImage.Some? ==> Body(p)["color_image"] == ImageJson(p.colorImage.value.base64, p.colorImage.value.format)
  {
    SentAt(p, 17, "color_image", DumpOrNull(p.colorImage));
  }

  /** The seed, 0 by default, is always sent under `seed`. */
  lemma SeedSent(p: Params)
    ensures "seed" in Body(p) && Body(p)["seed"] == Num(p.seed)
  {
    SentAt(p, 18, "seed", Num(p.seed));
  }


  /**
   * `client.inpaint(params)`: invalid parameters throw the raw
   * `ZodError` and nothing is sent; otherwise the body is posted to the
   * operation's path and the answer read as `{image, usage}`, the image rebuilt with `fromData`.
   */
  function Inpaint(client: PixelLabClient, params: Value, exchange: Exchange): (c: Call<ImageResult>)
    ensures c.sent.None? <==> Validate(params).Failure?
    ensures c.sent.None? ==> c.outcome == Failure(ZodError)
    ensures c.sent.Some? ==>
      c.sent.value.verb == POST && c.sent.value.url == client.Url(Path) &&
      c.sent.value.body == Some(Obj(Body(Validate(params).value)))
    ensures c.sent.Some? ==> c.outcome == Receive(exchange, ParseImageResult)
  {
    PostCall(client, Path, Validate, RequestData, ParseImageResult, params, exchange)
  }

  /** Parameters without a mask image throw the raw `ZodError` before any request is made. */
  lemma MaskRequired(client: PixelLabClient, params: Value, exchange: Exchange)
    requires Get(params, "maskImage") == Undefined
    ensures Inpaint(client, params, exchange) == Call(None, Failure(ZodError))
  {
    assert Instance(Get(params, "maskImage")).Failure?;
    assert Validate(params).Failure? by {
      if Validate(params).Success? {
        Read(params);
      }
    }
  }

  /** Parameters without an inpainting image throw the raw `ZodError` before any request is made. */
  lemma InpaintingImageRequired(client: PixelLabClient, params: Value, exchange: Exchange)
    requires Get(params, "inpaintingImage") == Undefined
    ensures Inpaint(client, params, exchange) == Call(None, Failure(ZodError))
  {
    assert Instance(Get(params, "inpaintingImage")).Failure?;
    assert Validate(params).Failure? by {
      if Validate(params).Success? {
        Read(params);
      }
    }
  }

  /** An empty description is rejected before any request is made (there is no upper bound on its length). */
  lemma EmptyDescriptionRejected(client: PixelLabClient, params: Value, exchange: Exchange)
    requires Get(params, "description") == Str("")
    ensures Inpaint(client, params, exchange) == Call(None, Failure(ZodError))
  {
    assert Text(Get(params, "description"), 1, None).Failure?;
    assert Validate(params).Failure? by {
      if Validate(params).Success? {
        Read(params);
      }
    }
  }

  /** Parameters giving only the required fields: a 32x32 "sword" with its inpainting and mask images. */
  function TestParams(inpainting: Base64Image, mask: Base64Image): Value {
    Obj(map[
      "description" := Str("sword"),
      "imageSize" := ImageSize(32.0, 32.0).ToValue(),
      "inpaintingImage" := inpainting.AsValue(),
      "maskImage" := mask.AsValue()
    ])
  }

  /** What validation makes of them: every other field takes its default. */
  function TestValidated(inpainting: Base64Image, mask: Base64Image): Params {
    Params("sword", ImageSize(32.0, 32.0), inpainting, mask, "", 3.0, 3.0, None, None, None, None, None,
           false, false, false, None, 300.0, None, 0.0)
  }

  /** The required fields alone are accepted, with the defaults filled in. */
  lemma TestParamsAccepted(inpainting: Base64Image, mask: Base64Image)
    ensures Validate(TestParams(inpainting, mask)) == Success(TestValidated(inpainting, mask))
  {
    TestParamsGive(inpainting, mask);
    Accepted(TestParams(inpainting, mask), TestValidated(inpainting, mask));
  }

  /** Field by field, the test parameters give the validated ones. */
  lemma TestParamsGive(inpainting: Base64Image, mask: Base64Image)
    ensures Gives(TestParams(inpainting, mask), TestValidated(inpainting, mask))
  {
    TestFieldsGiven(inpainting, mask);
    TestDefaultsTaken0(inpainting, mask);
    TestDefaultsTaken1(inpainting, mask);
    TestDefaultsTaken2(inpainting, mask);
  }

  /** The four required fields are read as given. */
  lemma TestFieldsGiven(inpainting: Base64Image, mask: Base64Image)
    ensures var v, p := TestParams(inpainting, mask), TestValidated(inpainting, mask);
      Get(v, "description") == Str(p.description) &&
      ParseImageSize(Get(v, "imageSize")) == Success(p.imageSize) &&
      Get(v, "inpaintingImage") == p.inpaintingImage.AsValue() &&
      Get(v, "maskImage") == p.maskImage.AsValue()
  {
    ImageSizeRoundTrip(ImageSize(32.0, 32.0));
  }

  /** The fields the test leaves out take their defaults or stay unset. */
  lemma TestDefaultsTaken0(inpainting: Base64Image, mask: Base64Image)
    ensures var v, p := TestParams(inpainting, mask), TestValidated(inpainting, mask);
      Provided(Get(v, "negativeDescription"), Str("")) == Str(p.negativeDescription) &&
      Provided(Get(v, "textGuidanceScale"), Num(3.0)) == Num(p.textGuidanceScale) &&
      Provided(Get(v, "extraGuidanceScale"), Num(3.0)) == Num(p.extraGuidanceScale) &&
      Get(v, "outline") == OptOutline(p.outline) &&
      Get(v, "shading") == OptShading(p.shading)
  {
  }

  /** The fields the test leaves out take their defaults or stay unset. */
  lemma TestDefaultsTaken1(inpainting: Base64Image, mask: Base64Image)
    ensures var v, p := TestParams(inpainting, mask), TestValidated(inpainting, mask);
      Get(v, "detail") == OptDetail(p.detail) &&
      Get(v, "view") == OptCameraView(p.view) &&
      Get(v, "direction") == OptDirection(p.direction) &&
      Provided(Get(v, "isometric"), Bool(false)) == Bool(p.isometric) &&
      Provided(Get(v, "obliqueProjection"), Bool(false)) == Bool(p.obliqueProjection)
  {
    // A left-out key as long as a given one differs from it at the character shown.
    assert "direction"[0] != "imageSize"[0];
    assert "direction"[0] != "maskImage"[0];
    assert "isometric"[1] != "imageSize"[1];
    assert "isometric"[0] != "maskImage"[0];
  }

  /** The fields the test leaves out take their defaults or stay unset. */
  lemma TestDefaultsTaken2(inpainting: Base64Image, mask: Base64Image)
    ensures var v, p := TestParams(inpainting, mask), TestValidated(inpainting, mask);
      Provided(Get(v, "noBackground"), Bool(false)) == Bool(p.noBackground) &&
      Get(v, "initImage") == OptInstance(p.initImage) &&
      Provided(Get(v, "initImageStrength"), Num(300.0)) == Num(p.initImageStrength) &&
      Get(v, "colorImage") == OptInstance(p.colorImage) &&
      Provided(Get(v, "seed"), Num(0.0)) == Num(p.seed)
  {
    // A left-out key as long as a given one differs from it at the character shown.
    assert "initImage"[1] != "imageSize"[1];
    assert "initImage"[0] != "maskImage"[0];
  }

  /**
   * Their body: both required images as wire objects, no init or color
   * image, the defaults for the scales, strength and seed, and no enums.
   */
  lemma TestBody(inpainting: Base64Image, mask: Base64Image)
    ensures var b := Body(TestValidated(inpainting, mask));
      "inpainting_image" in b && b["inpainting_image"] == ImageJson(inpainting.base64, inpainting.format) &&
      "mask_image" in b && b["mask_image"] == ImageJson(mask.base64, mask.format) &&
      "init_image" in b && b["init_image"] == Null &&
      "color_image" in b && b["color_image"] == Null &&
      "text_guidance_scale" in b && b["text_guidance_scale"] == Num(3.0) &&
      "extra_guidance_scale" in b && b["extra_guidance_scale"] == Num(3.0) &&
      "init_image_strength" in b && b["init_image_strength"] == Num(300.0) &&
      "seed" in b && b["seed"] == Num(0.0) &&
      "view" !in b && "direction" !in b
  {
    var p := TestValidated(inpainting, mask);
    InpaintingImageSent(p);
    MaskImageSent(p);
    InitImageSent(p);
    ColorImageSent(p);
    TextGuidanceScaleSent(p);
    ExtraGuidanceScaleSent(p);
    InitImageStrengthSent(p);
    SeedSent(p);
    ViewSent(p);
    DirectionSent(p);
  }
}
