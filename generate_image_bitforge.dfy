/** `generateImageBitforge`: an image from a description, guided by optional style, inpainting, mask and skeleton inputs. */
module GenerateImageBitforge {
  import opened Wrappers
  import opened JsValue
  import opened Zod
  import opened Types
  import opened ImageSizes
  import opened Keypoints
  import opened Base64Images
  import opened Errors
  import opened Client
  import opened Pipeline
  import opened Responses
  import opened RequestBody

  const Path: string := "/generate-image-bitforge"

  /** The validated parameters: defaults filled in, absent options `None`. */
  datatype Params = Params(
    description: string,
    imageSize: ImageSize,
    negativeDescription: string,
    textGuidanceScale: real,
    extraGuidanceScale: real,
    skeletonGuidanceScale: real,
    styleStrength: real,
    noBackground: bool,
    seed: real,
    outline: Option<Outline>,
    shading: Option<Shading>,
    detail: Option<Detail>,
    view: Option<CameraView>,
    direction: Option<Direction>,
    isometric: bool,
    obliqueProjection: bool,
    coveragePercentage: Option<real>,
    initImage: Option<Base64Image>,
    initImageStrength: real,
    styleImage: Option<Base64Image>,
    inpaintingImage: Option<Base64Image>,
    maskImage: Option<Base64Image>,
    skeletonKeypoints: Option<SkeletonFrame>,
    colorImage: Option<Base64Image>)
  {
    /** Every bound of the schema holds, both ends included. */
    predicate Valid() {
      1 <= Utf16Length(description) <= 1000 && imageSize.InBounds() &&
      1.0 <= textGuidanceScale <= 20.0 && 0.0 <= extraGuidanceScale <= 20.0 &&
      0.0 <= skeletonGuidanceScale <= 20.0 && 0.0 <= styleStrength <= 100.0 &&
      (coveragePercentage.Some? ==> 0.0 <= coveragePercentage.value <= 100.0) &&
      0.0 <= initImageStrength <= 1000.0
    }
  }

  /**
   * The parameters object `v` gives the validated parameters `p`: every
   * field of `v` holds the one of `p`, a defaulted field being absent exactly
   * when `p` holds the default in its place; other keys are ignored.
   */
  predicate Gives(v: Value, p: Params) {
    v.Obj? &&
    Get(v, "description") == Str(p.description) &&
    ParseImageSize(Get(v, "imageSize")) == Success(p.imageSize) &&
    Provided(Get(v, "negativeDescription"), Str("")) == Str(p.negativeDescription) &&
    Provided(Get(v, "textGuidanceScale"), Num(3.0)) == Num(p.textGuidanceScale) &&
    Provided(Get(v, "extraGuidanceScale"), Num(3.0)) == Num(p.extraGuidanceScale) &&
    Provided(Get(v, "skeletonGuidanceScale"), Num(1.0)) == Num(p.skeletonGuidanceScale) &&
    Provided(Get(v, "styleStrength"), Num(0.0)) == Num(p.styleStrength) &&
    Provided(Get(v, "noBackground"), Bool(false)) == Bool(p.noBackground) &&
    Provided(Get(v, "seed"), Num(0.0)) == Num(p.seed) &&
    Get(v, "outline") == OptOutline(p.outline) &&
    Get(v, "shading") == OptShading(p.shading) &&
    Get(v, "detail") == OptDetail(p.detail) &&
    Get(v, "view") == OptCameraView(p.view) &&
    Get(v, "direction") == OptDirection(p.direction) &&
    Provided(Get(v, "isometric"), Bool(false)) == Bool(p.isometric) &&
    Provided(Get(v, "obliqueProjection"), Bool(false)) == Bool(p.obliqueProjection) &&
    Get(v, "coveragePercentage") == OptNum(p.coveragePercentage) &&
    Get(v, "initImage") == OptInstance(p.initImage) &&
    Provided(Get(v, "initImageStrength"), Num(300.0)) == Num(p.initImageStrength) &&
    Get(v, "styleImage") == OptInstance(p.styleImage) &&
    Get(v, "inpaintingImage") == OptInstance(p.inpaintingImage) &&
    Get(v, "maskImage") == OptInstance(p.maskImage) &&
    OptionalFrame(Get(v, "skeletonKeypoints")) == Success(p.skeletonKeypoints) &&
    Get(v, "colorImage") == OptInstance(p.colorImage)
  }

  /** `GenerateImageBitforgeParamsSchema.parse(params)`. */
  function Validate(v: Value): (r: Parsed<Params>)
    ensures r.Success? ==> r.value.Valid()
  {
    var description := Text(Get(v, "description"), 1, Some(1000));
    var imageSize := ParseImageSize(Get(v, "imageSize"));
    var negativeDescription := TextOr(Get(v, "negativeDescription"), "");
    var textGuidanceScale := NumberOr(Get(v, "textGuidanceScale"), Some(1.0), Some(20.0), 3.0);
    var extraGuidanceScale := NumberOr(Get(v, "extraGuidanceScale"), Some(0.0), Some(20.0), 3.0);
    var skeletonGuidanceScale := NumberOr(Get(v, "skeletonGuidanceScale"), Some(0.0), Some(20.0), 1.0);
    var styleStrength := NumberOr(Get(v, "styleStrength"), Some(0.0), Some(100.0), 0.0);
    var noBackground := BooleanOr(Get(v, "noBackground"), false);
    var seed := NumberOr(Get(v, "seed"), None, None, 0.0);
    var outline := OptionalOutline(Get(v, "outline"));
    var shading := OptionalShading(Get(v, "shading"));
    var detail := OptionalDetail(Get(v, "detail"));
    var view := OptionalCameraView(Get(v, "view"));
    var direction := OptionalDirection(Get(v, "direction"));
    var isometric := BooleanOr(Get(v, "isometric"), false);
    var obliqueProjection := BooleanOr(Get(v, "obliqueProjection"), false);
    var coveragePercentage := OptionalNumber(Get(v, "coveragePercentage"), Some(0.0), Some(100.0));
    var initImage := OptionalInstance(Get(v, "initImage"));
    var initImageStrength := NumberOr(Get(v, "initImageStrength"), Some(0.0), Some(1000.0), 300.0);
    var styleImage := OptionalInstance(Get(v, "styleImage"));
    var inpaintingImage := OptionalInstance(Get(v, "inpaintingImage"));
    var maskImage := OptionalInstance(Get(v, "maskImage"));
    var skeletonKeypoints := OptionalFrame(Get(v, "skeletonKeypoints"));
    var colorImage := OptionalInstance(Get(v, "colorImage"));
    if IsObject(v) && description.Success? && imageSize.Success? && negativeDescription.Success? &&
       textGuidanceScale.Success? && extraGuidanceScale.Success? && skeletonGuidanceScale.Success? &&
       styleStrength.Success? && noBackground.Success? && seed.Success? && outline.Success? &&
       shading.Success? && detail.Success? && view.Success? && direction.Success? && isometric.Success? &&
       obliqueProjection.Success? && coveragePercentage.Success? && initImage.Success? &&
       initImageStrength.Success? && styleImage.Success? && inpaintingImage.Success? && maskImage.Success? &&
       skeletonKeypoints.Success? && colorImage.Success?
    then
      Success(Params(description.value, imageSize.value, negativeDescription.value, textGuidanceScale.value,
                     extraGuidanceScale.value, skeletonGuidanceScale.value, styleStrength.value,
                     noBackground.value, seed.value, outline.value, shading.value, detail.value, view.value,
                     direction.value, isometric.value, obliqueProjection.value, coveragePercentage.value,
                     initImage.value, initImageStrength.value, styleImage.value, inpaintingImage.value,
                     maskImage.value, skeletonKeypoints.value, colorImage.value))
    else Failure(SchemaError)
  }

  /** Whatever is accepted is read field by field, defaults filled in. */
  lemma Read(v: Value)
    requires Validate(v).Success?
    ensures Gives(v, Validate(v).value)
  {
  }

  /** An object giving parameters within their bounds is accepted and read into exactly those parameters. */
  lemma Accepted(v: Value, p: Params)
    requires Gives(v, p) && p.Valid()
    ensures Validate(v) == Success(p)
  {
    TextsRead(v, p);
    NumbersRead(v, p);
    ChoicesRead(v, p);
    ImagesRead(v, p);
  }

  /** The description, the negative description and the size are read as given. */
  lemma TextsRead(v: Value, p: Params)
    requires Gives(v, p) && p.Valid()
    ensures Text(Get(v, "description"), 1, Some(1000)) == Success(p.description)
    ensures ParseImageSize(Get(v, "imageSize")) == Success(p.imageSize)
    ensures TextOr(Get(v, "negativeDescription"), "") == Success(p.negativeDescription)
  {
    TextRoundTrip(Get(v, "description"), 1, Some(1000), p.description);
    TextOrRoundTrip(Get(v, "negativeDescription"), "", p.negativeDescription);
  }

  /** The numeric fields within their bounds are read as given, defaults filled in. */
  lemma NumbersRead(v: Value, p: Params)
    requires Gives(v, p) && p.Valid()
    ensures NumberOr(Get(v, "textGuidanceScale"), Some(1.0), Some(20.0), 3.0) == Success(p.textGuidanceScale)
    ensures NumberOr(Get(v, "extraGuidanceScale"), Some(0.0), Some(20.0), 3.0) == Success(p.extraGuidanceScale)
    ensures NumberOr(Get(v, "skeletonGuidanceScale"), Some(0.0), Some(20.0), 1.0) == Success(p.skeletonGuidanceScale)
    ensures NumberOr(Get(v, "styleStrength"), Some(0.0), Some(100.0), 0.0) == Success(p.styleStrength)
    ensures NumberOr(Get(v, "seed"), None, None, 0.0) == Success(p.seed)
    ensures OptionalNumber(Get(v, "coveragePercentage"), Some(0.0), Some(100.0)) == Success(p.coveragePercentage)
    ensures NumberOr(Get(v, "initImageStrength"), Some(0.0), Some(1000.0), 300.0) == Success(p.initImageStrength)
  {
    NumberOrRoundTrip(Get(v, "textGuidanceScale"), Some(1.0), Some(20.0), 3.0, p.textGuidanceScale);
    NumberOrRoundTrip(Get(v, "extraGuidanceScale"), Some(0.0), Some(20.0), 3.0, p.extraGuidanceScale);
    NumberOrRoundTrip(Get(v, "skeletonGuidanceScale"), Some(0.0), Some(20.0), 1.0, p.skeletonGuidanceScale);
    NumberOrRoundTrip(Get(v, "styleStrength"), Some(0.0), Some(100.0), 0.0, p.styleStrength);
    NumberOrRoundTrip(Get(v, "seed"), None, None, 0.0, p.seed);
    OptionalNumberRoundTrip(Get(v, "coveragePercentage"), Some(0.0), Some(100.0), p.coveragePercentage);
    NumberOrRoundTrip(Get(v, "initImageStrength"), Some(0.0), Some(1000.0), 300.0, p.initImageStrength);
  }

  /** The enums and flags are read as given, defaults filled in. */
  lemma ChoicesRead(v: Value, p: Params)
    requires Gives(v, p) && p.Valid()
    ensures BooleanOr(Get(v, "noBackground"), false) == Success(p.noBackground)
    ensures OptionalOutline(Get(v, "outline")) == Success(p.outline)
    ensures OptionalShading(Get(v, "shading")) == Success(p.shading)
    ensures OptionalDetail(Get(v, "detail")) == Success(p.detail)
    ensures OptionalCameraView(Get(v, "view")) == Success(p.view)
    ensures OptionalDirection(Get(v, "direction")) == Success(p.direction)
    ensures BooleanOr(Get(v, "isometric"), false) == Success(p.isometric)
    ensures BooleanOr(Get(v, "obliqueProjection"), false) == Success(p.obliqueProjection)
  {
    BooleanOrRoundTrip(Get(v, "noBackground"), false, p.noBackground);
    OptionalOutlineRoundTrip(p.outline);
    OptionalShadingRoundTrip(p.shading);
    OptionalDetailRoundTrip(p.detail);
    OptionalCameraViewRoundTrip(p.view);
    OptionalDirectionRoundTrip(p.direction);
    BooleanOrRoundTrip(Get(v, "isometric"), false, p.isometric);
    BooleanOrRoundTrip(Get(v, "obliqueProjection"), false, p.obliqueProjection);
  }

  /** The images and the skeleton frame are read as given, absent ones as absent. */
  lemma ImagesRead(v: Value, p: Params)
    requires Gives(v, p) && p.Valid()
    ensures OptionalInstance(Get(v, "initImage")) == Success(p.initImage)
    ensures OptionalInstance(Get(v, "styleImage")) == Success(p.styleImage)
    ensures OptionalInstance(Get(v, "inpaintingImage")) == Success(p.inpaintingImage)
    ensures OptionalInstance(Get(v, "maskImage")) == Success(p.maskImage)
    ensures OptionalFrame(Get(v, "skeletonKeypoints")) == Success(p.skeletonKeypoints)
    ensures OptionalInstance(Get(v, "colorImage")) == Success(p.colorImage)
  {
    OptionalInstanceRoundTrip(p.initImage);
    OptionalInstanceRoundTrip(p.styleImage);
    OptionalInstanceRoundTrip(p.inpaintingImage);
    OptionalInstanceRoundTrip(p.maskImage);
    OptionalInstanceRoundTrip(p.colorImage);
  }

  /**
   * The keys of the `requestData` literal, in source order: every field under
   * its snake_case name (listed eight at a time).
   */
  const Keys: seq<string> := Keys0 + Keys1 + Keys2
  const Keys0: seq<string> := [
    "description", "image_size", "negative_description", "text_guidance_scale", "extra_guidance_scale",
    "style_strength", "outline", "shading"
  ]
  const Keys1: seq<string> := [
    "detail", "view", "direction", "isometric", "oblique_projection", "no_background", "coverage_percentage",
    "init_image"
  ]
  const Keys2: seq<string> := [
    "init_image_strength", "style_image", "inpainting_image", "mask_image", "color_image",
    "skeleton_keypoints", "skeleton_guidance_scale", "seed"
  ]

  /** The values of the `requestData` literal, listed with their keys. */
  function Values(p: Params): (vs: seq<Value>)
    ensures |vs| == |Keys|
  {
    Values0(p) + Values1(p) + Values2(p)
  }

  /** The values listed with `Keys0`. */
  function Values0(p: Params): (vs: seq<Value>)
    ensures |vs| == |Keys0|
  {
    [
      Str(p.description),
      p.imageSize.ToValue(),
      Str(p.negativeDescription),
      Num(p.textGuidanceScale),
      Num(p.extraGuidanceScale),
      Num(p.styleStrength),
      OptOutline(p.outline),
      OptShading(p.shading)
    ]
  }

  /** The values listed with `Keys1`. */
  function Values1(p: Params): (vs: seq<Value>)
    ensures |vs| == |Keys1|
  {
    [
      OptDetail(p.detail),
      OptCameraView(p.view),
      OptDirection(p.direction),
      Bool(p.isometric),
      Bool(p.obliqueProjection),
      Bool(p.noBackground),
      OptNum(p.coveragePercentage),
      DumpOrNull(p.initImage)
    ]
  }

  /** The values listed with `Keys2`. */
  function Values2(p: Params): (vs: seq<Value>)
    ensures |vs| == |Keys2|
  {
    [
      Num(p.initImageStrength),
      DumpOrNull(p.styleImage),
      DumpOrNull(p.inpaintingImage),
      DumpOrNull(p.maskImage),
      DumpOrNull(p.colorImage),
      FrameOrNull(p.skeletonKeypoints),
      Num(p.skeletonGuidanceScale),
      Num(p.seed)
    ]
  }

  /** `requestData`: an object with exactly the listed keys. */
  function RequestData(p: Params): (r: Value)
    ensures r.Obj? && r.props.Keys == set i | 0 <= i < |Keys| :: Keys[i]
  {
    ObjectOfKeys(Keys, Values(p));
    Obj(ObjectOf(Keys, Values(p)))
  }

  /**
   * The JSON object sent: `JSON.stringify(requestData)`, which keeps exactly
   * the keys whose value is not `undefined`.
   */
  function Body(p: Params): (r: map<string, Value>)
    ensures forall k :: k in r <==> k in RequestData(p).props && RequestData(p).props[k] != Undefined
  {
    Stringify(RequestData(p)).props
  }

  /** The rename is one-to-one: no snake_case key is used for two fields. */
  lemma KeysDistinct()
    ensures Distinct(Keys)
  {
  }

  /** The key `k` listed at position `i` with the value `x` is in the body as `x`, unless `x` is `undefined`. */
  lemma SentAt(p: Params, i: nat, k: string, x: Value)
    requires i < |Keys| && Keys[i] == k && Values(p)[i] == x && (x == Undefined || IsJson(x))
    ensures k in Body(p) <==> x != Undefined
    ensures x != Undefined ==> Body(p)[k] == x
  {
    KeysDistinct();
    Sent(Keys, Values(p), i, k, x);
  }

  /** The body has no key other than the twenty-four snake_case names. */
  lemma Renamed(p: Params)
    ensures Body(p).Keys <= set i | 0 <= i < |Keys| :: Keys[i]
  {
    SentKeys(Keys, Values(p));
  }

  /** The description is always sent under `description`. */
  lemma DescriptionSent(p: Params)
    ensures "description" in Body(p) && Body(p)["description"] == Str(p.description)
  {
    SentAt(p, 0, "description", Str(p.description));
  }

  /** The size is always sent under `image_size`, as the validated `{width, height}`. */
  lemma ImageSizeSent(p: Params)
    ensures "image_size" in Body(p) && Body(p)["image_size"] == p.imageSize.ToValue()
  {
    SentAt(p, 1, "image_size", p.imageSize.ToValue());
  }

  /** The negative description, "" by default, is always sent under `negative_description`. */
  lemma NegativeDescriptionSent(p: Params)
    ensures "negative_description" in Body(p) && Body(p)["negative_description"] == Str(p.negativeDescription)
  {
    SentAt(p, 2, "negative_description", Str(p.negativeDescription));
  }

  /** The text guidance scale, 3 by default, is always sent under `text_guidance_scale`. */
  lemma TextGuidanceScaleSent(p: Params)
    ensures "text_guidance_scale" in Body(p) && Body(p)["text_guidance_scale"] == Num(p.textGuidanceScale)
  {
    SentAt(p, 3, "text_guidance_scale", Num(p.textGuidanceScale));
  }

  /** The extra guidance scale, 3 by default, is always sent under `extra_guidance_scale`. */
  lemma ExtraGuidanceScaleSent(p: Params)
    ensures "extra_guidance_scale" in Body(p) && Body(p)["extra_guidance_scale"] == Num(p.extraGuidanceScale)
  {
    SentAt(p, 4, "extra_guidance_scale", Num(p.extraGuidanceScale));
  }

  /** The style strength, 0 by default, is always sent under `style_strength`. */
  lemma StyleStrengthSent(p: Params)
    ensures "style_strength" in Body(p) && Body(p)["style_strength"] == Num(p.styleStrength)
  {
    SentAt(p, 5, "style_strength", Num(p.styleStrength));
  }

  /** `outline` is left out of the body when absent, and sent as its literal otherwise. */
  lemma OutlineSent(p: Params)
    ensures "outline" in Body(p) <==> p.outline.Some?
    ensures p.outline.Some? ==> Body(p)["outline"] == Str(p.outline.value.Name())
  {
    SentAt(p, 6, "outline", OptOutline(p.outline));
  }

  /** `shading` is left out of the body when absent, and sent as its literal otherwise. */
  lemma ShadingSent(p: Params)
    ensures "shading" in Body(p) <==> p.shading.Some?
    ensures p.shading.Some? ==> Body(p)["shading"] == Str(p.shading.value.Name())
  {
    SentAt(p, 7, "shading", OptShading(p.shading));
  }

  /** `detail` is left out of the body when absent, and sent as its literal otherwise. */
  lemma DetailSent(p: Params)
    ensures "detail" in Body(p) <==> p.detail.Some?
    ensures p.detail.Some? ==> Body(p)["detail"] == Str(p.detail.value.Name())
  {
    SentAt(p, 8, "detail", OptDetail(p.detail));
  }

  /** `view` is left out of the body when absent, and sent as its literal otherwise. */
  lemma ViewSent(p: Params)
    ensures "view" in Body(p) <==> p.view.Some?
    ensures p.view.Some? ==> Body(p)["view"] == Str(p.view.value.Name())
  {
    SentAt(p, 9, "view", OptCameraView(p.view));
  }

  /** `direction` is left out of the body when absent, and sent as its literal otherwise. */
  lemma DirectionSent(p: Params)
    ensures "direction" in Body(p) <==> p.direction.Some?
    ensures p.direction.Some? ==> Body(p)["direction"] == Str(p.direction.value.Name())
  {
    SentAt(p, 10, "direction", OptDirection(p.direction));
  }

  /** The isometric flag, false by default, is always sent under `isometric`. */
  lemma IsometricSent(p: Params)
    ensures "isometric" in Body(p) && Body(p)["isometric"] == Bool(p.isometric)
  {
    SentAt(p, 11, "isometric", Bool(p.isometric));
  }

  /** The oblique projection flag, false by default, is always sent under `oblique_projection`. */
  lemma ObliqueProjectionSent(p: Params)
    ensures "oblique_projection" in Body(p) && Body(p)["oblique_projection"] == Bool(p.obliqueProjection)
  {
    SentAt(p, 12, "oblique_projection", Bool(p.obliqueProjection));
  }

  /** The no-background flag, false by default, is always sent under `no_background`. */
  lemma NoBackgroundSent(p: Params)
    ensures "no_background" in Body(p) && Body(p)["no_background"] == Bool(p.noBackground)
  {
    SentAt(p, 13, "no_background", Bool(p.noBackground));
  }

  /** `coverage_percentage` is left out of the body when absent, and sent as given otherwise. */
  lemma CoveragePercentageSent(p: Params)
    ensures "coverage_percentage" in Body(p) <==> p.coveragePercentage.Some?
    ensures p.coveragePercentage.Some? ==> Body(p)["coverage_percentage"] == Num(p.coveragePercentage.value)
  {
    SentAt(p, 14, "coverage_percentage", OptNum(p.coveragePercentage));
  }

  /** An absent init image is sent as `null`, a present one as its wire form. */
  lemma InitImageSent(p: Params)
    ensures "init_image" in Body(p)
    ensures p.initImage.None? ==> Body(p)["init_image"] == Null
    ensures p.initImage.Some? ==> Body(p)["init_image"] == ImageJson(p.initImage.value.base64, p.initImage.value.format)
  {
    SentAt(p, 15, "init_image", DumpOrNull(p.initImage));
  }

  /** The init image strength, 300 by default, is always sent under `init_image_strength`. */
  lemma InitImageStrengthSent(p: Params)
    ensures "init_image_strength" in Body(p) && Body(p)["init_image_strength"] == Num(p.initImageStrength)
  {
    SentAt(p, 16, "init_image_strength", Num(p.initImageStrength));
  }

  /** An absent style image is sent as `null`, a present one as its wire form. */
  lemma StyleImageSent(p: Params)
    ensures "style_image" in Body(p)
    ensures p.styleImage.None? ==> Body(p)["style_image"] == Null
    ensures p.styleImage.Some? ==> Body(p)["style_image"] == ImageJson(p.styleImage.value.base64, p.styleImage.value.format)
  {
    SentAt(p, 17, "style_image", DumpOrNull(p.styleImage));
  }

  /** An absent inpainting image is sent as `null`, a present one as its wire form. */
  lemma InpaintingImageSent(p: Params)
    ensures "inpainting_image" in Body(p)
    ensures p.inpaintingImage.None? ==> Body(p)["inpainting_image"] == Null
    ensures p.inpaintingImage.Some? ==> Body(p)["inpainting_image"] == ImageJson(p.inpaintingImage.value.base64, p.inpaintingImage.value.format)
  {
    SentAt(p, 18, "inpainting_image", DumpOrNull(p.inpaintingImage));
  }

  /** An absent mask image is sent as `null`, a present one as its wire form. */
  lemma MaskImageSent(p: Params)
    ensures "mask_image" in Body(p)
    ensures p.maskImage.None? ==> Body(p)["mask_image"] == Null
    ensures p.maskImage.Some? ==> Body(p)["mask_image"] == ImageJson(p.maskImage.value.base64, p.maskImage.value.format)
  {
    SentAt(p, 19, "mask_image", DumpOrNull(p.maskImage));
  }

  /** An absent color image is sent as `null`, a present one as its wire form. */
  lemma ColorImageSent(p: Params)
    ensures "color_image" in Body(p)
    ensures p.colorImage.None? ==> Body(p)["color_image"] == Null
    ensures p.colorImage.Some? ==> Body(p)["color_image"] == ImageJson(p.colorImage.value.base64, p.colorImage.value.format)
  {
    SentAt(p, 20, "color_image", DumpOrNull(p.colorImage));
  }

  /** An absent frame is sent as `null`; a present one as the single object `{keypoints: [...]}`, keypoints in order. */
  lemma SkeletonKeypointsSent(p: Params)
    ensures "skeleton_keypoints" in Body(p)
    ensures p.skeletonKeypoints.None? ==> Body(p)["skeleton_keypoints"] == Null
    ensures p.skeletonKeypoints.Some? ==>
      Body(p)["skeleton_keypoints"] == Obj(map["keypoints" := Arr(KeypointValues(p.skeletonKeypoints.value.keypoints))])
  {
    SentAt(p, 21, "skeleton_keypoints", FrameOrNull(p.skeletonKeypoints));
  }

  /** The skeleton guidance scale, 1 by default, is always sent under `skeleton_guidance_scale`. */
  lemma SkeletonGuidanceScaleSent(p: Params)
    ensures "skeleton_guidance_scale" in Body(p) && Body(p)["skeleton_guidance_scale"] == Num(p.skeletonGuidanceScale)
  {
    SentAt(p, 22, "skeleton_guidance_scale", Num(p.skeletonGuidanceScale));
  }

  /** The seed, 0 by default, is always sent under `seed`. */
  lemma SeedSent(p: Params)
    ensures "seed" in Body(p) && Body(p)["seed"] == Num(p.seed)
  {
    SentAt(p, 23, "seed", Num(p.seed));
  }


  /**
   * `client.generateImageBitforge(params)`: invalid parameters throw the raw
   * `ZodError` and nothing is sent; otherwise the body is posted to the
   * operation's path and the answer read as `{image, usage}`.
   */
  function GenerateImageBitforge(client: PixelLabClient, params: Value, exchange: Exchange): (c: Call<ImageResult>)
    ensures c.sent.None? <==> Validate(params).Failure?
    ensures c.sent.None? ==> c.outcome == Failure(ZodError)
    ensures c.sent.Some? ==>
      c.sent.value.verb == POST && c.sent.value.url == client.Url(Path) &&
      c.sent.value.body == Some(Obj(Body(Validate(params).value)))
    ensures c.sent.Some? ==> c.outcome == Receive(exchange, ParseImageResult)
  {
    PostCall(client, Path, Validate, RequestData, ParseImageResult, params, exchange)
  }

  /**
   * The parameters of the package's own test: a 16x16 "boy with wings", no
   * background, style, inpainting, mask and init images, init strength 250.
   */
  function TestParams(style: Base64Image, inpainting: Base64Image, mask: Base64Image, init: Base64Image): Value {
    Obj(map[
      "description" := Str("boy with wings"),
      "imageSize" := ImageSize(16.0, 16.0).ToValue(),
      "noBackground" := Bool(true),
      "styleImage" := style.AsValue(),
      "inpaintingImage" := inpainting.AsValue(),
      "maskImage" := mask.AsValue(),
      "initImage" := init.AsValue(),
      "initImageStrength" := Num(250.0)
    ])
  }

  /** What validation makes of them: every other field takes its default. */
  function TestValidated(style: Base64Image, inpainting: Base64Image, mask: Base64Image, init: Base64Image): Params {
    Params("boy with wings", ImageSize(16.0, 16.0), "", 3.0, 3.0, 1.0, 0.0, true, 0.0, None, None, None, None, None,
           false, false, None, Some(init), 250.0, Some(style), Some(inpainting), Some(mask), None, None)
  }

  /** The test parameters are accepted, with the defaults filled in. */
  lemma TestParamsAccepted(style: Base64Image, inpainting: Base64Image, mask: Base64Image, init: Base64Image)
    ensures Validate(TestParams(style, inpainting, mask, init)) == Success(TestValidated(style, inpainting, mask, init))
  {
    TestParamsGive(style, inpainting, mask, init);
    Accepted(TestParams(style, inpainting, mask, init), TestValidated(style, inpainting, mask, init));
  }

  /** Field by field, the test parameters give the validated ones. */
  lemma TestParamsGive(style: Base64Image, inpainting: Base64Image, mask: Base64Image, init: Base64Image)
    ensures Gives(TestParams(style, inpainting, mask, init), TestValidated(style, inpainting, mask, init))
  {
    TestFieldsGiven0(style, inpainting, mask, init);
    TestFieldsGiven1(style, inpainting, mask, init);
    TestDefaultsTaken0(style, inpainting, mask, init);
    TestDefaultsTaken1(style, inpainting, mask, init);
    TestDefaultsTaken2(style, inpainting, mask, init);
  }

  /** The fields the test gives are read as given. */
  lemma TestFieldsGiven0(style: Base64Image, inpainting: Base64Image, mask: Base64Image, init: Base64Image)
    ensures var v, p := TestParams(style, inpainting, mask, init), TestValidated(style, inpainting, mask, init);
      Get(v, "description") == Str(p.description) &&
      ParseImageSize(Get(v, "imageSize")) == Success(p.imageSize) &&
      Provided(Get(v, "noBackground"), Bool(false)) == Bool(p.noBackground) &&
      Get(v, "styleImage") == OptInstance(p.styleImage)
  {
    ImageSizeRoundTrip(ImageSize(16.0, 16.0));
  }

  /** The fields the test gives are read as given. */
  lemma TestFieldsGiven1(style: Base64Image, inpainting: Base64Image, mask: Base64Image, init: Base64Image)
    ensures var v, p := TestParams(style, inpainting, mask, init), TestValidated(style, inpainting, mask, init);
      Get(v, "initImage") == OptInstance(p.initImage) &&
      Provided(Get(v, "initImageStrength"), Num(300.0)) == Num(p.initImageStrength) &&
      Get(v, "inpaintingImage") == OptInstance(p.inpaintingImage) &&
      Get(v, "maskImage") == OptInstance(p.maskImage)
  {
  }

  /** The fields the test leaves out take their defaults or stay unset. */
  lemma TestDefaultsTaken0(style: Base64Image, inpainting: Base64Image, mask: Base64Image, init: Base64Image)
    ensures var v, p := TestParams(style, inpainting, mask, init), TestValidated(style, inpainting, mask, init);
      Provided(Get(v, "negativeDescription"), Str("")) == Str(p.negativeDescription) &&
      Provided(Get(v, "textGuidanceScale"), Num(3.0)) == Num(p.textGuidanceScale) &&
      Provided(Get(v, "extraGuidanceScale"), Num(3.0)) == Num(p.extraGuidanceScale) &&
      Provided(Get(v, "skeletonGuidanceScale"), Num(1.0)) == Num(p.skeletonGuidanceScale) &&
      Provided(Get(v, "styleStrength"), Num(0.0)) == Num(p.styleStrength) &&
      Provided(Get(v, "seed"), Num(0.0)) == Num(p.seed)
  {
    // A left-out key as long as a given one differs from it at the character shown.
    assert "textGuidanceScale"[0] != "initImageStrength"[0];
  }

  /** The fields the test leaves out take their defaults or stay unset. */
  lemma TestDefaultsTaken1(style: Base64Image, inpainting: Base64Image, mask: Base64Image, init: Base64Image)
    ensures var v, p := TestParams(style, inpainting, mask, init), TestValidated(style, inpainting, mask, init);
      Get(v, "outline") == OptOutline(p.outline) &&
      Get(v, "shading") == OptShading(p.shading) &&
      Get(v, "detail") == OptDetail(p.detail) &&
      Get(v, "view") == OptCameraView(p.view) &&
      Get(v, "direction") == OptDirection(p.direction) &&
      Provided(Get(v, "isometric"), Bool(false)) == Bool(p.isometric)
  {
    // A left-out key as long as a given one differs from it at the character shown.
    assert "direction"[0] != "imageSize"[0];
    assert "direction"[0] != "maskImage"[0];
    assert "direction"[0] != "initImage"[0];
    assert "isometric"[1] != "imageSize"[1];
    assert "isometric"[0] != "maskImage"[0];
    assert "isometric"[1] != "initImage"[1];
  }

  /** The fields the test leaves out take their defaults or stay unset. */
  lemma TestDefaultsTaken2(style: Base64Image, inpainting: Base64Image, mask: Base64Image, init: Base64Image)
    ensures var v, p := TestParams(style, inpainting, mask, init), TestValidated(style, inpainting, mask, init);
      Provided(Get(v, "obliqueProjection"), Bool(false)) == Bool(p.obliqueProjection) &&
      Get(v, "coveragePercentage") == OptNum(p.coveragePercentage) &&
      OptionalFrame(Get(v, "skeletonKeypoints")) == Success(p.skeletonKeypoints) &&
      Get(v, "colorImage") == OptInstance(p.colorImage)
  {
    // A left-out key as long as a given one differs from it at the character shown.
    assert "obliqueProjection"[0] != "initImageStrength"[0];
    assert "skeletonKeypoints"[0] != "initImageStrength"[0];
    assert "colorImage"[0] != "styleImage"[0];
  }

  /**
   * The body of the test request: the four images as their wire forms, init
   * strength 250, no background true, the guidance scales at their defaults
   * and no skeleton frame.
   */
  lemma TestBody(style: Base64Image, inpainting: Base64Image, mask: Base64Image, init: Base64Image)
    ensures var b := Body(TestValidated(style, inpainting, mask, init));
      "style_image" in b && b["style_image"] == ImageJson(style.base64, style.format) &&
      "inpainting_image" in b && b["inpainting_image"] == ImageJson(inpainting.base64, inpainting.format) &&
      "mask_image" in b && b["mask_image"] == ImageJson(mask.base64, mask.format) &&
      "init_image" in b && b["init_image"] == ImageJson(init.base64, init.format) &&
      "init_image_strength" in b && b["init_image_strength"] == Num(250.0) &&
      "no_background" in b && b["no_background"] == Bool(true) &&
      "text_guidance_scale" in b && b["text_guidance_scale"] == Num(3.0) &&
      "extra_guidance_scale" in b && b["extra_guidance_scale"] == Num(3.0) &&
      "skeleton_guidance_scale" in b && b["skeleton_guidance_scale"] == Num(1.0) &&
      "skeleton_keypoints" in b && b["skeleton_keypoints"] == Null &&
      "color_image" in b && b["color_image"] == Null &&
      "outline" !in b && "coverage_percentage" !in b
  {
    var p := TestValidated(style, inpainting, mask, init);
    StyleImageSent(p);
    InpaintingImageSent(p);
    MaskImageSent(p);
    InitImageSent(p);
    InitImageStrengthSent(p);
    NoBackgroundSent(p);
    TextGuidanceScaleSent(p);
    ExtraGuidanceScaleSent(p);
    SkeletonGuidanceScaleSent(p);
    SkeletonKeypointsSent(p);
    ColorImageSent(p);
    OutlineSent(p);
    CoveragePercentageSent(p);
  }

  /** A list of frames where one frame is expected is rejected before any request is made. */
  lemma FrameListNotSent(client: PixelLabClient, params: Value, exchange: Exchange)
    requires Get(params, "skeletonKeypoints").Arr?
    ensures GenerateImageBitforge(client, params, exchange) == Call(None, Failure(ZodError))
  {
    assert OptionalFrame(Get(params, "skeletonKeypoints")).Failure?;
    assert Validate(params).Failure? by {
      if Validate(params).Success? {
        Read(params);
      }
    }
  }

  /**
   * The maximum of 1000 counts UTF-16 code units: a description of 600 copies
   * of U+1F600, which lies beyond the Basic Multilingual Plane, is 1200 units
   * long, so it throws the raw `ZodError` and nothing is sent.
   */
  lemma AstralDescriptionNotSent(client: PixelLabClient, params: Value, exchange: Exchange)
    requires Get(params, "description") == Str(seq(600, i => '\U{1F600}'))
    ensures GenerateImageBitforge(client, params, exchange) == Call(None, Failure(ZodError))
  {
    assert Utf16Length(seq(600, i => '\U{1F600}')) == 1200;
    assert Text(Get(params, "description"), 1, Some(1000)).Failure?;
  }
}
