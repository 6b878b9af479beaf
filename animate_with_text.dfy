/** `animateWithText`: animation frames of a character performing an action, from a reference image. */
module AnimateWithText {
  import opened Wrappers
  import opened JsValue
  import opened Zod
  import opened Types
  import opened ImageSizes
  import opened Base64Images
  import opened Errors
  import opened Client
  import opened Pipeline
  import opened Responses
  import opened RequestBody

  const Path: string := "/animate-with-text"

  /** The validated parameters: defaults filled in, absent options `None`. */
  datatype Params = Params(
    imageSize: ImageSize,
    description: string,
    action: string,
    referenceImage: Base64Image,
    view: CameraView,
    direction: Direction,
    negativeDescription: Option<string>,
    textGuidanceScale: real,
    imageGuidanceScale: real,
    nFrames: real,
    startFrameIndex: real,
    initImages: Option<seq<Option<Base64Image>>>,
    initImageStrength: real,
    inpaintingImages: Option<seq<Option<Base64Image>>>,
    maskImages: Option<seq<Option<Base64Image>>>,
    colorImage: Option<Base64Image>,
    seed: real)
  {
    /** Every bound of the schema holds, both ends included. */
    predicate Valid() {
      imageSize.InBounds() && 1 <= Utf16Length(description) && 1 <= Utf16Length(action) &&
      1.0 <= textGuidanceScale <= 20.0 && 1.0 <= imageGuidanceScale <= 20.0 &&
      1.0 <= nFrames <= 20.0 && 0.0 <= startFrameIndex && 1.0 <= initImageStrength <= 999.0
    }
  }

  /**
   * The parameters object `v` gives the validated parameters `p`: every
   * field of `v` holds the one of `p`, a defaulted field being absent exactly
   * when `p` holds the default in its place; other keys are ignored.
   */
  predicate Gives(v: Value, p: Params) {
    v.Obj? && GivesTexts(v, p) && GivesNumbers(v, p) && GivesImages(v, p)
  }

  /** The size, the texts and the choices of `p` are given by `v`. */
  predicate GivesTexts(v: Value, p: Params) {
    ParseImageSize(Get(v, "imageSize")) == Success(p.imageSize) &&
    Get(v, "description") == Str(p.description) &&
    Get(v, "action") == Str(p.action) &&
    Get(v, "referenceImage") == p.referenceImage.AsValue() &&
    Provided(Get(v, "view"), Str(CameraView.Side.Name())) == Str(p.view.Name()) &&
    Provided(Get(v, "direction"), Str(Direction.East.Name())) == Str(p.direction.Name()) &&
    Get(v, "negativeDescription") == OptStr(p.negativeDescription)
  }

  /** The numbers of `p` are given by `v`, each absent exactly when `p` holds its default. */
  predicate GivesNumbers(v: Value, p: Params) {
    Provided(Get(v, "textGuidanceScale"), Num(7.5)) == Num(p.textGuidanceScale) &&
    Provided(Get(v, "imageGuidanceScale"), Num(1.5)) == Num(p.imageGuidanceScale) &&
    Provided(Get(v, "nFrames"), Num(4.0)) == Num(p.nFrames) &&
    Provided(Get(v, "startFrameIndex"), Num(0.0)) == Num(p.startFrameIndex) &&
    Provided(Get(v, "initImageStrength"), Num(300.0)) == Num(p.initImageStrength) &&
    Provided(Get(v, "seed"), Num(0.0)) == Num(p.seed)
  }

  /** The image lists and the color image of `p` are given by `v`. */
  predicate GivesImages(v: Value, p: Params) {
    Get(v, "initImages") == OptNullableInstances(p.initImages) &&
    Get(v, "inpaintingImages") == OptNullableInstances(p.inpaintingImages) &&
    Get(v, "maskImages") == OptNullableInstances(p.maskImages) &&
    Get(v, "colorImage") == OptInstance(p.colorImage)
  }

  /** `AnimateWithTextParamsSchema.parse(params)`. */
  function Validate(v: Value): (r: Parsed<Params>)
    ensures r.Success? ==> r.value.Valid()
  {
    var imageSize := ParseImageSize(Get(v, "imageSize"));
    var description := Text(Get(v, "description"), 1, None);
    var action := Text(Get(v, "action"), 1, None);
    var referenceImage := Instance(Get(v, "referenceImage"));
    var view := CameraViewOr(Get(v, "view"), CameraView.Side);
    var direction := DirectionOr(Get(v, "direction"), Direction.East);
    var negativeDescription := OptionalText(Get(v, "negativeDescription"));
    var textGuidanceScale := NumberOr(Get(v, "textGuidanceScale"), Some(1.0), Some(20.0), 7.5);
    var imageGuidanceScale := NumberOr(Get(v, "imageGuidanceScale"), Some(1.0), Some(20.0), 1.5);
    var nFrames := NumberOr(Get(v, "nFrames"), Some(1.0), Some(20.0), 4.0);
    var startFrameIndex := NumberOr(Get(v, "startFrameIndex"), Some(0.0), None, 0.0);
    var initImages := OptionalNullableInstances(Get(v, "initImages"));
    var initImageStrength := NumberOr(Get(v, "initImageStrength"), Some(1.0), Some(999.0), 300.0);
    var inpaintingImages := OptionalNullableInstances(Get(v, "inpaintingImages"));
    var maskImages := OptionalNullableInstances(Get(v, "maskImages"));
    var colorImage := OptionalInstance(Get(v, "colorImage"));
    var seed := NumberOr(Get(v, "seed"), None, None, 0.0);
    if IsObject(v) && imageSize.Success? && description.Success? && action.Success? &&
       referenceImage.Success? && view.Success? && direction.Success? && negativeDescription.Success? &&
       textGuidanceScale.Success? && imageGuidanceScale.Success? && nFrames.Success? &&
       startFrameIndex.Success? && initImages.Success? && initImageStrength.Success? &&
       inpaintingImages.Success? && maskImages.Success? && colorImage.Success? && seed.Success?
    then
      Success(Params(imageSize.value, description.value, action.value, referenceImage.value, view.value,
                     direction.value, negativeDescription.value, textGuidanceScale.value,
                     imageGuidanceScale.value, nFrames.value, startFrameIndex.value, initImages.value,
                     initImageStrength.value, inpaintingImages.value, maskImages.value, colorImage.value,
                     seed.value))
    else Failure(SchemaError)
  }

  /** Whatever is accepted is read field by field, defaults filled in. */
  lemma Read(v: Value)
    requires Validate(v).Success?
    ensures Gives(v, Validate(v).value)
  {
    var p := Validate(v).value;
    assert GivesTexts(v, p);
    assert GivesNumbers(v, p);
    assert GivesImages(v, p);
  }

  /** An object giving parameters within their bounds is accepted and read into exactly those parameters. */
  lemma Accepted(v: Value, p: Params)
    requires Gives(v, p) && p.Valid()
    ensures Validate(v) == Success(p)
  {
    TextsRead(v, p);
    NumbersRead(v, p);
    ChoicesRead(v, p);
    ImagesRead(v, p);
  }

  /** The size, the description, the action and the negative description are read as given. */
  lemma TextsRead(v: Value, p: Params)
    requires Gives(v, p) && p.Valid()
    ensures ParseImageSize(Get(v, "imageSize")) == Success(p.imageSize)
    ensures Text(Get(v, "description"), 1, None) == Success(p.description)
    ensures Text(Get(v, "action"), 1, None) == Success(p.action)
    ensures OptionalText(Get(v, "negativeDescription")) == Success(p.negativeDescription)
  {
    TextRoundTrip(Get(v, "description"), 1, None, p.description);
    TextRoundTrip(Get(v, "action"), 1, None, p.action);
    OptionalTextRoundTrip(Get(v, "negativeDescription"), p.negativeDescription);
  }

  /** The numeric fields within their bounds are read as given, defaults filled in. */
  lemma NumbersRead(v: Value, p: Params)
    requires Gives(v, p) && p.Valid()
    ensures NumberOr(Get(v, "textGuidanceScale"), Some(1.0), Some(20.0), 7.5) == Success(p.textGuidanceScale)
    ensures NumberOr(Get(v, "imageGuidanceScale"), Some(1.0), Some(20.0), 1.5) == Success(p.imageGuidanceScale)
    ensures NumberOr(Get(v, "nFrames"), Some(1.0), Some(20.0), 4.0) == Success(p.nFrames)
    ensures NumberOr(Get(v, "startFrameIndex"), Some(0.0), None, 0.0) == Success(p.startFrameIndex)
    ensures NumberOr(Get(v, "initImageStrength"), Some(1.0), Some(999.0), 300.0) == Success(p.initImageStrength)
    ensures NumberOr(Get(v, "seed"), None, None, 0.0) == Success(p.seed)
  {
    NumberOrRoundTrip(Get(v, "textGuidanceScale"), Some(1.0), Some(20.0), 7.5, p.textGuidanceScale);
    NumberOrRoundTrip(Get(v, "imageGuidanceScale"), Some(1.0), Some(20.0), 1.5, p.imageGuidanceScale);
    NumberOrRoundTrip(Get(v, "nFrames"), Some(1.0), Some(20.0), 4.0, p.nFrames);
    NumberOrRoundTrip(Get(v, "startFrameIndex"), Some(0.0), None, 0.0, p.startFrameIndex);
    NumberOrRoundTrip(Get(v, "initImageStrength"), Some(1.0), Some(999.0), 300.0, p.initImageStrength);
    NumberOrRoundTrip(Get(v, "seed"), None, None, 0.0, p.seed);
  }

  /** The view and the direction are read as given, "side" and "east" by default. */
  lemma ChoicesRead(v: Value, p: Params)
    requires Gives(v, p) && p.Valid()
    ensures CameraViewOr(Get(v, "view"), CameraView.Side) == Success(p.view)
    ensures DirectionOr(Get(v, "direction"), Direction.East) == Success(p.direction)
  {
    CameraViewOrRoundTrip(Get(v, "view"), CameraView.Side, p.view);
    DirectionOrRoundTrip(Get(v, "direction"), Direction.East, p.direction);
  }

  /** The images and image lists are read as given, absent optional ones as absent. */
  lemma ImagesRead(v: Value, p: Params)
    requires Gives(v, p) && p.Valid()
    ensures Instance(Get(v, "referenceImage")) == Success(p.referenceImage)
    ensures OptionalNullableInstances(Get(v, "initImages")) == Success(p.initImages)
    ensures OptionalNullableInstances(Get(v, "inpaintingImages")) == Success(p.inpaintingImages)
    ensures OptionalNullableInstances(Get(v, "maskImages")) == Success(p.maskImages)
    ensures OptionalInstance(Get(v, "colorImage")) == Success(p.colorImage)
  {
    InstanceRoundTrip(p.referenceImage);
    OptionalNullableInstancesRoundTrip(p.initImages);
    OptionalNullableInstancesRoundTrip(p.inpaintingImages);
    OptionalNullableInstancesRoundTrip(p.maskImages);
    OptionalInstanceRoundTrip(p.colorImage);
  }

  /**
   * The keys of the `requestData` literal, in source order: every field under
   * its snake_case name (listed eight at a time).
   */
  const Keys: seq<string> := Keys0 + Keys1 + Keys2
  const Keys0: seq<string> := [
    "image_size", "description", "action", "negative_description", "text_guidance_scale",
    "image_guidance_scale", "n_frames", "start_frame_index"
  ]
  const Keys1: seq<string> := [
    "view", "direction", "reference_image", "init_images", "init_image_strength", "inpainting_images",
    "mask_images", "color_image"
  ]
  const Keys2: seq<string> := [
    "seed"
  ]

  /** The values of the `requestData` literal, listed with their keys. */
  function Values(p: Params): (vs: seq<Value>)
    ensures |vs| == |Keys|
  {
    Values0(p) + Values1(p) + Values2(p)
  }

  /** The values listed with `Keys0`. */
  function Values0(p: Params): (vs: seq<Value>)
    ensures |vs| == |Keys0|
  {
    [
      p.imageSize.ToValue(),
      Str(p.description),
      Str(p.action),
      OptStr(p.negativeDescription),
      Num(p.textGuidanceScale),
      Num(p.imageGuidanceScale),
      Num(p.nFrames),
      Num(p.startFrameIndex)
    ]
  }

  /** The values listed with `Keys1`. */
  function Values1(p: Params): (vs: seq<Value>)
    ensures |vs| == |Keys1|
  {
    [
      Str(p.view.Name()),
      Str(p.direction.Name()),
      Dump(p.referenceImage),
      DumpEachOrNull(p.initImages),
      Num(p.initImageStrength),
      Arr(DumpEach(InpaintingImages(p))),
      DumpEachOrNull(p.maskImages),
      DumpOrNull(p.colorImage)
    ]
  }

  /** The values listed with `Keys2`. */
  function Values2(p: Params): (vs: seq<Value>)
    ensures |vs| == |Keys2|
  {
    [
      Num(p.seed)
    ]
  }

  /** `requestData`: an object with exactly the listed keys. */
  function RequestData(p: Params): (r: Value)
    ensures r.Obj? && r.props.Keys == set i | 0 <= i < |Keys| :: Keys[i]
  {
    ObjectOfKeys(Keys, Values(p));
    Obj(ObjectOf(Keys, Values(p)))
  }

  /**
   * The JSON object sent: `JSON.stringify(requestData)`, which keeps exactly
   * the keys whose value is not `undefined`.
   */
  function Body(p: Params): (r: map<string, Value>)
    ensures forall k :: k in r <==> k in RequestData(p).props && RequestData(p).props[k] != Undefined
  {
    Stringify(RequestData(p)).props
  }

  /** The rename is one-to-one: no snake_case key is used for two fields. */
  lemma KeysDistinct()
    ensures Distinct(Keys)
  {
  }

  /** The key `k` listed at position `i` with the value `x` is in the body as `x`, unless `x` is `undefined`. */
  lemma SentAt(p: Params, i: nat, k: string, x: Value)
    requires i < |Keys| && Keys[i] == k && Values(p)[i] == x && (x == Undefined || IsJson(x))
    ensures k in Body(p) <==> x != Undefined
    ensures x != Undefined ==> Body(p)[k] == x
  {
    KeysDistinct();
    Sent(Keys, Values(p), i, k, x);
  }

  /** The body has no key other than the seventeen snake_case names. */
  lemma Renamed(p: Params)
    ensures Body(p).Keys <= set i | 0 <= i < |Keys| :: Keys[i]
  {
    SentKeys(Keys, Values(p));
  }

  /** The size is always sent under `image_size`, as the validated `{width, height}`. */
  lemma ImageSizeSent(p: Params)
    ensures "image_size" in Body(p) && Body(p)["image_size"] == p.imageSize.ToValue()
  {
    SentAt(p, 0, "image_size", p.imageSize.ToValue());
  }

  /** The description is always sent under `description`. */
  lemma DescriptionSent(p: Params)
    ensures "description" in Body(p) && Body(p)["description"] == Str(p.description)
  {
    SentAt(p, 1, "description", Str(p.description));
  }

  /** The action is always sent under `action`. */
  lemma ActionSent(p: Params)
    ensures "action" in Body(p) && Body(p)["action"] == Str(p.action)
  {
    SentAt(p, 2, "action", Str(p.action));
  }

  /** An absent negative description is left out of the body (there is no default), a present one sent as given. */
  lemma NegativeDescriptionSent(p: Params)
    ensures "negative_description" in Body(p) <==> p.negativeDescription.Some?
    ensures p.negativeDescription.Some? ==> Body(p)["negative_description"] == Str(p.negativeDescription.value)
  {
    SentAt(p, 3, "negative_description", OptStr(p.negativeDescription));
  }

  /** The text guidance scale, 7.5 by default, is always sent under `text_guidance_scale`. */
  lemma TextGuidanceScaleSent(p: Params)
    ensures "text_guidance_scale" in Body(p) && Body(p)["text_guidance_scale"] == Num(p.textGuidanceScale)
  {
    SentAt(p, 4, "text_guidance_scale", Num(p.textGuidanceScale));
  }

  /** The image guidance scale, 1.5 by default, is always sent under `image_guidance_scale`. */
  lemma ImageGuidanceScaleSent(p: Params)
    ensures "image_guidance_scale" in Body(p) && Body(p)["image_guidance_scale"] == Num(p.imageGuidanceScale)
  {
    SentAt(p, 5, "image_guidance_scale", Num(p.imageGuidanceScale));
  }

  /** The number of frames, 4 by default, is always sent under `n_frames`. */
  lemma FrameCountSent(p: Params)
    ensures "n_frames" in Body(p) && Body(p)["n_frames"] == Num(p.nFrames)
  {
    SentAt(p, 6, "n_frames", Num(p.nFrames));
  }

  /** The start frame index, 0 by default, is always sent under `start_frame_index`. */
  lemma StartFrameIndexSent(p: Params)
    ensures "start_frame_index" in Body(p) && Body(p)["start_frame_index"] == Num(p.startFrameIndex)
  {
    SentAt(p, 7, "start_frame_index", Num(p.startFrameIndex));
  }

  /** The view, "side" by default, is always sent under `view` as its literal. */
  lemma ViewSent(p: Params)
    ensures "view" in Body(p) && Body(p)["view"] == Str(p.view.Name())
  {
    SentAt(p, 8, "view", Str(p.view.Name()));
  }

  /** The direction, "east" by default, is always sent under `direction` as its literal. */
  lemma DirectionSent(p: Params)
    ensures "direction" in Body(p) && Body(p)["direction"] == Str(p.direction.Name())
  {
    SentAt(p, 9, "direction", Str(p.direction.Name()));
  }

  /** The reference image is always sent under `reference_image`, as its wire form and never `null`. */
  lemma ReferenceImageSent(p: Params)
    ensures "reference_image" in Body(p) && Body(p)["reference_image"] == ImageJson(p.referenceImage.base64, p.referenceImage.format)
  {
    SentAt(p, 10, "reference_image", Dump(p.referenceImage));
  }

  /** Absent init images are sent as `null`; a present list element by element, keeping its length, order and `null` places. */
  lemma InitImagesSent(p: Params)
    ensures "init_images" in Body(p)
    ensures p.initImages.None? ==> Body(p)["init_images"] == Null
    ensures p.initImages.Some? ==> Body(p)["init_images"] == Arr(DumpEach(p.initImages.value))
  {
    SentAt(p, 11, "init_images", DumpEachOrNull(p.initImages));
  }

  /** The init image strength, 300 by default, is always sent under `init_image_strength`. */
  lemma InitImageStrengthSent(p: Params)
    ensures "init_image_strength" in Body(p) && Body(p)["init_image_strength"] == Num(p.initImageStrength)
  {
    SentAt(p, 12, "init_image_strength", Num(p.initImageStrength));
  }

  /** Absent inpainting images are sent as four `null`s; a present list, even an empty one, element by element. */
  lemma InpaintingImagesSent(p: Params)
    ensures "inpainting_images" in Body(p)
    ensures p.inpaintingImages.None? ==> Body(p)["inpainting_images"] == Arr([Null, Null, Null, Null])
    ensures p.inpaintingImages.Some? ==> Body(p)["inpainting_images"] == Arr(DumpEach(p.inpaintingImages.value))
  {
    SentAt(p, 13, "inpainting_images", Arr(DumpEach(InpaintingImages(p))));
    FourPlacesDumped();
  }

  /** Absent mask images are sent as `null`; a present list element by element, keeping its length, order and `null` places. */
  lemma MaskImagesSent(p: Params)
    ensures "mask_images" in Body(p)
    ensures p.maskImages.None? ==> Body(p)["mask_images"] == Null
    ensures p.maskImages.Some? ==> Body(p)["mask_images"] == Arr(DumpEach(p.maskImages.value))
  {
    SentAt(p, 14, "mask_images", DumpEachOrNull(p.maskImages));
  }

  /** An absent color image is sent as `null`, a present one as its wire form. */
  lemma ColorImageSent(p: Params)
    ensures "color_image" in Body(p)
    ensures p.colorImage.None? ==> Body(p)["color_image"] == Null
    ensures p.colorImage.Some? ==> Body(p)["color_image"] == ImageJson(p.colorImage.value.base64, p.colorImage.value.format)
  {
    SentAt(p, 15, "color_image", DumpOrNull(p.colorImage));
  }

  /** The seed, 0 by default, is always sent under `seed`. */
  lemma SeedSent(p: Params)
    ensures "seed" in Body(p) && Body(p)["seed"] == Num(p.seed)
  {
    SentAt(p, 16, "seed", Num(p.seed));
  }


  /**
   * `validatedParams.inpaintingImages || Array.from({length: 4}, () => null)`:
   * a given list is kept (an empty array is truthy), an absent one becomes
   * four empty places.
   */
  function InpaintingImages(p: Params): (imgs: seq<Option<Base64Image>>)
    ensures p.inpaintingImages.Some? ==> imgs == p.inpaintingImages.value
    ensures p.inpaintingImages.None? ==> imgs == [None, None, None, None]
  {
    if p.inpaintingImages.Some? then p.inpaintingImages.value else [None, None, None, None]
  }

  /** The four empty places are sent as four `null`s. */
  lemma FourPlacesDumped()
    ensures DumpEach([None, None, None, None]) == [Null, Null, Null, Null]
  {
  }

  /**
   * `client.animateWithText(params)`: invalid parameters throw the raw
   * `ZodError` and nothing is sent; otherwise the body is posted to the
   * operation's path and the answer read as `{images, usage}`, every image rebuilt with `fromData`, in order.
   */
  function AnimateWithText(client: PixelLabClient, params: Value, exchange: Exchange): (c: Call<ImagesResult>)
    ensures c.sent.None? <==> Validate(params).Failure?
    ensures c.sent.None? ==> c.outcome == Failure(ZodError)
    ensures c.sent.Some? ==>
      c.sent.value.verb == POST && c.sent.value.url == client.Url(Path) &&
      c.sent.value.body == Some(Obj(Body(Validate(params).value)))
    ensures c.sent.Some? ==> c.outcome == Receive(exchange, ParseImagesResult)
  {
    PostCall(client, Path, Validate, RequestData, ParseImagesResult, params, exchange)
  }

  /** Parameters without a reference image throw the raw `ZodError` before any request is made. */
  lemma ReferenceImageRequired(client: PixelLabClient, params: Value, exchange: Exchange)
    requires Get(params, "referenceImage") == Undefined
    ensures AnimateWithText(client, params, exchange) == Call(None, Failure(ZodError))
  {
    assert Instance(Get(params, "referenceImage")).Failure?;
    assert Validate(params).Failure? by {
      if Validate(params).Success? {
        Read(params);
      }
    }
  }

  /** An empty action is rejected before any request is made. */
  lemma EmptyActionRejected(client: PixelLabClient, params: Value, exchange: Exchange)
    requires Get(params, "action") == Str("")
    ensures AnimateWithText(client, params, exchange) == Call(None, Failure(ZodError))
  {
    assert Text(Get(params, "action"), 1, None).Failure?;
    assert Validate(params).Failure? by {
      if Validate(params).Success? {
        Read(params);
      }
    }
  }

  /** A list of init images holding a file name where an image or `null` belongs is rejected before any request is made. */
  lemma BadInitImageRejected(client: PixelLabClient, params: Value, exchange: Exchange, i: nat)
    requires Get(params, "initImages").Arr? && i < |Get(params, "initImages").items|
    requires Get(params, "initImages").items[i] == Str("boy.png")
    ensures AnimateWithText(client, params, exchange) == Call(None, Failure(ZodError))
  {
    assert OptionalNullableInstances(Get(params, "initImages")).Failure?;
    assert Validate(params).Failure? by {
      if Validate(params).Success? {
        Read(params);
      }
    }
  }

  /** Parameters giving only the required fields: a 64x64 "knight" that should "walk", from a reference image. */
  function TestParams(img: Base64Image): Value {
    Obj(map[
      "imageSize" := ImageSize(64.0, 64.0).ToValue(),
      "description" := Str("knight"),
      "action" := Str("walk"),
      "referenceImage" := img.AsValue()
    ])
  }

  /** What validation makes of them: every other field takes its default or stays unset. */
  function TestValidated(img: Base64Image): Params {
    Params(ImageSize(64.0, 64.0), "knight", "walk", img, CameraView.Side, Direction.East, None, 7.5, 1.5, 4.0, 0.0,
           None, 300.0, None, None, None, 0.0)
  }

  /** The required fields alone are accepted, with the defaults filled in. */
  lemma TestParamsAccepted(img: Base64Image)
    ensures Validate(TestParams(img)) == Success(TestValidated(img))
  {
    TestParamsGive(img);
    Accepted(TestParams(img), TestValidated(img));
  }

  /** Field by field, the test parameters give the validated ones. */
  lemma TestParamsGive(img: Base64Image)
    ensures Gives(TestParams(img), TestValidated(img))
  {
    TestFieldsGiven(img);
    TestDefaultsTaken0(img);
    TestDefaultsTaken1(img);
    TestDefaultsTaken2(img);
  }

  /** The four required fields are read as given. */
  lemma TestFieldsGiven(img: Base64Image)
    ensures var v, p := TestParams(img), TestValidated(img);
      ParseImageSize(Get(v, "imageSize")) == Success(p.imageSize) &&
      Get(v, "description") == Str(p.description) &&
      Get(v, "action") == Str(p.action) &&
      Get(v, "referenceImage") == p.referenceImage.AsValue()
  {
    ImageSizeRoundTrip(ImageSize(64.0, 64.0));
  }

  /** The fields the test leaves out take their defaults or stay unset. */
  lemma TestDefaultsTaken0(img: Base64Image)
    ensures var v, p := TestParams(img), TestValidated(img);
      Provided(Get(v, "view"), Str(CameraView.Side.Name())) == Str(p.view.Name()) &&
      Provided(Get(v, "direction"), Str(Direction.East.Name())) == Str(p.direction.Name()) &&
      Get(v, "negativeDescription") == OptStr(p.negativeDescription) &&
      Provided(Get(v, "textGuidanceScale"), Num(7.5)) == Num(p.textGuidanceScale) &&
      Provided(Get(v, "imageGuidanceScale"), Num(1.5)) == Num(p.imageGuidanceScale)
  {
    // A left-out key as long as a given one differs from it at the character shown.
    assert "direction"[0] != "imageSize"[0];
  }

  /** The fields the test leaves out take their defaults or stay unset. */
  lemma TestDefaultsTaken1(img: Base64Image)
    ensures var v, p := TestParams(img), TestValidated(img);
      Provided(Get(v, "nFrames"), Num(4.0)) == Num(p.nFrames) &&
      Provided(Get(v, "startFrameIndex"), Num(0.0)) == Num(p.startFrameIndex) &&
      Get(v, "initImages") == OptNullableInstances(p.initImages) &&
      Provided(Get(v, "initImageStrength"), Num(300.0)) == Num(p.initImageStrength) &&
      Get(v, "inpaintingImages") == OptNullableInstances(p.inpaintingImages)
  {
  }

  /** The fields the test leaves out take their defaults or stay unset. */
  lemma TestDefaultsTaken2(img: Base64Image)
    ensures var v, p := TestParams(img), TestValidated(img);
      Get(v, "maskImages") == OptNullableInstances(p.maskImages) &&
      Get(v, "colorImage") == OptInstance(p.colorImage) &&
      Provided(Get(v, "seed"), Num(0.0)) == Num(p.seed)
  {
  }

  /**
   * Their body: view "side", direction "east", four frames, the inpainting
   * images as four `null`s, no init or mask images, and no negative
   * description.
   */
  lemma TestBody(img: Base64Image)
    ensures var b := Body(TestValidated(img));
      "view" in b && b["view"] == Str("side") &&
      "direction" in b && b["direction"] == Str("east") &&
      "n_frames" in b && b["n_frames"] == Num(4.0) &&
      "text_guidance_scale" in b && b["text_guidance_scale"] == Num(7.5) &&
      "image_guidance_scale" in b && b["image_guidance_scale"] == Num(1.5) &&
      "inpainting_images" in b && b["inpainting_images"] == Arr([Null, Null, Null, Null]) &&
      "init_images" in b && b["init_images"] == Null &&
      "mask_images" in b && b["mask_images"] == Null &&
      "negative_description" !in b
  {
    TestBodySettings(TestValidated(img));
    TestBodyImages(TestValidated(img));
  }

  lemma TestBodySettings(p: Params)
    requires p == TestValidated(p.referenceImage)
    ensures var b := Body(p);
      "view" in b && b["view"] == Str("side") &&
      "direction" in b && b["direction"] == Str("east") &&
      "n_frames" in b && b["n_frames"] == Num(4.0) &&
      "text_guidance_scale" in b && b["text_guidance_scale"] == Num(7.5) &&
      "image_guidance_scale" in b && b["image_guidance_scale"] == Num(1.5)
  {
    ViewSent(p);
    DirectionSent(p);
    FrameCountSent(p);
    TextGuidanceScaleSent(p);
    ImageGuidanceScaleSent(p);
  }

  lemma TestBodyImages(p: Params)
    requires p == TestValidated(p.referenceImage)
    ensures var b := Body(p);
      "inpainting_images" in b && b["inpainting_images"] == Arr([Null, Null, Null, Null]) &&
      "init_images" in b && b["init_images"] == Null &&
      "mask_images" in b && b["mask_images"] == Null &&
      "negative_description" !in b
  {
    InpaintingImagesSent(p);
    InitImagesSent(p);
    MaskImagesSent(p);
    NegativeDescriptionSent(p);
  }
}
