/** `animateWithSkeleton`: animation frames that follow a list of skeleton poses. */
module AnimateWithSkeleton {
  import opened Wrappers
  import opened JsValue
  import opened Zod
  import opened Types
  import opened ImageSizes
  import opened Keypoints
  import opened Base64Images
  import opened Errors
  import opened Client
  import opened Pipeline
  import opened Responses
  import opened RequestBody

  const Path: string := "/animate-with-skeleton"

  /** The validated parameters: defaults filled in, absent options `None`. */
  datatype Params = Params(
    imageSize: ImageSize,
    skeletonKeypoints: seq<SkeletonFrame>,
    view: CameraView,
    direction: Direction,
    referenceGuidanceScale: real,
    poseGuidanceScale: real,
    isometric: bool,
    obliqueProjection: bool,
    initImages: Option<seq<Base64Image>>,
    initImageStrength: real,
    referenceImage: Option<Base64Image>,
    inpaintingImages: Option<seq<Option<Base64Image>>>,
    maskImages: Option<seq<Option<Base64Image>>>,
    colorImage: Option<Base64Image>,
    seed: real)
  {
    /** Every bound of the schema holds, both ends included. */
    predicate Valid() {
      imageSize.InBounds() &&
      1.0 <= referenceGuidanceScale <= 20.0 && 1.0 <= poseGuidanceScale <= 20.0 &&
      0.0 <= initImageStrength <= 1000.0
    }
  }

  /**
   * The parameters object `v` gives the validated parameters `p`: every
   * field of `v` holds the one of `p`, a defaulted field being absent exactly
   * when `p` holds the default in its place; other keys are ignored.
   */
  predicate Gives(v: Value, p: Params) {
    v.Obj? &&
    ParseImageSize(Get(v, "imageSize")) == Success(p.imageSize) &&
    ParseFrames(Get(v, "skeletonKeypoints")) == Success(p.skeletonKeypoints) &&
    Get(v, "view") == Str(p.view.Name()) &&
    Get(v, "direction") == Str(p.direction.Name()) &&
    Provided(Get(v, "referenceGuidanceScale"), Num(1.1)) == Num(p.referenceGuidanceScale) &&
    Provided(Get(v, "poseGuidanceScale"), Num(3.0)) == Num(p.poseGuidanceScale) &&
    Provided(Get(v, "isometric"), Bool(false)) == Bool(p.isometric) &&
    Provided(Get(v, "obliqueProjection"), Bool(false)) == Bool(p.obliqueProjection) &&
    Get(v, "initImages") == OptInstances(p.initImages) &&
    Provided(Get(v, "initImageStrength"), Num(300.0)) == Num(p.initImageStrength) &&
    Get(v, "referenceImage") == OptInstance(p.referenceImage) &&
    Get(v, "inpaintingImages") == OptNullableInstances(p.inpaintingImages) &&
    Get(v, "maskImages") == OptNullableInstances(p.maskImages) &&
    Get(v, "colorImage") == OptInstance(p.colorImage) &&
    Provided(Get(v, "seed"), Num(0.0)) == Num(p.seed)
  }

  /** `AnimateWithSkeletonParamsSchema.parse(params)`. */
  function Validate(v: Value): (r: Parsed<Params>)
    ensures r.Success? ==> r.value.Valid()
  {
    var imageSize := ParseImageSize(Get(v, "imageSize"));
    var skeletonKeypoints := ParseFrames(Get(v, "skeletonKeypoints"));
    var view := RequiredCameraView(Get(v, "view"));
    var direction := RequiredDirection(Get(v, "direction"));
    var referenceGuidanceScale := NumberOr(Get(v, "referenceGuidanceScale"), Some(1.0), Some(20.0), 1.1);
    var poseGuidanceScale := NumberOr(Get(v, "poseGuidanceScale"), Some(1.0), Some(20.0), 3.0);
    var isometric := BooleanOr(Get(v, "isometric"), false);
    var obliqueProjection := BooleanOr(Get(v, "obliqueProjection"), false);
    var initImages := OptionalInstances(Get(v, "initImages"));
    var initImageStrength := NumberOr(Get(v, "initImageStrength"), Some(0.0), Some(1000.0), 300.0);
    var referenceImage := OptionalInstance(Get(v, "referenceImage"));
    var inpaintingImages := OptionalNullableInstances(Get(v, "inpaintingImages"));
    var maskImages := OptionalNullableInstances(Get(v, "maskImages"));
    var colorImage := OptionalInstance(Get(v, "colorImage"));
    var seed := NumberOr(Get(v, "seed"), None, None, 0.0);
    if IsObject(v) && imageSize.Success? && skeletonKeypoints.Success? && view.Success? &&
       direction.Success? && referenceGuidanceScale.Success? && poseGuidanceScale.Success? &&
       isometric.Success? && obliqueProjection.Success? && initImages.Success? && initImageStrength.Success? &&
       referenceImage.Success? && inpaintingImages.Success? && maskImages.Success? && colorImage.Success? &&
       seed.Success?
    then
      var p := Params(imageSize.value, skeletonKeypoints.value, view.value, direction.value,
                      referenceGuidanceScale.value, poseGuidanceScale.value, isometric.value,
                      obliqueProjection.value, initImages.value, initImageStrength.value, referenceImage.value,
                      inpaintingImages.value, maskImages.value, colorImage.value, seed.value);
      assert p.imageSize.InBounds() && 1.0 <= p.referenceGuidanceScale <= 20.0;
      Success(p)
    else Failure(SchemaError)
  }

  /** Whatever is accepted is read field by field, defaults filled in. */
  lemma Read(v: Value)
    requires Validate(v).Success?
    ensures Gives(v, Validate(v).value)
  {
  }

  /** An object giving parameters within their bounds is accepted and read into exactly those parameters. */
  lemma Accepted(v: Value, p: Params)
    requires Gives(v, p) && p.Valid()
    ensures Validate(v) == Success(p)
  {
    NumbersRead(v, p);
    ChoicesRead(v, p);
    ImagesRead(v, p);
  }

  /** The size, the frames and the numeric fields are read as given, defaults filled in. */
  lemma NumbersRead(v: Value, p: Params)
    requires Gives(v, p) && p.Valid()
    ensures ParseImageSize(Get(v, "imageSize")) == Success(p.imageSize)
    ensures ParseFrames(Get(v, "skeletonKeypoints")) == Success(p.skeletonKeypoints)
    ensures NumberOr(Get(v, "referenceGuidanceScale"), Some(1.0), Some(20.0), 1.1) == Success(p.referenceGuidanceScale)
    ensures NumberOr(Get(v, "poseGuidanceScale"), Some(1.0), Some(20.0), 3.0) == Success(p.poseGuidanceScale)
    ensures NumberOr(Get(v, "initImageStrength"), Some(0.0), Some(1000.0), 300.0) == Success(p.initImageStrength)
    ensures NumberOr(Get(v, "seed"), None, None, 0.0) == Success(p.seed)
  {
    NumberOrRoundTrip(Get(v, "referenceGuidanceScale"), Some(1.0), Some(20.0), 1.1, p.referenceGuidanceScale);
    NumberOrRoundTrip(Get(v, "poseGuidanceScale"), Some(1.0), Some(20.0), 3.0, p.poseGuidanceScale);
    NumberOrRoundTrip(Get(v, "initImageStrength"), Some(0.0), Some(1000.0), 300.0, p.initImageStrength);
    NumberOrRoundTrip(Get(v, "seed"), None, None, 0.0, p.seed);
  }

  /** The view, the direction and the flags are read as given, defaults filled in. */
  lemma ChoicesRead(v: Value, p: Params)
    requires Gives(v, p) && p.Valid()
    ensures RequiredCameraView(Get(v, "view")) == Success(p.view)
    ensures RequiredDirection(Get(v, "direction")) == Success(p.direction)
    ensures BooleanOr(Get(v, "isometric"), false) == Success(p.isometric)
    ensures BooleanOr(Get(v, "obliqueProjection"), false) == Success(p.obliqueProjection)
  {
    RequiredCameraViewRoundTrip(p.view);
    RequiredDirectionRoundTrip(p.direction);
    BooleanOrRoundTrip(Get(v, "isometric"), false, p.isometric);
    BooleanOrRoundTrip(Get(v, "obliqueProjection"), false, p.obliqueProjection);
  }

  /** The images and image lists are read as given, absent ones as absent. */
  lemma ImagesRead(v: Value, p: Params)
    requires Gives(v, p) && p.Valid()
    ensures OptionalInstances(Get(v, "initImages")) == Success(p.initImages)
    ensures OptionalInstance(Get(v, "referenceImage")) == Success(p.referenceImage)
    ensures OptionalNullableInstances(Get(v, "inpaintingImages")) == Success(p.inpaintingImages)
    ensures OptionalNullableInstances(Get(v, "maskImages")) == Success(p.maskImages)
    ensures OptionalInstance(Get(v, "colorImage")) == Success(p.colorImage)
  {
    OptionalInstancesRoundTrip(p.initImages);
    OptionalInstanceRoundTrip(p.referenceImage);
    OptionalNullableInstancesRoundTrip(p.inpaintingImages);
    OptionalNullableInstancesRoundTrip(p.maskImages);
    OptionalInstanceRoundTrip(p.colorImage);
  }

  /**
   * The keys of the `requestData` literal, in source order: every field under
   * its snake_case name (listed eight at a time).
   */
  const Keys: seq<string> := Keys0 + Keys1
  const Keys0: seq<string> := [
    "image_size", "reference_guidance_scale", "pose_guidance_scale", "view", "direction", "isometric",
    "oblique_projection", "init_images"
  ]
  const Keys1: seq<string> := [
    "init_image_strength", "skeleton_keypoints", "reference_image", "inpainting_images", "mask_images",
    "color_image", "seed"
  ]

  /** The values of the `requestData` literal, listed with their keys. */
  function Values(p: Params): (vs: seq<Value>)
    ensures |vs| == |Keys|
  {
    Values0(p) + Values1(p)
  }

  /** The values listed with `Keys0`. */
  function Values0(p: Params): (vs: seq<Value>)
    ensures |vs| == |Keys0|
  {
    [
      p.imageSize.ToValue(),
      Num(p.referenceGuidanceScale),
      Num(p.poseGuidanceScale),
      Str(p.view.Name()),
      Str(p.direction.Name()),
      Bool(p.isometric),
      Bool(p.obliqueProjection),
      DumpAllOrNull(p.initImages)
    ]
  }

  /** The values listed with `Keys1`. */
  function Values1(p: Params): (vs: seq<Value>)
    ensures |vs| == |Keys1|
  {
    [
      Num(p.initImageStrength),
      Arr(FrameValues(p.skeletonKeypoints)),
      DumpOrNull(p.referenceImage),
      DumpEachOrNull(p.inpaintingImages),
      DumpEachOrNull(p.maskImages),
      DumpOrNull(p.colorImage),
      Num(p.seed)
    ]
  }

  /** `requestData`: an object with exactly the listed keys. */
  function RequestData(p: Params): (r: Value)
    ensures r.Obj? && r.props.Keys == set i | 0 <= i < |Keys| :: Keys[i]
  {
    ObjectOfKeys(Keys, Values(p));
    Obj(ObjectOf(Keys, Values(p)))
  }

  /**
   * The JSON object sent: `JSON.stringify(requestData)`, which keeps exactly
   * the keys whose value is not `undefined`.
   */
  function Body(p: Params): (r: map<string, Value>)
    ensures forall k :: k in r <==> k in RequestData(p).props && RequestData(p).props[k] != Undefined
  {
    Stringify(RequestData(p)).props
  }

  /** The rename is one-to-one: no snake_case key is used for two fields. */
  lemma KeysDistinct()
    ensures Distinct(Keys)
  {
  }

  /** The key `k` listed at position `i` with the value `x` is in the body as `x`, unless `x` is `undefined`. */
  lemma SentAt(p: Params, i: nat, k: string, x: Value)
    requires i < |Keys| && Keys[i] == k && Values(p)[i] == x && (x == Undefined || IsJson(x))
    ensures k in Body(p) <==> x != Undefined
    ensures x != Undefined ==> Body(p)[k] == x
  {
    KeysDistinct();
    Sent(Keys, Values(p), i, k, x);
  }

  /** The body has no key other than the fifteen snake_case names. */
  lemma Renamed(p: Params)
    ensures Body(p).Keys <= set i | 0 <= i < |Keys| :: Keys[i]
  {
    SentKeys(Keys, Values(p));
  }

  /** The size is always sent under `image_size`, as the validated `{width, height}`. */
  lemma ImageSizeSent(p: Params)
    ensures "image_size" in Body(p) && Body(p)["image_size"] == p.imageSize.ToValue()
  {
    SentAt(p, 0, "image_size", p.imageSize.ToValue());
  }

  /** The reference guidance scale, 1.1 by default, is always sent under `reference_guidance_scale`. */
  lemma ReferenceGuidanceScaleSent(p: Params)
    ensures "reference_guidance_scale" in Body(p) && Body(p)["reference_guidance_scale"] == Num(p.referenceGuidanceScale)
  {
    SentAt(p, 1, "reference_guidance_scale", Num(p.referenceGuidanceScale));
  }

  /** The pose guidance scale, 3 by default, is always sent under `pose_guidance_scale`. */
  lemma PoseGuidanceScaleSent(p: Params)
    ensures "pose_guidance_scale" in Body(p) && Body(p)["pose_guidance_scale"] == Num(p.poseGuidanceScale)
  {
    SentAt(p, 2, "pose_guidance_scale", Num(p.poseGuidanceScale));
  }

  /** The required view is always sent under `view` as its literal. */
  lemma ViewSent(p: Params)
    ensures "view" in Body(p) && Body(p)["view"] == Str(p.view.Name())
  {
    SentAt(p, 3, "view", Str(p.view.Name()));
  }

  /** The required direction is always sent under `direction` as its literal. */
  lemma DirectionSent(p: Params)
    ensures "direction" in Body(p) && Body(p)["direction"] == Str(p.direction.Name())
  {
    SentAt(p, 4, "direction", Str(p.direction.Name()));
  }

  /** The isometric flag, false by default, is always sent under `isometric`. */
  lemma IsometricSent(p: Params)
    ensures "isometric" in Body(p) && Body(p)["isometric"] == Bool(p.isometric)
  {
    SentAt(p, 5, "isometric", Bool(p.isometric));
  }

  /** The oblique projection flag, false by default, is always sent under `oblique_projection`. */
  lemma ObliqueProjectionSent(p: Params)
    ensures "oblique_projection" in Body(p) && Body(p)["oblique_projection"] == Bool(p.obliqueProjection)
  {
    SentAt(p, 6, "oblique_projection", Bool(p.obliqueProjection));
  }

  /** Absent init images are sent as `null`; a present list as the wire forms of its images, in order (no element is `null`). */
  lemma InitImagesSent(p: Params)
    ensures "init_images" in Body(p)
    ensures p.initImages.None? ==> Body(p)["init_images"] == Null
    ensures p.initImages.Some? ==>
      Body(p)["init_images"].Arr? && |Body(p)["init_images"].items| == |p.initImages.value| &&
      forall i :: 0 <= i < |p.initImages.value| ==>
        Body(p)["init_images"].items[i] == ImageJson(p.initImages.value[i].base64, p.initImages.value[i].format)
  {
    SentAt(p, 7, "init_images", DumpAllOrNull(p.initImages));
  }

  /** The init image strength, 300 by default, is always sent under `init_image_strength`. */
  lemma InitImageStrengthSent(p: Params)
    ensures "init_image_strength" in Body(p) && Body(p)["init_image_strength"] == Num(p.initImageStrength)
  {
    SentAt(p, 8, "init_image_strength", Num(p.initImageStrength));
  }

  /** The frames are always sent under `skeleton_keypoints` as validated: frame order and keypoint order kept, every `zIndex` filled in. */
  lemma SkeletonKeypointsSent(p: Params)
    ensures "skeleton_keypoints" in Body(p)
    ensures Body(p)["skeleton_keypoints"].Arr? && |Body(p)["skeleton_keypoints"].items| == |p.skeletonKeypoints|
    ensures forall i :: 0 <= i < |p.skeletonKeypoints| ==>
      Body(p)["skeleton_keypoints"].items[i] == Obj(map["keypoints" := Arr(KeypointValues(p.skeletonKeypoints[i].keypoints))])
  {
    var frames := Arr(FrameValues(p.skeletonKeypoints));
    assert Values(p)[9] == Values1(p)[1] == frames;
    assert IsJson(frames);
    SentAt(p, 9, "skeleton_keypoints", frames);
  }

  /** An absent reference image is sent as `null`, a present one as its wire form. */
  lemma ReferenceImageSent(p: Params)
    ensures "reference_image" in Body(p)
    ensures p.referenceImage.None? ==> Body(p)["reference_image"] == Null
    ensures p.referenceImage.Some? ==> Body(p)["reference_image"] == ImageJson(p.referenceImage.value.base64, p.referenceImage.value.format)
  {
    SentAt(p, 10, "reference_image", DumpOrNull(p.referenceImage));
  }

  /** Absent inpainting images (there is no default list here) are sent as `null`; a present list element by element, keeping its length, order and `null` places. */
  lemma InpaintingImagesSent(p: Params)
    ensures "inpainting_images" in Body(p)
    ensures p.inpaintingImages.None? ==> Body(p)["inpainting_images"] == Null
    ensures p.inpaintingImages.Some? ==> Body(p)["inpainting_images"] == Arr(DumpEach(p.inpaintingImages.value))
  {
    SentAt(p, 11, "inpainting_images", DumpEachOrNull(p.inpaintingImages));
  }

  /** Absent mask images are sent as `null`; a present list element by element, keeping its length, order and `null` places. */
  lemma MaskImagesSent(p: Params)
    ensures "mask_images" in Body(p)
    ensures p.maskImages.None? ==> Body(p)["mask_images"] == Null
    ensures p.maskImages.Some? ==> Body(p)["mask_images"] == Arr(DumpEach(p.maskImages.value))
  {
    SentAt(p, 12, "mask_images", DumpEachOrNull(p.maskImages));
  }

  /** An absent color image is sent as `null`, a present one as its wire form. */
  lemma ColorImageSent(p: Params)
    ensures "color_image" in Body(p)
    ensures p.colorImage.None? ==> Body(p)["color_image"] == Null
    ensures p.colorImage.Some? ==> Body(p)["color_image"] == ImageJson(p.colorImage.value.base64, p.colorImage.value.format)
  {
    SentAt(p, 13, "color_image", DumpOrNull(p.colorImage));
  }

  /** The seed, 0 by default, is always sent under `seed`. */
  lemma SeedSent(p: Params)
    ensures "seed" in Body(p) && Body(p)["seed"] == Num(p.seed)
  {
    SentAt(p, 14, "seed", Num(p.seed));
  }


  /**
   * `client.animateWithSkeleton(params)`: invalid parameters throw the raw
   * `ZodError` and nothing is sent; otherwise the body is posted to the
   * operation's path and the answer read as `{images, usage}`, every image rebuilt with `fromData`, in order.
   */
  function AnimateWithSkeleton(client: PixelLabClient, params: Value, exchange: Exchange): (c: Call<ImagesResult>)
    ensures c.sent.None? <==> Validate(params).Failure?
    ensures c.sent.None? ==> c.outcome == Failure(ZodError)
    ensures c.sent.Some? ==>
      c.sent.value.verb == POST && c.sent.value.url == client.Url(Path) &&
      c.sent.value.body == Some(Obj(Body(Validate(params).value)))
    ensures c.sent.Some? ==> c.outcome == Receive(exchange, ParseImagesResult)
  {
    PostCall(client, Path, Validate, RequestData, ParseImagesResult, params, exchange)
  }

  /** Parameters without skeleton frames throw the raw `ZodError` before any request is made. */
  lemma FramesRequired(client: PixelLabClient, params: Value, exchange: Exchange)
    requires Get(params, "skeletonKeypoints") == Undefined
    ensures AnimateWithSkeleton(client, params, exchange) == Call(None, Failure(ZodError))
  {
    assert ParseFrames(Get(params, "skeletonKeypoints")).Failure?;
    assert Validate(params).Failure? by {
      if Validate(params).Success? {
        Read(params);
      }
    }
  }

  /** Parameters without a view throw the raw `ZodError`: the view has no default here. */
  lemma ViewRequired(client: PixelLabClient, params: Value, exchange: Exchange)
    requires Get(params, "view") == Undefined
    ensures AnimateWithSkeleton(client, params, exchange) == Call(None, Failure(ZodError))
  {
    assert RequiredCameraView(Get(params, "view")).Failure?;
    assert Validate(params).Failure? by {
      if Validate(params).Success? {
        Read(params);
      }
    }
  }

  /** Parameters without a direction throw the raw `ZodError`: the direction has no default here. */
  lemma DirectionRequired(client: PixelLabClient, params: Value, exchange: Exchange)
    requires Get(params, "direction") == Undefined
    ensures AnimateWithSkeleton(client, params, exchange) == Call(None, Failure(ZodError))
  {
    assert RequiredDirection(Get(params, "direction")).Failure?;
    assert Validate(params).Failure? by {
      if Validate(params).Success? {
        Read(params);
      }
    }
  }

  /** A single frame where a list of frames is expected is rejected before any request is made. */
  lemma SingleFrameNotSent(client: PixelLabClient, params: Value, exchange: Exchange)
    requires Get(params, "skeletonKeypoints").Obj?
    ensures AnimateWithSkeleton(client, params, exchange) == Call(None, Failure(ZodError))
  {
    assert ParseFrames(Get(params, "skeletonKeypoints")).Failure?;
    assert Validate(params).Failure? by {
      if Validate(params).Success? {
        Read(params);
      }
    }
  }

  /** Parameters giving only the required fields: a 64x64 animation seen from the side, facing south, along the frames `fs`. */
  function TestParams(fs: seq<SkeletonFrame>): Value {
    Obj(map[
      "imageSize" := ImageSize(64.0, 64.0).ToValue(),
      "skeletonKeypoints" := Arr(FrameValues(fs)),
      "view" := Str("side"),
      "direction" := Str("south")
    ])
  }

  /** What validation makes of them: every other field takes its default or stays unset. */
  function TestValidated(fs: seq<SkeletonFrame>): Params {
    Params(ImageSize(64.0, 64.0), fs, CameraView.Side, Direction.South, 1.1, 3.0, false, false, None, 300.0, None, None, None,
           None, 0.0)
  }

  /** The required fields alone are accepted, with the defaults filled in. */
  lemma TestParamsAccepted(fs: seq<SkeletonFrame>)
    ensures Validate(TestParams(fs)) == Success(TestValidated(fs))
  {
    TestParamsGive(fs);
    Accepted(TestParams(fs), TestValidated(fs));
  }

  /** Field by field, the test parameters give the validated ones. */
  lemma TestParamsGive(fs: seq<SkeletonFrame>)
    ensures Gives(TestParams(fs), TestValidated(fs))
  {
    TestFieldsGiven0(fs);
    TestFieldsGiven1(fs);
    TestFieldsGiven2(fs);
    TestFieldsGiven3(fs);
    TestDefaultsTaken0(fs);
    TestDefaultsTaken1(fs);
  }

  /** The four required fields are read as given. */
  lemma TestFieldsGiven0(fs: seq<SkeletonFrame>)
    ensures var v, p := TestParams(fs), TestValidated(fs);
      ParseImageSize(Get(v, "imageSize")) == Success(p.imageSize)
  {
    ImageSizeRoundTrip(ImageSize(64.0, 64.0));
  }

  /** The four required fields are read as given. */
  lemma TestFieldsGiven1(fs: seq<SkeletonFrame>)
    ensures var v, p := TestParams(fs), TestValidated(fs);
      ParseFrames(Get(v, "skeletonKeypoints")) == Success(p.skeletonKeypoints)
  {
    FramesRoundTrip(fs);
  }

  /** The four required fields are read as given. */
  lemma TestFieldsGiven2(fs: seq<SkeletonFrame>)
    ensures var v, p := TestParams(fs), TestValidated(fs);
      Get(v, "view") == Str(p.view.Name())
  {
  }

  /** The four required fields are read as given. */
  lemma TestFieldsGiven3(fs: seq<SkeletonFrame>)
    ensures var v, p := TestParams(fs), TestValidated(fs);
      Get(v, "direction") == Str(p.direction.Name())
  {
  }

  /** The fields the test leaves out take their defaults or stay unset. */
  lemma TestDefaultsTaken0(fs: seq<SkeletonFrame>)
    ensures var v, p := TestParams(fs), TestValidated(fs);
      Provided(Get(v, "referenceGuidanceScale"), Num(1.1)) == Num(p.referenceGuidanceScale) &&
      Provided(Get(v, "poseGuidanceScale"), Num(3.0)) == Num(p.poseGuidanceScale) &&
      Provided(Get(v, "isometric"), Bool(false)) == Bool(p.isometric) &&
      Provided(Get(v, "obliqueProjection"), Bool(false)) == Bool(p.obliqueProjection) &&
      Get(v, "initImages") == OptInstances(p.initImages) &&
      Provided(Get(v, "initImageStrength"), Num(300.0)) == Num(p.initImageStrength)
  {
    // A left-out key as long as a given one differs from it at the character shown.
    assert "poseGuidanceScale"[0] != "skeletonKeypoints"[0];
    assert "isometric"[1] != "imageSize"[1];
    assert "isometric"[0] != "direction"[0];
    assert "obliqueProjection"[0] != "skeletonKeypoints"[0];
    assert "initImageStrength"[0] != "skeletonKeypoints"[0];
  }

  /** The fields the test leaves out take their defaults or stay unset. */
  lemma TestDefaultsTaken1(fs: seq<SkeletonFrame>)
    ensures var v, p := TestParams(fs), TestValidated(fs);
      Get(v, "referenceImage") == OptInstance(p.referenceImage) &&
      Get(v, "inpaintingImages") == OptNullableInstances(p.inpaintingImages) &&
      Get(v, "maskImages") == OptNullableInstances(p.maskImages) &&
      Get(v, "colorImage") == OptInstance(p.colorImage) &&
      Provided(Get(v, "seed"), Num(0.0)) == Num(p.seed)
  {
    // A left-out key as long as a given one differs from it at the character shown.
    assert "seed"[0] != "view"[0];
  }

  /**
   * Their body: the guidance scales at 1.1 and 3, the frames as given, and
   * every absent image or image list as `null` (no four-`null` default).
   */
  lemma TestBody(fs: seq<SkeletonFrame>)
    ensures var b := Body(TestValidated(fs));
      "reference_guidance_scale" in b && b["reference_guidance_scale"] == Num(1.1) &&
      "pose_guidance_scale" in b && b["pose_guidance_scale"] == Num(3.0) &&
      "view" in b && b["view"] == Str("side") &&
      "direction" in b && b["direction"] == Str("south") &&
      "skeleton_keypoints" in b && b["skeleton_keypoints"] == Arr(FrameValues(fs)) &&
      "init_images" in b && b["init_images"] == Null &&
      "inpainting_images" in b && b["inpainting_images"] == Null &&
      "mask_images" in b && b["mask_images"] == Null &&
      "reference_image" in b && b["reference_image"] == Null &&
      "color_image" in b && b["color_image"] == Null
  {
    var p := TestValidated(fs);
    ReferenceGuidanceScaleSent(p);
    PoseGuidanceScaleSent(p);
    ViewSent(p);
    DirectionSent(p);
    SkeletonKeypointsSent(p);
    InitImagesSent(p);
    InpaintingImagesSent(p);
    MaskImagesSent(p);
    ReferenceImageSent(p);
    ColorImageSent(p);
  }
}
