/** `ImageSize` and its schema: a required width and height, each between 1 and 1024 inclusive. */
module ImageSizes {
  import opened Wrappers
  import opened JsValue
  import opened Zod

  /** The requested size of a generated image, in pixels. */
  datatype ImageSize = ImageSize(width: real, height: real)
  {
    /** The plain object `{width, height}`, as it is validated and sent. */
    function ToValue(): (v: Value)
      ensures IsJson(v)
    {
      Obj(map["width" := Num(width), "height" := Num(height)])
    }

    /** Both sides within the schema's bounds. */
    predicate InBounds() {
      MinSide <= width <= MaxSide && MinSide <= height <= MaxSide
    }
  }

  /** The bounds each side is checked against. */
  const MinSide: real := 1.0
  const MaxSide: real := 1024.0

  /** `ImageSizeSchema`. */
  const ImageSizeSchema: Schema := ObjectSchema(map[
    "width" := NumberSchema(Some(MinSide), Some(MaxSide)),
    "height" := NumberSchema(Some(MinSide), Some(MaxSide))
  ])

  /** `ImageSizeSchema.parse(v)`, read into an `ImageSize`. */
  function ParseImageSize(v: Value): (r: Parsed<ImageSize>)
    ensures r.Success? ==> IsObject(v) && Get(v, "width") == Num(r.value.width) && Get(v, "height") == Num(r.value.height)
    ensures r.Success? ==> r.value.InBounds()
  {
    var w := Number(Get(v, "width"), Some(MinSide), Some(MaxSide));
    var h := Number(Get(v, "height"), Some(MinSide), Some(MaxSide));
    if IsObject(v) && w.Success? && h.Success? then Success(ImageSize(w.value, h.value)) else Failure(SchemaError)
  }

  /** `ParseImageSize` succeeds exactly on what the schema admits, and reads what the schema outputs. */
  lemma ImageSizeAgrees(v: Value)
    ensures ParseImageSize(v).Success? <==> Admits(ImageSizeSchema, v)
    ensures ParseImageSize(v).Success? ==> ParseImageSize(v).value.ToValue() == Output(ImageSizeSchema, v)
  {
    if ParseImageSize(v).Success? {
      assert Output(ImageSizeSchema, v).props == ParseImageSize(v).value.ToValue().props;
    }
  }

  /**
   * A size is accepted exactly when both sides are present numbers within
   * 1..1024, both bounds included; there is no default for either side.
   */
  lemma ImageSizeAccepted(v: Value)
    ensures Admits(ImageSizeSchema, v) <==>
      IsObject(v) &&
      Get(v, "width").Num? && 1.0 <= Get(v, "width").n <= 1024.0 &&
      Get(v, "height").Num? && 1.0 <= Get(v, "height").n <= 1024.0
  {
  }

  /** A missing side is rejected, whatever the other side is. */
  lemma SidesRequired(v: Value)
    requires Get(v, "width") == Undefined || Get(v, "height") == Undefined
    ensures ParseImageSize(v).Failure?
  {
  }

  /** No integer constraint: 16.5 x 1 is accepted and kept as it is. */
  lemma FractionalSideAccepted()
    ensures ParseImageSize(ImageSize(16.5, 1.0).ToValue()) == Success(ImageSize(16.5, 1.0))
  {
  }

  /** Parsing a size in range gives it back (validating twice changes nothing). */
  lemma ImageSizeRoundTrip(s: ImageSize)
    requires s.InBounds()
    ensures ParseImageSize(s.ToValue()) == Success(s)
  {
  }
}
