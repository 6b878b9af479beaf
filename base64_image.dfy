/**
 * The `Base64Image` value object: an image held as base64 text and a format
 * name, its wire form `{type: "base64", base64, format}` and the schema that
 * reads that wire form back.
 */
module Base64Images {
  import opened Wrappers
  import opened JsValue
  import opened Zod
  import opened Base64

  /** The format an image gets when none is given. */
  const DefaultFormat: string := "png"

  /** The wire form of an image (`Base64ImageData`); its `type` is always "base64". */
  datatype ImageData = ImageData(base64: string, format: string)
  {
    /** The plain object `{type: "base64", base64, format}`. */
    function ToValue(): Value {
      ImageJson(base64, format)
    }
  }

  /** An image object; both fields are readonly once constructed. */
  datatype Base64Image = Base64Image(base64: string, format: string)
  {
    /** The readonly `type` field. */
    function Type(): string {
      "base64"
    }

    /** `toJSON()`: the wire form, field for field. */
    function ToJson(): (d: ImageData)
      ensures d.ToValue() == Obj(map["type" := Str(Type()), "base64" := Str(base64), "format" := Str(format)])
    {
      ImageData(base64, format)
    }

    /** `modelDump()`, kept for parity with the Python client. */
    function ModelDump(): (d: ImageData)
      ensures d == ToJson()
    {
      ToJson()
    }

    /** `toBuffer()`: the bytes the base64 text decodes to, at most three for every four characters. */
    function ToBuffer(): (b: seq<Byte>)
      ensures |b| <= (3 * |base64|) / 4
    {
      Decode(base64)
    }

    /** The `dataUrl` getter (RFC 2397), which ends with the base64 text. */
    function DataUrl(): (url: string)
      ensures |url| == 19 + |format| + |base64| && url[19 + |format|..] == base64
    {
      "data:image/" + format + ";base64," + base64
    }

    /**
     * The `size` getter: the byte count estimated from the text's length and
     * padding, never below the number of bytes `toBuffer()` gives.
     */
    function Size(): (n: nat)
      ensures |ToBuffer()| <= n <= (3 * |base64|) / 4
    {
      ByteLengthBound(base64);
      ByteLength(base64)
    }

    /** The object as a JavaScript value, which `z.instanceof(Base64Image)` accepts. */
    function AsValue(): Value {
      ImageInstance(base64, format)
    }
  }

  /** `new Base64Image(base64, format)`: an omitted format becomes "png". */
  function New(base64: string, format: Option<string>): (img: Base64Image)
    ensures img.base64 == base64
    ensures format.None? ==> img.format == DefaultFormat
    ensures format.Some? ==> img.format == format.value
  {
    Base64Image(base64, if format.Some? then format.value else DefaultFormat)
  }

  /**
   * `Base64Image.fromBuffer(buffer, format)`: `toBuffer()` gives the bytes
   * back (RFC 4648, section 4), `size` counts them, and the format is kept.
   */
  function FromBuffer(buffer: seq<Byte>, format: Option<string>): (img: Base64Image)
    ensures img.ToBuffer() == buffer && img.Size() == |buffer|
    ensures format.None? ==> img.format == DefaultFormat
    ensures format.Some? ==> img.format == format.value
  {
    DecodeEncode(buffer);
    ByteLengthEncode(buffer);
    New(Encode(buffer), format)
  }

  /** `Base64Image.fromData(data)`: `toJSON()` gives `data` back. */
  function FromData(data: ImageData): (img: Base64Image)
    ensures img.ToJson() == data
  {
    New(data.base64, Some(data.format))
  }

  /** ASCII lower-casing, character by character. */
  function Lower(s: string): (r: string)
    ensures |r| == |s|
    ensures forall i :: 0 <= i < |s| ==> r[i] == LowerChar(s[i])
  {
    if |s| == 0 then "" else [LowerChar(s[0])] + Lower(s[1..])
  }

  function LowerChar(c: char): char {
    if 'A' <= c <= 'Z' then (c as int + 32) as char else c
  }

  /**
   * The format `fromFile` derives from the extension `path.extname` returns:
   * the extension without its leading dot, lower-cased, or "png" when that
   * leaves nothing.
   */
  function FormatOfExtension(extname: string): (format: string)
    ensures format != ""
    ensures forall i :: 0 <= i < |format| ==> !('A' <= format[i] <= 'Z')
    ensures |extname| <= 1 ==> format == DefaultFormat
    ensures |extname| > 1 ==> format == Lower(extname[1..])
  {
    var ext := if |extname| == 0 then "" else Lower(extname[1..]);
    if ext != "" then ext else DefaultFormat
  }

  /**
   * `Base64Image.fromFile(path)`, given the file's bytes and the path's
   * extension: `toBuffer()` gives the file's bytes back and `size` counts them.
   */
  function FromFile(contents: seq<Byte>, extname: string): (img: Base64Image)
    ensures img.ToBuffer() == contents && img.Size() == |contents|
    ensures img.format != "" && (|extname| <= 1 ==> img.format == DefaultFormat)
  {
    DecodeEncode(contents);
    ByteLengthEncode(contents);
    Base64Image(Encode(contents), FormatOfExtension(extname))
  }

  /** `Base64ImageSchema`. */
  const Base64ImageSchema: Schema := ObjectSchema(map[
    "type" := LiteralSchema("base64"),
    "base64" := StringSchema(0, None),
    "format" := DefaultSchema(StringSchema(0, None), Str(DefaultFormat))
  ])

  /** The image schema of every operation's response, whose format is `.optional().default("png")`. */
  const ResponseImageSchema: Schema := ObjectSchema(map[
    "type" := LiteralSchema("base64"),
    "base64" := StringSchema(0, None),
    "format" := DefaultSchema(OptionalSchema(StringSchema(0, None)), Str(DefaultFormat))
  ])

  /** Reads the wire form of an image; a missing format becomes "png". */
  function ParseImageData(v: Value): (r: Parsed<ImageData>)
    ensures r.Success? <==> Admits(Base64ImageSchema, v)
    ensures r.Success? ==> r.value.ToValue() == Output(Base64ImageSchema, v)
  {
    ImageDataFields(v);
    var t := Literal(Get(v, "type"), "base64");
    var b := Text(Get(v, "base64"), 0, None);
    var f := TextOr(Get(v, "format"), DefaultFormat);
    if IsObject(v) && t.Success? && b.Success? && f.Success? then Success(ImageData(b.value, f.value))
    else Failure(SchemaError)
  }

  /** The three fields, read one by one, are what `Base64ImageSchema` admits and outputs. */
  lemma ImageDataFields(v: Value)
    ensures var t, b, f := Literal(Get(v, "type"), "base64"), Text(Get(v, "base64"), 0, None),
                           TextOr(Get(v, "format"), DefaultFormat);
      (IsObject(v) && t.Success? && b.Success? && f.Success? <==> Admits(Base64ImageSchema, v)) &&
      (IsObject(v) && t.Success? && b.Success? && f.Success? ==>
         ImageData(b.value, f.value).ToValue() == Output(Base64ImageSchema, v))
  {
    var t := Literal(Get(v, "type"), "base64");
    var b := Text(Get(v, "base64"), 0, None);
    var f := TextOr(Get(v, "format"), DefaultFormat);
    LiteralAgrees(Get(v, "type"), "base64");
    TextAgrees(Get(v, "base64"), 0, None);
    TextOrAgrees(Get(v, "format"), DefaultFormat);
    ThreeFields("type", LiteralSchema("base64"), "base64", StringSchema(0, None),
                "format", DefaultSchema(StringSchema(0, None), Str(DefaultFormat)), v);
  }

  /** The response image schema accepts and produces exactly what `Base64ImageSchema` does. */
  lemma ResponseImageSchemaAgrees(v: Value)
    ensures Admits(ResponseImageSchema, v) <==> Admits(Base64ImageSchema, v)
    ensures Admits(ResponseImageSchema, v) ==> Output(ResponseImageSchema, v) == Output(Base64ImageSchema, v)
  {
    FormatFieldAgrees(Get(v, "format"));
    ThreeFields("type", LiteralSchema("base64"), "base64", StringSchema(0, None),
                "format", DefaultSchema(StringSchema(0, None), Str(DefaultFormat)), v);
    ThreeFields("type", LiteralSchema("base64"), "base64", StringSchema(0, None),
                "format", DefaultSchema(OptionalSchema(StringSchema(0, None)), Str(DefaultFormat)), v);
  }

  /** Since the default fills an absent format first, `.optional()` in front of it changes nothing. */
  lemma FormatFieldAgrees(f: Value)
    ensures Admits(DefaultSchema(OptionalSchema(StringSchema(0, None)), Str(DefaultFormat)), f)
        <==> Admits(DefaultSchema(StringSchema(0, None), Str(DefaultFormat)), f)
    ensures Output(DefaultSchema(OptionalSchema(StringSchema(0, None)), Str(DefaultFormat)), f)
        == Output(DefaultSchema(StringSchema(0, None), Str(DefaultFormat)), f)
  {
    assert Provided(f, Str(DefaultFormat)) != Undefined;
  }

  /** An image's `type` is the literal "base64", on the object and in its wire form. */
  lemma TypeIsBase64(img: Base64Image)
    ensures Get(img.AsValue(), "type") == Str("base64")
    ensures Get(img.ToJson().ToValue(), "type") == Str("base64")
  {
  }

  /** `fromData(img.toJSON())` is `img`, and `fromData(d).toJSON()` is `d`. */
  lemma FromDataToJson(img: Base64Image, d: ImageData)
    ensures FromData(img.ToJson()) == img
    ensures FromData(d).ToJson() == d
  {
  }

  /** `JSON.stringify` writes an image through `toJSON()`. */
  lemma StringifyImage(img: Base64Image)
    ensures Stringify(img.AsValue()) == img.ModelDump().ToValue()
  {
  }

  /** An optional image as a caller passes it: the object, or `undefined`. */
  function OptInstance(img: Option<Base64Image>): (v: Value)
    ensures img.None? <==> v == Undefined
    ensures img.Some? ==> v == img.value.AsValue()
  {
    if img.Some? then img.value.AsValue() else Undefined
  }

  /** `z.instanceof(Base64Image)`: only an image object passes, and it is kept as it is. */
  function Instance(v: Value): (r: Parsed<Base64Image>)
    ensures r.Success? <==> Admits(InstanceOfImage, v)
    ensures r.Success? ==> r.value.AsValue() == v && Output(InstanceOfImage, v) == v
  {
    if v.ImageInstance? then Success(Base64Image(v.base64, v.format)) else Failure(SchemaError)
  }

  /** An image object is read as itself. */
  lemma InstanceRoundTrip(img: Base64Image)
    ensures Instance(img.AsValue()) == Success(img)
  {
  }

  /** `z.instanceof(Base64Image).optional()`: absent stays absent. */
  function OptionalInstance(v: Value): (r: Parsed<Option<Base64Image>>)
    ensures r.Success? ==> (r.value.None? <==> v == Undefined)
    ensures r.Success? && r.value.Some? ==> r.value.value.AsValue() == v
  {
    if v.Undefined? then Success(None)
    else
      var img :- Instance(v);
      Success(Some(img))
  }

  /** `OptionalInstance` succeeds exactly on what the schema admits. */
  lemma OptionalInstanceAgrees(v: Value)
    ensures OptionalInstance(v).Success? <==> Admits(OptionalSchema(InstanceOfImage), v)
  {
  }

  /** An absent or present image is read as itself. */
  lemma OptionalInstanceRoundTrip(img: Option<Base64Image>)
    ensures OptionalInstance(OptInstance(img)) == Success(img)
  {
  }

  /** `z.instanceof(Base64Image).nullable()`: `null` stands for a missing image. */
  function NullableInstance(v: Value): (r: Parsed<Option<Base64Image>>)
    ensures r.Success? ==> (r.value.None? <==> v == Null)
    ensures r.Success? && r.value.Some? ==> r.value.value.AsValue() == v
  {
    if v.Null? then Success(None)
    else
      var img :- Instance(v);
      Success(Some(img))
  }

  /** `NullableInstance` succeeds exactly on what the schema admits. */
  lemma NullableInstanceAgrees(v: Value)
    ensures NullableInstance(v).Success? <==> Admits(NullableSchema(InstanceOfImage), v)
  {
  }

  /** A list of images as a caller passes it, or `undefined`. */
  function OptInstances(imgs: Option<seq<Base64Image>>): (v: Value)
    ensures imgs.None? <==> v == Undefined
    ensures imgs.Some? ==>
      v.Arr? && |v.items| == |imgs.value| &&
      forall i :: 0 <= i < |imgs.value| ==> v.items[i] == imgs.value[i].AsValue()
  {
    if imgs.Some? then Arr(seq(|imgs.value|, i requires 0 <= i < |imgs.value| => imgs.value[i].AsValue()))
    else Undefined
  }

  /** A list of images with `null` gaps as a caller passes it, or `undefined`. */
  function OptNullableInstances(imgs: Option<seq<Option<Base64Image>>>): (v: Value)
    ensures imgs.None? <==> v == Undefined
    ensures imgs.Some? ==>
      v.Arr? && |v.items| == |imgs.value| &&
      forall i :: 0 <= i < |imgs.value| ==>
        (imgs.value[i].None? ==> v.items[i] == Null) &&
        (imgs.value[i].Some? ==> v.items[i] == imgs.value[i].value.AsValue())
  {
    if imgs.Some? then
      Arr(seq(|imgs.value|, i requires 0 <= i < |imgs.value| =>
        if imgs.value[i].Some? then imgs.value[i].value.AsValue() else Null))
    else Undefined
  }

  /** `z.array(z.instanceof(Base64Image)).optional()`: every element must be an image; order is kept. */
  function OptionalInstances(v: Value): (r: Parsed<Option<seq<Base64Image>>>)
    ensures r.Success? ==> (r.value.None? <==> v == Undefined)
    ensures r.Success? && r.value.Some? ==>
      v.Arr? && |v.items| == |r.value.value| &&
      forall i :: 0 <= i < |v.items| ==> v.items[i] == r.value.value[i].AsValue()
  {
    if v.Undefined? then Success(None)
    else
      var imgs :- ArrayOf(v, Instance);
      Success(Some(imgs))
  }

  /** `OptionalInstances` succeeds exactly on what the schema admits. */
  lemma OptionalInstancesAgrees(v: Value)
    ensures OptionalInstances(v).Success? <==> Admits(OptionalSchema(ArraySchema(InstanceOfImage)), v)
  {
  }

  /** `z.array(z.instanceof(Base64Image).nullable()).optional()`: `null` entries keep their places. */
  function OptionalNullableInstances(v: Value): (r: Parsed<Option<seq<Option<Base64Image>>>>)
    ensures r.Success? ==> (r.value.None? <==> v == Undefined)
    ensures r.Success? && r.value.Some? ==>
      v.Arr? && |v.items| == |r.value.value| &&
      forall i :: 0 <= i < |v.items| ==>
        (r.value.value[i].None? <==> v.items[i] == Null) &&
        (r.value.value[i].Some? ==> v.items[i] == r.value.value[i].value.AsValue())
  {
    if v.Undefined? then Success(None)
    else
      var imgs :- ArrayOf(v, NullableInstance);
      Success(Some(imgs))
  }

  /** `OptionalNullableInstances` succeeds exactly on what the schema admits. */
  lemma OptionalNullableInstancesAgrees(v: Value)
    ensures OptionalNullableInstances(v).Success? <==> Admits(OptionalSchema(ArraySchema(NullableSchema(InstanceOfImage))), v)
  {
  }

  /** An absent list reads as absent, and a list of images as itself. */
  lemma OptionalInstancesRoundTrip(imgs: Option<seq<Base64Image>>)
    ensures OptionalInstances(OptInstances(imgs)) == Success(imgs)
  {
    if imgs.Some? {
      var v := OptInstances(imgs);
      var r := ArrayOf(v, Instance);
      assert r.Success?;
      assert r.value == imgs.value;
    }
  }

  /** An absent list reads as absent, and a list of images and `null` gaps as itself. */
  lemma OptionalNullableInstancesRoundTrip(imgs: Option<seq<Option<Base64Image>>>)
    ensures OptionalNullableInstances(OptNullableInstances(imgs)) == Success(imgs)
  {
    if imgs.Some? {
      var v := OptNullableInstances(imgs);
      var r := ArrayOf(v, NullableInstance);
      assert r.Success?;
      assert r.value == imgs.value;
    }
  }

  /** Examples of the extension rule. */
  lemma FormatOfExtensionExamples()
    ensures FormatOfExtension(".PNG") == "png"
    ensures FormatOfExtension(".jpeg") == "jpeg"
    ensures FormatOfExtension(".") == "png"
    ensures FormatOfExtension("") == "png"
  {
    assert Lower("PNG") == "png";
    assert Lower("jpeg") == "jpeg";
  }

  /** The parts of a `data:` URL whose data is base64 (RFC 2397): the media type and the data. */
  datatype DataUrlParts = DataUrlParts(mediaType: string, data: string)

  /** The index of the first `c` in `s`, or `|s|` when there is none. */
  function IndexOf(s: string, c: char): (r: nat)
    ensures r <= |s|
    ensures r < |s| ==> s[r] == c
    ensures forall i :: 0 <= i < r ==> s[i] != c
  {
    if |s| == 0 then 0
    else if s[0] == c then 0
    else 1 + IndexOf(s[1..], c)
  }

  /**
   * Reads `data:<media type>;base64,<data>`: the media type runs up to the
   * first ',' and must end in ";base64".
   */
  function ParseDataUrl(url: string): Option<DataUrlParts> {
    if |url| < 5 || url[..5] != "data:" then None
    else
      var rest := url[5..];
      var i := IndexOf(rest, ',');
      if i == |rest| then None
      else
        var header := rest[..i];
        if |header| < 7 || header[|header| - 7..] != ";base64" then None
        else Some(DataUrlParts(header[..|header| - 7], rest[i + 1..]))
  }

  /** The `dataUrl` of an image reads back as "image/<format>" and its base64 text. */
  lemma DataUrlRoundTrip(img: Base64Image)
    requires forall i :: 0 <= i < |img.format| ==> img.format[i] != ','
    ensures ParseDataUrl(img.DataUrl()) == Some(DataUrlParts("image/" + img.format, img.base64))
  {
    var url := img.DataUrl();
    var header := "image/" + img.format + ";base64";
    assert url == "data:" + header + "," + img.base64;
    var rest := url[5..];
    assert rest == header + "," + img.base64;
    IndexOfPrefix(header, img.base64);
    assert rest[..|header|] == header;
    assert header[|header| - 7..] == ";base64";
    assert header[..|header| - 7] == "image/" + img.format;
    assert rest[|header| + 1..] == img.base64;
  }

  /** The first ',' of `h + "," + t` is the one after `h` when `h` has none. */
  lemma IndexOfPrefix(h: string, t: string)
    requires forall i :: 0 <= i < |h| - 7 ==> h[i] != ','
    requires |h| >= 7 && h[|h| - 7..] == ";base64"
    ensures IndexOf(h + "," + t, ',') == |h|
  {
    var s := h + "," + t;
    var i := IndexOf(s, ',');
    assert s[|h|] == ',';
  }
}
