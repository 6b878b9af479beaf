/**
 * `Keypoint` and its schema (a labelled point whose `zIndex` defaults to 0),
 * and the skeleton frame `{keypoints: [...]}` the skeleton operations share.
 */
module Keypoints {
  import opened Wrappers
  import opened JsValue
  import opened Zod
  import opened Types

  /** A labelled point of a skeleton; `zIndex` is always present once validated. */
  datatype Keypoint = Keypoint(x: real, y: real, skeletonLabel: SkeletonLabel, zIndex: real)
  {
    /** The validated object `{x, y, label, zIndex}`; `zIndex` keeps its camelCase key on the wire. */
    function ToValue(): (v: Value)
      ensures IsJson(v)
    {
      Obj(map["x" := Num(x), "y" := Num(y), "label" := Str(skeletonLabel.Name()), "zIndex" := Num(zIndex)])
    }
  }

  /** `KeypointSchema`. */
  const KeypointSchema: Schema := ObjectSchema(map[
    "x" := NumberSchema(None, None),
    "y" := NumberSchema(None, None),
    "label" := SkeletonLabelSchema,
    "zIndex" := DefaultSchema(NumberSchema(None, None), Num(0.0))
  ])

  /** `KeypointSchema.parse(v)`, read into a `Keypoint`. */
  function ParseKeypoint(v: Value): (r: Parsed<Keypoint>)
    ensures r.Success? <==> Admits(KeypointSchema, v)
    ensures r.Success? ==> r.value.ToValue() == Output(KeypointSchema, v)
  {
    KeypointFields(v);
    SkeletonLabelAccepted();
    var x := Number(Get(v, "x"), None, None);
    var y := Number(Get(v, "y"), None, None);
    var l := Enum(Get(v, "label"), SkeletonLabelValues, ParseSkeletonLabel);
    var z := NumberOr(Get(v, "zIndex"), None, None, 0.0);
    if IsObject(v) && x.Success? && y.Success? && l.Success? && z.Success? then
      Success(Keypoint(x.value, y.value, l.value, z.value))
    else Failure(SchemaError)
  }

  /** The four fields, read one by one, are what `KeypointSchema` admits and outputs. */
  lemma KeypointFields(v: Value)
    ensures forall s :: s in SkeletonLabelValues ==> ParseSkeletonLabel(s).Some?
    ensures var x, y, z := Number(Get(v, "x"), None, None), Number(Get(v, "y"), None, None),
                           NumberOr(Get(v, "zIndex"), None, None, 0.0);
      var l := Enum(Get(v, "label"), SkeletonLabelValues, ParseSkeletonLabel);
      (IsObject(v) && x.Success? && y.Success? && l.Success? && z.Success? <==> Admits(KeypointSchema, v)) &&
      (IsObject(v) && x.Success? && y.Success? && l.Success? && z.Success? ==>
         Keypoint(x.value, y.value, l.value, z.value).ToValue() == Output(KeypointSchema, v))
  {
    SkeletonLabelAccepted();
    NumberAgrees(Get(v, "x"), None, None);
    NumberAgrees(Get(v, "y"), None, None);
    EnumAgrees(Get(v, "label"), SkeletonLabelValues, ParseSkeletonLabel);
    NumberOrAgrees(Get(v, "zIndex"), None, None, 0.0);
    FourFields("x", NumberSchema(None, None), "y", NumberSchema(None, None), "label", SkeletonLabelSchema,
               "zIndex", DefaultSchema(NumberSchema(None, None), Num(0.0)), v);
  }

  /** An absent `zIndex` is filled with 0; a present one is kept unchanged. */
  lemma ZIndexDefault(v: Value)
    requires ParseKeypoint(v).Success?
    ensures Get(v, "zIndex") == Undefined ==> ParseKeypoint(v).value.zIndex == 0.0
    ensures Get(v, "zIndex").Num? ==> ParseKeypoint(v).value.zIndex == Get(v, "zIndex").n
  {
  }

  /** A keypoint is accepted only with one of the 18 skeleton labels. */
  lemma LabelRequired(v: Value)
    requires ParseKeypoint(v).Success?
    ensures Get(v, "label").Str? && Get(v, "label").s in SkeletonLabelValues
    ensures Some(ParseKeypoint(v).value.skeletonLabel) == ParseSkeletonLabel(Get(v, "label").s)
  {
  }

  /** `x` and `y` are unbounded: any coordinates with a valid label are accepted as given. */
  lemma CoordinatesUnbounded(x: real, y: real, l: SkeletonLabel)
    ensures var r := ParseKeypoint(Obj(map["x" := Num(x), "y" := Num(y), "label" := Str(l.Name())]));
      r == Success(Keypoint(x, y, l, 0.0))
  {
    var v := Obj(map["x" := Num(x), "y" := Num(y), "label" := Str(l.Name())]);
    assert Get(v, "x") == Num(x) && Get(v, "y") == Num(y) && Get(v, "label") == Str(l.Name());
    assert Get(v, "zIndex") == Undefined;
    SkeletonLabelMember(l);
    NumberRoundTrip(Num(x), None, None, x);
    NumberRoundTrip(Num(y), None, None, y);
    NumberOrRoundTrip(Undefined, None, None, 0.0, 0.0);
  }

  /** Distinct keypoints have distinct objects. */
  lemma ToValueInjective(a: Keypoint, b: Keypoint)
    requires a.ToValue() == b.ToValue()
    ensures a == b
  {
    var ma, mb := a.ToValue().props, b.ToValue().props;
    assert ma["x"] == mb["x"] && ma["y"] == mb["y"] && ma["zIndex"] == mb["zIndex"];
    assert a.skeletonLabel.Name() == b.skeletonLabel.Name() by {
      assert ma["label"] == mb["label"];
    }
    SkeletonLabelMember(a.skeletonLabel);
    SkeletonLabelMember(b.skeletonLabel);
  }

  /** Validating an already validated keypoint gives the same keypoint. */
  lemma KeypointRoundTrip(k: Keypoint)
    ensures ParseKeypoint(k.ToValue()) == Success(k)
  {
    SkeletonLabelMember(k.skeletonLabel);
  }

  /** The validated objects of a list of keypoints, in order. */
  function KeypointValues(ks: seq<Keypoint>): (r: seq<Value>)
    ensures |r| == |ks| && forall i :: 0 <= i < |ks| ==> r[i] == ks[i].ToValue()
  {
    seq(|ks|, i requires 0 <= i < |ks| => ks[i].ToValue())
  }

  /** `z.array(KeypointSchema)`. */
  const KeypointListSchema: Schema := ArraySchema(KeypointSchema)

  /** `z.array(KeypointSchema).parse(v)`: every element must be a keypoint; order is kept. */
  function ParseKeypoints(v: Value): (r: Parsed<seq<Keypoint>>)
    ensures r.Success? <==> Admits(KeypointListSchema, v)
    ensures r.Success? ==> Arr(KeypointValues(r.value)) == Output(KeypointListSchema, v)
  {
    var r := ArrayOf(v, ParseKeypoint);
    if r.Success? then
      assert Arr(KeypointValues(r.value)).items == Output(KeypointListSchema, v).items;
      r
    else r
  }

  /** A skeleton frame: the keypoints of one pose. */
  datatype SkeletonFrame = SkeletonFrame(keypoints: seq<Keypoint>)
  {
    /** The validated object `{keypoints: [...]}`. */
    function ToValue(): (v: Value)
      ensures IsJson(v)
    {
      Obj(map["keypoints" := Arr(KeypointValues(keypoints))])
    }
  }

  /** `SkeletonFrameSchema`. */
  const SkeletonFrameSchema: Schema := ObjectSchema(map["keypoints" := KeypointListSchema])

  /** `SkeletonFrameSchema.parse(v)`, read into a `SkeletonFrame`. */
  function ParseSkeletonFrame(v: Value): (r: Parsed<SkeletonFrame>)
    ensures r.Success? <==> Admits(SkeletonFrameSchema, v)
    ensures r.Success? ==> r.value.ToValue() == Output(SkeletonFrameSchema, v)
  {
    SkeletonFrameFields(v);
    var ks := ParseKeypoints(Get(v, "keypoints"));
    if IsObject(v) && ks.Success? then Success(SkeletonFrame(ks.value)) else Failure(SchemaError)
  }

  /** The one field, read on its own, is what `SkeletonFrameSchema` admits and outputs. */
  lemma SkeletonFrameFields(v: Value)
    ensures var ks := ParseKeypoints(Get(v, "keypoints"));
      (IsObject(v) && ks.Success? <==> Admits(SkeletonFrameSchema, v)) &&
      (IsObject(v) && ks.Success? ==> SkeletonFrame(ks.value).ToValue() == Output(SkeletonFrameSchema, v))
  {
    OneField("keypoints", KeypointListSchema, v);
  }

  /** Validating an already validated frame gives the same frame, keypoint order included. */
  lemma SkeletonFrameRoundTrip(f: SkeletonFrame)
    ensures ParseSkeletonFrame(f.ToValue()) == Success(f)
  {
    var items := KeypointValues(f.keypoints);
    forall i | 0 <= i < |items| ensures ParseKeypoint(items[i]) == Success(f.keypoints[i]) {
      KeypointRoundTrip(f.keypoints[i]);
    }
    var r := ParseKeypoints(Arr(items));
    assert r.Success?;
    assert r.value == f.keypoints;
  }

  /** A frame as a JavaScript value, `undefined` when absent. */
  function OptFrame(f: Option<SkeletonFrame>): (v: Value)
    ensures f.None? <==> v == Undefined
    ensures f.Some? ==> v == f.value.ToValue()
  {
    if f.Some? then f.value.ToValue() else Undefined
  }

  /** `SkeletonFrameSchema.optional()`: absent stays absent, a present value must be a frame. */
  function OptionalFrame(v: Value): (r: Parsed<Option<SkeletonFrame>>)
    ensures v == Undefined ==> r == Success(None)
    ensures r.Success? ==> (r.value.None? <==> v == Undefined)
    ensures r.Success? && r.value.Some? ==> ParseSkeletonFrame(v) == Success(r.value.value)
  {
    if v == Undefined then Success(None)
    else
      var f :- ParseSkeletonFrame(v);
      Success(Some(f))
  }

  lemma OptionalFrameAgrees(v: Value)
    ensures OptionalFrame(v).Success? <==> Admits(OptionalSchema(SkeletonFrameSchema), v)
    ensures OptionalFrame(v).Success? ==> OptFrame(OptionalFrame(v).value) == Output(OptionalSchema(SkeletonFrameSchema), v)
  {
  }

  /** An absent frame reads as absent, and a validated one as itself. */
  lemma OptionalFrameRoundTrip(f: Option<SkeletonFrame>)
    ensures OptionalFrame(OptFrame(f)) == Success(f)
  {
    if f.Some? {
      SkeletonFrameRoundTrip(f.value);
    }
  }

  /** The validated objects of a list of frames, in order. */
  function FrameValues(fs: seq<SkeletonFrame>): (r: seq<Value>)
    ensures |r| == |fs| && forall i :: 0 <= i < |fs| ==> r[i] == fs[i].ToValue()
  {
    seq(|fs|, i requires 0 <= i < |fs| => fs[i].ToValue())
  }

  /** `z.array(SkeletonFrameSchema)`. */
  const FrameListSchema: Schema := ArraySchema(SkeletonFrameSchema)

  /** `z.array(SkeletonFrameSchema).parse(v)`: every element must be a frame; order is kept. */
  function ParseFrames(v: Value): (r: Parsed<seq<SkeletonFrame>>)
    ensures r.Success? <==> Admits(FrameListSchema, v)
    ensures r.Success? ==> Arr(FrameValues(r.value)) == Output(FrameListSchema, v)
  {
    var r := ArrayOf(v, ParseSkeletonFrame);
    if r.Success? then
      assert Arr(FrameValues(r.value)).items == Output(FrameListSchema, v).items;
      r
    else r
  }

  /** A list of validated frames reads back unchanged, frame and keypoint order included. */
  lemma FramesRoundTrip(fs: seq<SkeletonFrame>)
    ensures ParseFrames(Arr(FrameValues(fs))) == Success(fs)
  {
    var items := FrameValues(fs);
    forall i | 0 <= i < |items| ensures ParseSkeletonFrame(items[i]) == Success(fs[i]) {
      SkeletonFrameRoundTrip(fs[i]);
    }
    var r := ParseFrames(Arr(items));
    assert r.Success?;
    assert r.value == fs;
  }
}
