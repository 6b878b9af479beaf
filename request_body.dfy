/**
 * The conversions an operation's `requestData` applies to validated
 * parameters on their way into the request body: images become their wire
 * form (`img.modelDump()`), absent images `null`, and image lists are mapped
 * element by element.
 */
module RequestBody {
  import opened Wrappers
  import opened JsValue
  import opened Base64Images
  import opened Keypoints

  /** `img.modelDump()`: the image's wire form. */
  function Dump(img: Base64Image): (v: Value)
    ensures v == ImageJson(img.base64, img.format) && IsJson(v)
  {
    img.ModelDump().ToValue()
  }

  /** `img?.modelDump() || null`: an absent image is `null`, a present one its wire form. */
  function DumpOrNull(img: Option<Base64Image>): (v: Value)
    ensures img.None? <==> v == Null
    ensures img.Some? ==> v == Dump(img.value)
    ensures IsJson(v)
  {
    if img.Some? then Dump(img.value) else Null
  }

  /** `imgs.map(img => img?.modelDump() || null)`: length, order and `null` places are kept. */
  function DumpEach(imgs: seq<Option<Base64Image>>): (r: seq<Value>)
    ensures |r| == |imgs| && forall i :: 0 <= i < |imgs| ==> r[i] == DumpOrNull(imgs[i])
  {
    seq(|imgs|, i requires 0 <= i < |imgs| => DumpOrNull(imgs[i]))
  }

  /** `imgs ? imgs.map(img => img?.modelDump() || null) : null` (an array, even empty, is truthy). */
  function DumpEachOrNull(imgs: Option<seq<Option<Base64Image>>>): (v: Value)
    ensures imgs.None? <==> v == Null
    ensures imgs.Some? ==> v == Arr(DumpEach(imgs.value))
    ensures IsJson(v)
  {
    if imgs.Some? then Arr(DumpEach(imgs.value)) else Null
  }

  /** `imgs ? imgs.map(img => img.modelDump()) : null`: every element is an image, so none becomes `null`. */
  function DumpAllOrNull(imgs: Option<seq<Base64Image>>): (v: Value)
    ensures imgs.None? <==> v == Null
    ensures imgs.Some? ==>
      v.Arr? && |v.items| == |imgs.value| && forall i :: 0 <= i < |imgs.value| ==> v.items[i] == Dump(imgs.value[i])
    ensures IsJson(v)
  {
    if imgs.Some? then Arr(seq(|imgs.value|, i requires 0 <= i < |imgs.value| => Dump(imgs.value[i]))) else Null
  }

  /** `frame || null`: a frame object is truthy, so only an absent frame becomes `null`. */
  function FrameOrNull(f: Option<SkeletonFrame>): (v: Value)
    ensures f.None? <==> v == Null
    ensures f.Some? ==> v == f.value.ToValue()
    ensures IsJson(v)
  {
    if f.Some? then f.value.ToValue() else Null
  }

  /**
   * The object an object literal builds from its keys and values, listed
   * in source order (a repeated key would keep its last value, as in
   * JavaScript).
   */
  function ObjectOf(keys: seq<string>, values: seq<Value>): map<string, Value>
    requires |keys| == |values|
  {
    if |keys| == 0 then map[]
    else ObjectOf(keys[..|keys| - 1], values[..|values| - 1])[keys[|keys| - 1] := values[|values| - 1]]
  }

  /** No key is written twice. */
  predicate Distinct(keys: seq<string>) {
    forall i, j :: 0 <= i < j < |keys| ==> keys[i] != keys[j]
  }

  /** The object has exactly the keys of the literal. */
  lemma {:induction false} ObjectOfKeys(keys: seq<string>, values: seq<Value>)
    requires |keys| == |values|
    ensures ObjectOf(keys, values).Keys == set i | 0 <= i < |keys| :: keys[i]
  {
    if |keys| > 0 {
      var init := keys[..|keys| - 1];
      ObjectOfKeys(init, values[..|values| - 1]);
      assert (set i | 0 <= i < |keys| :: keys[i]) == (set i | 0 <= i < |init| :: init[i]) + {keys[|keys| - 1]} by {
        forall i | 0 <= i < |init| ensures init[i] == keys[i] {
        }
      }
    }
  }

  /** With no key repeated, each key holds the value listed with it. */
  lemma {:induction false} ObjectOfAt(keys: seq<string>, values: seq<Value>, i: nat)
    requires |keys| == |values| && Distinct(keys) && i < |keys|
    ensures keys[i] in ObjectOf(keys, values) && ObjectOf(keys, values)[keys[i]] == values[i]
  {
    if i < |keys| - 1 {
      var init := keys[..|keys| - 1];
      assert init[i] == keys[i];
      assert Distinct(init) by {
        forall a, b | 0 <= a < b < |init| ensures init[a] != init[b] {
          assert init[a] == keys[a] && init[b] == keys[b];
        }
      }
      ObjectOfAt(init, values[..|values| - 1], i);
    }
  }

  /**
   * `JSON.stringify` of an object literal whose values are JSON or
   * `undefined`: the key `k` listed at position `i` with the value `x` is
   * written with that value exactly when `x` is not `undefined`.
   */
  lemma Sent(keys: seq<string>, values: seq<Value>, i: nat, k: string, x: Value)
    requires |keys| == |values| && Distinct(keys) && i < |keys|
    requires keys[i] == k && values[i] == x && (x == Undefined || IsJson(x))
    ensures k in Stringify(Obj(ObjectOf(keys, values))).props <==> x != Undefined
    ensures x != Undefined ==> Stringify(Obj(ObjectOf(keys, values))).props[k] == x
  {
    ObjectOfAt(keys, values, i);
    if x != Undefined {
      StringifyJson(x);
    }
  }

  /** `JSON.stringify` writes no key that the literal does not have. */
  lemma SentKeys(keys: seq<string>, values: seq<Value>)
    requires |keys| == |values|
    ensures Stringify(Obj(ObjectOf(keys, values))).props.Keys <= set i | 0 <= i < |keys| :: keys[i]
  {
    ObjectOfKeys(keys, values);
  }
}
