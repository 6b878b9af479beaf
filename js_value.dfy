/**
 * JavaScript runtime values as the client sees them: the parameter objects
 * callers pass in, the decoded JSON bodies the service sends back and the
 * request bodies handed to `JSON.stringify`.
 */
module JsValue {

  /**
   * A JavaScript value. `Obj` is a plain object (its key order is not
   * modelled); `ImageInstance` is an object built by `new Base64Image(...)`,
   * carrying the two fields its constructor sets. Numbers are reals: IEEE-754
   * rounding, NaN and the infinities are not modelled.
   */
  datatype Value =
    | Undefined
    | Null
    | Bool(b: bool)
    | Num(n: real)
    | Str(s: string)
    | Arr(items: seq<Value>)
    | Obj(props: map<string, Value>)
    | ImageInstance(base64: string, format: string)

  /** `typeof v === "object"`, not null and not an array: what `z.object` takes. */
  predicate IsObject(v: Value) {
    v.Obj? || v.ImageInstance?
  }

  /** The property read `v[key]` on a value that is not null or undefined. */
  function Get(v: Value, key: string): (r: Value)
    ensures !IsObject(v) ==> r == Undefined
    ensures v.Obj? ==> r == (if key in v.props then v.props[key] else Undefined)
  {
    match v
    case Obj(m) => if key in m then m[key] else Undefined
    case ImageInstance(b, f) =>
      if key == "type" then Str("base64")
      else if key == "base64" then Str(b)
      else if key == "format" then Str(f)
      else Undefined
    case _ => Undefined
  }

  /** JavaScript truthiness (the operand test of `||`, `?:` and `if`). */
  predicate Truthy(v: Value) {
    match v
    case Undefined => false
    case Null => false
    case Bool(b) => b
    case Num(n) => n != 0.0
    case Str(s) => s != ""
    case _ => true
  }

  /** The plain object `{type: "base64", base64, format}` of an image on the wire. */
  function ImageJson(base64: string, format: string): Value {
    Obj(map["type" := Str("base64"), "base64" := Str(base64), "format" := Str(format)])
  }

  /** A value that JSON text can denote: no `undefined` and no class instance anywhere. */
  predicate IsJson(v: Value) {
    match v
    case Undefined => false
    case ImageInstance(_, _) => false
    case Arr(xs) => forall i :: 0 <= i < |xs| ==> IsJson(xs[i])
    case Obj(m) => forall k :: k in m ==> IsJson(m[k])
    case _ => true
  }

  /**
   * The JSON value that `JSON.stringify(v)` writes: object keys whose value is
   * `undefined` are dropped, `undefined` array elements become `null`, and a
   * `Base64Image` is written through its `toJSON()` method.
   */
  function Stringify(v: Value): (r: Value)
    ensures v != Undefined ==> IsJson(r)
    ensures v.Obj? ==> r.Obj? && r.props.Keys == set k | k in v.props && v.props[k] != Undefined
    ensures v.Obj? ==> forall k :: k in r.props ==> r.props[k] == Stringify(v.props[k])
    ensures v.Arr? ==> r.Arr? && |r.items| == |v.items|
    ensures v.Arr? ==> forall i :: 0 <= i < |v.items| ==>
      r.items[i] == (if v.items[i] == Undefined then Null else Stringify(v.items[i]))
  {
    match v
    case Obj(m) => Obj(map k | k in m && m[k] != Undefined :: Stringify(m[k]))
    case Arr(xs) =>
      Arr(seq(|xs|, i requires 0 <= i < |xs| => if xs[i] == Undefined then Null else Stringify(xs[i])))
    case ImageInstance(b, f) => ImageJson(b, f)
    case _ => v
  }

  /** The wire form of an image is written unchanged. */
  lemma StringifyImageJson(base64: string, format: string)
    ensures Stringify(ImageJson(base64, format)) == ImageJson(base64, format)
  {
    assert Stringify(ImageJson(base64, format)).props == ImageJson(base64, format).props;
  }

  /** A value that already is JSON is written unchanged. */
  lemma {:induction false} StringifyJson(v: Value)
    requires IsJson(v)
    ensures Stringify(v) == v
  {
    match v
    case Obj(m) =>
      forall k | k in m ensures Stringify(m[k]) == m[k] {
        StringifyJson(m[k]);
      }
      assert Stringify(v).props == m;
    case Arr(xs) =>
      forall i | 0 <= i < |xs| ensures Stringify(v).items[i] == xs[i] {
        StringifyJson(xs[i]);
      }
      assert Stringify(v).items == xs;
    case _ =>
  }

  /** The UTF-16 code units of one character: two for a character beyond the Basic Multilingual Plane. */
  function CodeUnits(c: char): nat {
    if c as int >= 0x1_0000 then 2 else 1
  }

  /**
   * A string's `.length` in JavaScript, which counts UTF-16 code units: at
   * least one per character and at most two, exactly one each when every
   * character lies in the Basic Multilingual Plane, and exactly two each when
   * none does.
   */
  function Utf16Length(s: string): (r: nat)
    ensures |s| <= r <= 2 * |s|
    ensures (forall i :: 0 <= i < |s| ==> s[i] as int < 0x1_0000) ==> r == |s|
    ensures (forall i :: 0 <= i < |s| ==> s[i] as int >= 0x1_0000) ==> r == 2 * |s|
  {
    if |s| == 0 then 0 else CodeUnits(s[0]) + Utf16Length(s[1..])
  }

  /** The decimal digit for 0..9. */
  function Digit(d: nat): char
    requires d < 10
  {
    "0123456789"[d]
  }

  /** Decimal text of a natural number, as a template literal writes it. */
  function NatToString(n: nat): (r: string)
    ensures |r| > 0
    ensures forall i :: 0 <= i < |r| ==> '0' <= r[i] <= '9'
  {
    if n < 10 then [Digit(n)] else NatToString(n / 10) + [Digit(n % 10)]
  }

  /** Decimal text of an integer, with a leading '-' when negative. */
  function IntToString(n: int): string {
    if n < 0 then "-" + NatToString(-n) else NatToString(n)
  }

  /** The number a string of decimal digits denotes. */
  function DigitsValue(s: string): nat
    requires forall i :: 0 <= i < |s| ==> '0' <= s[i] <= '9'
  {
    if |s| == 0 then 0 else DigitsValue(s[..|s| - 1]) * 10 + (s[|s| - 1] - '0') as nat
  }

  /** The decimal text of a number reads back as that number. */
  lemma {:induction false} NatToStringRoundTrip(n: nat)
    ensures DigitsValue(NatToString(n)) == n
  {
    if n >= 10 {
      var a := NatToString(n / 10);
      var s := a + [Digit(n % 10)];
      assert s[..|s| - 1] == a;
      NatToStringRoundTrip(n / 10);
    }
  }
}
