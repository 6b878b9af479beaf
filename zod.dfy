/**
 * The subset of the Zod schema language the client uses, as data with two
 * meanings: `Admits(s, v)`, whether `s.parse(v)` succeeds, and `Output(s, v)`,
 * the value it returns then. Typed parsers for single fields are proved
 * against both, so each operation's validator can be proved against its
 * declared schema.
 */
module Zod {
  import opened Wrappers
  import opened JsValue

  /** A `ZodError`, kept opaque: which issue was found is not modelled. */
  datatype SchemaError = SchemaError

  type Parsed<T> = Result<T, SchemaError>

  /** A Zod schema: the builders the client's schemas are written with. */
  datatype Schema =
    | NumberSchema(min: Option<real>, max: Option<real>)       // z.number().min(..).max(..)
    | StringSchema(minLength: nat, maxLength: Option<nat>)      // z.string().min(..).max(..), in UTF-16 code units
    | BooleanSchema                                             // z.boolean()
    | EnumSchema(values: seq<string>)                           // z.enum([...])
    | LiteralSchema(literal: string)                            // z.literal("...")
    | InstanceOfImage                                           // z.instanceof(Base64Image)
    | ArraySchema(element: Schema)                              // z.array(..)
    | ObjectSchema(shape: map<string, Schema>)                  // z.object({...})
    | OptionalSchema(inner: Schema)                             // .optional()
    | NullableSchema(inner: Schema)                             // .nullable()
    | DefaultSchema(inner: Schema, default: Value)              // .default(..)

  /** The input `.default(d)` hands to its inner schema. */
  function Provided(v: Value, d: Value): Value {
    if v.Undefined? then d else v
  }

  /** Inclusive bounds, either of which may be absent. */
  predicate InRange(x: real, min: Option<real>, max: Option<real>) {
    (min.None? || min.value <= x) && (max.None? || x <= max.value)
  }

  /** Whether `s.parse(v)` succeeds. */
  predicate Admits(s: Schema, v: Value)
    decreases s
  {
    match s
    case NumberSchema(min, max) => v.Num? && InRange(v.n, min, max)
    case StringSchema(lo, hi) => v.Str? && lo <= Utf16Length(v.s) && (hi.None? || Utf16Length(v.s) <= hi.value)
    case BooleanSchema => v.Bool?
    case EnumSchema(values) => v.Str? && v.s in values
    case LiteralSchema(lit) => v == Str(lit)
    case InstanceOfImage => v.ImageInstance?
    case ArraySchema(e) => v.Arr? && forall i :: 0 <= i < |v.items| ==> Admits(e, v.items[i])
    case ObjectSchema(shape) => IsObject(v) && forall k :: k in shape ==> Admits(shape[k], Get(v, k))
    case OptionalSchema(inner) => v.Undefined? || Admits(inner, v)
    case NullableSchema(inner) => v.Null? || Admits(inner, v)
    case DefaultSchema(inner, d) => Admits(inner, Provided(v, d))
  }

  /**
   * What `s.parse(v)` returns when it succeeds: leaves return their input,
   * defaults are filled in, and an object keeps exactly its shape's keys
   * (a key whose output is `undefined` reads as absent).
   */
  function Output(s: Schema, v: Value): Value
    decreases s
  {
    match s
    case ArraySchema(e) =>
      if v.Arr? then Arr(seq(|v.items|, i requires 0 <= i < |v.items| => Output(e, v.items[i]))) else v
    case ObjectSchema(shape) => Obj(map k | k in shape :: Output(shape[k], Get(v, k)))
    case OptionalSchema(inner) => if v.Undefined? then Undefined else Output(inner, v)
    case NullableSchema(inner) => if v.Null? then Null else Output(inner, v)
    case DefaultSchema(inner, d) => Output(inner, Provided(v, d))
    case _ => v
  }

  /**
   * `s.parse(v)`: the parsed value, or the `ZodError` it throws. A value that
   * parsed once parses again to itself.
   */
  function Parse(s: Schema, v: Value): (r: Parsed<Value>)
    requires WellFormed(s)
    ensures r.Success? <==> Admits(s, v)
    ensures r.Success? ==> Admits(s, r.value) && Output(s, r.value) == r.value
  {
    if Admits(s, v) then
      OutputAdmitted(s, v);
      Success(Output(s, v))
    else Failure(SchemaError)
  }

  /** Every `.default(d)` in `s` has a defined `d`, as all of the client's schemas do. */
  predicate WellFormed(s: Schema)
    decreases s
  {
    match s
    case ArraySchema(e) => WellFormed(e)
    case ObjectSchema(shape) => forall k :: k in shape ==> WellFormed(shape[k])
    case OptionalSchema(inner) => WellFormed(inner)
    case NullableSchema(inner) => WellFormed(inner)
    case DefaultSchema(inner, d) => d != Undefined && WellFormed(inner)
    case _ => true
  }

  /** Parsing a defined value never yields `undefined`. */
  lemma {:induction false} OutputDefined(s: Schema, v: Value)
    requires WellFormed(s) && v != Undefined
    ensures Output(s, v) != Undefined
    decreases s
  {
    match s
    case OptionalSchema(inner) => OutputDefined(inner, v);
    case NullableSchema(inner) => if !v.Null? { OutputDefined(inner, v); }
    case DefaultSchema(inner, d) => OutputDefined(inner, v);
    case _ =>
  }

  /** The output of a successful parse is admitted again and is its own output (idempotence). */
  lemma {:induction false} OutputAdmitted(s: Schema, v: Value)
    requires WellFormed(s) && Admits(s, v)
    ensures Admits(s, Output(s, v)) && Output(s, Output(s, v)) == Output(s, v)
    decreases s
  {
    var o := Output(s, v);
    match s
    case ArraySchema(e) =>
      forall i | 0 <= i < |v.items|
        ensures Admits(e, o.items[i]) && Output(e, o.items[i]) == o.items[i]
      {
        OutputAdmitted(e, v.items[i]);
      }
      assert Output(s, o).items == o.items;
    case ObjectSchema(shape) =>
      forall k | k in shape
        ensures Admits(shape[k], Get(o, k)) && Output(shape[k], Get(o, k)) == Get(o, k)
      {
        OutputAdmitted(shape[k], Get(v, k));
      }
      assert Output(s, o).props == o.props;
    case OptionalSchema(inner) =>
      if !v.Undefined? {
        OutputAdmitted(inner, v);
      }
    case NullableSchema(inner) =>
      if !v.Null? {
        OutputAdmitted(inner, v);
      }
    case DefaultSchema(inner, d) =>
      var w := Provided(v, d);
      OutputAdmitted(inner, w);
      OutputDefined(inner, w);
    case _ =>
  }

  /** An object schema with no field admits every object and outputs an empty one. */
  lemma NoField(v: Value)
    ensures Admits(ObjectSchema(map[]), v) <==> IsObject(v)
    ensures Output(ObjectSchema(map[]), v) == Obj(map[])
  {
    assert Output(ObjectSchema(map[]), v).props == map[];
  }

  /**
   * Adding a field to an object schema: the value must also pass the new
   * field's schema, and the output gains that field's output.
   */
  lemma AddField(shape: map<string, Schema>, k: string, s: Schema, v: Value)
    requires k !in shape
    ensures Admits(ObjectSchema(shape[k := s]), v) <==> Admits(ObjectSchema(shape), v) && Admits(s, Get(v, k))
    ensures Output(ObjectSchema(shape[k := s]), v) == Obj(Output(ObjectSchema(shape), v).props[k := Output(s, Get(v, k))])
  {
    AddedFieldOutput(shape, k, s, v);
  }

  lemma AddedFieldOutput(shape: map<string, Schema>, k: string, s: Schema, v: Value)
    ensures Output(ObjectSchema(shape[k := s]), v).props == Output(ObjectSchema(shape), v).props[k := Output(s, Get(v, k))]
  {
  }

  /** An object schema with one field admits a value exactly when the field does, and outputs that field's output. */
  lemma OneField(a: string, sa: Schema, v: Value)
    ensures Admits(ObjectSchema(map[a := sa]), v) <==> IsObject(v) && Admits(sa, Get(v, a))
    ensures Output(ObjectSchema(map[a := sa]), v) == Obj(map[a := Output(sa, Get(v, a))])
  {
    NoField(v);
    AddField(map[], a, sa, v);
  }

  /**
   * An object schema with two fields admits a value exactly when both fields
   * do, and its output holds the two fields' outputs.
   */
  lemma TwoFields(a: string, sa: Schema, b: string, sb: Schema, v: Value)
    requires a != b
    ensures Admits(ObjectSchema(map[a := sa, b := sb]), v) <==>
      IsObject(v) && Admits(sa, Get(v, a)) && Admits(sb, Get(v, b))
    ensures Output(ObjectSchema(map[a := sa, b := sb]), v) ==
      Obj(map[a := Output(sa, Get(v, a)), b := Output(sb, Get(v, b))])
  {
    OneField(a, sa, v);
    AddField(map[a := sa], b, sb, v);
  }

  /** The same for an object schema with three fields. */
  lemma ThreeFields(a: string, sa: Schema, b: string, sb: Schema, c: string, sc: Schema, v: Value)
    requires a != b && a != c && b != c
    ensures Admits(ObjectSchema(map[a := sa, b := sb, c := sc]), v) <==>
      IsObject(v) && Admits(sa, Get(v, a)) && Admits(sb, Get(v, b)) && Admits(sc, Get(v, c))
    ensures Output(ObjectSchema(map[a := sa, b := sb, c := sc]), v) ==
      Obj(map[a := Output(sa, Get(v, a)), b := Output(sb, Get(v, b)), c := Output(sc, Get(v, c))])
  {
    TwoFields(a, sa, b, sb, v);
    AddField(map[a := sa, b := sb], c, sc, v);
  }

  /** The same for an object schema with four fields. */
  lemma FourFields(a: string, sa: Schema, b: string, sb: Schema, c: string, sc: Schema, d: string, sd: Schema, v: Value)
    requires a != b && a != c && a != d && b != c && b != d && c != d
    ensures Admits(ObjectSchema(map[a := sa, b := sb, c := sc, d := sd]), v) <==>
      IsObject(v) && Admits(sa, Get(v, a)) && Admits(sb, Get(v, b)) && Admits(sc, Get(v, c)) && Admits(sd, Get(v, d))
    ensures Output(ObjectSchema(map[a := sa, b := sb, c := sc, d := sd]), v) ==
      Obj(map[a := Output(sa, Get(v, a)), b := Output(sb, Get(v, b)), c := Output(sc, Get(v, c)), d := Output(sd, Get(v, d))])
  {
    var shape := map[a := sa, b := sb, c := sc];
    assert d !in shape;
    ThreeFields(a, sa, b, sb, c, sc, v);
    AddField(shape, d, sd, v);
    var three := Output(ObjectSchema(shape), v).props;
    assert three == map[a := Output(sa, Get(v, a)), b := Output(sb, Get(v, b)), c := Output(sc, Get(v, c))];
  }

  /** An optional number as a JavaScript value: absent is `undefined`. */
  function OptNum(x: Option<real>): (v: Value)
    ensures x.None? <==> v == Undefined
    ensures x.Some? ==> v == Num(x.value)
  {
    if x.Some? then Num(x.value) else Undefined
  }

  /** An optional string as a JavaScript value: absent is `undefined`. */
  function OptStr(x: Option<string>): (v: Value)
    ensures x.None? <==> v == Undefined
    ensures x.Some? ==> v == Str(x.value)
  {
    if x.Some? then Str(x.value) else Undefined
  }

  /*
   * Typed readers, one per field schema the client writes. Each reads a
   * value into a Dafny type; the lemma after it proves that it succeeds
   * exactly when the schema admits the value and reads what the schema
   * outputs.
   */

  /** `z.number().min(min).max(max)` */
  function Number(v: Value, min: Option<real>, max: Option<real>): (r: Parsed<real>)
    ensures r.Success? ==> v == Num(r.value) && InRange(r.value, min, max)
  {
    if v.Num? && InRange(v.n, min, max) then Success(v.n) else Failure(SchemaError)
  }

  lemma NumberAgrees(v: Value, min: Option<real>, max: Option<real>)
    ensures Number(v, min, max).Success? <==> Admits(NumberSchema(min, max), v)
    ensures Number(v, min, max).Success? ==> Num(Number(v, min, max).value) == Output(NumberSchema(min, max), v)
  {
  }

  /** A number within the bounds is read as itself. */
  lemma NumberRoundTrip(v: Value, min: Option<real>, max: Option<real>, x: real)
    requires v == Num(x) && InRange(x, min, max)
    ensures Number(v, min, max) == Success(x)
  {
  }

  /** `z.number().min(min).max(max).default(d)`: an absent number reads as `d`. */
  function NumberOr(v: Value, min: Option<real>, max: Option<real>, d: real): (r: Parsed<real>)
    ensures r.Success? ==> Provided(v, Num(d)) == Num(r.value) && InRange(r.value, min, max)
  {
    Number(Provided(v, Num(d)), min, max)
  }

  lemma NumberOrAgrees(v: Value, min: Option<real>, max: Option<real>, d: real)
    ensures NumberOr(v, min, max, d).Success? <==> Admits(DefaultSchema(NumberSchema(min, max), Num(d)), v)
    ensures NumberOr(v, min, max, d).Success? ==>
      Num(NumberOr(v, min, max, d).value) == Output(DefaultSchema(NumberSchema(min, max), Num(d)), v)
  {
  }

  /** A number within the bounds, given or defaulted, is read as itself. */
  lemma NumberOrRoundTrip(v: Value, min: Option<real>, max: Option<real>, d: real, x: real)
    requires Provided(v, Num(d)) == Num(x) && InRange(x, min, max)
    ensures NumberOr(v, min, max, d) == Success(x)
  {
  }

  /** `z.number().min(min).max(max).optional()`: an absent number stays absent. */
  function OptionalNumber(v: Value, min: Option<real>, max: Option<real>): (r: Parsed<Option<real>>)
    ensures r.Success? ==> OptNum(r.value) == v && (r.value.Some? ==> InRange(r.value.value, min, max))
  {
    if v.Undefined? then Success(None)
    else
      var x :- Number(v, min, max);
      Success(Some(x))
  }

  lemma OptionalNumberAgrees(v: Value, min: Option<real>, max: Option<real>)
    ensures OptionalNumber(v, min, max).Success? <==> Admits(OptionalSchema(NumberSchema(min, max)), v)
    ensures OptionalNumber(v, min, max).Success? ==>
      OptNum(OptionalNumber(v, min, max).value) == Output(OptionalSchema(NumberSchema(min, max)), v)
  {
  }

  /** An absent number, or one within the bounds, is read as itself. */
  lemma OptionalNumberRoundTrip(v: Value, min: Option<real>, max: Option<real>, x: Option<real>)
    requires v == OptNum(x) && (x.Some? ==> InRange(x.value, min, max))
    ensures OptionalNumber(v, min, max) == Success(x)
  {
  }

  /** `z.string().min(lo).max(hi)`, lengths counted as `.length` counts them, in UTF-16 code units. */
  function Text(v: Value, lo: nat, hi: Option<nat>): (r: Parsed<string>)
    ensures r.Success? ==> v == Str(r.value) && lo <= Utf16Length(r.value) && (hi.None? || Utf16Length(r.value) <= hi.value)
  {
    if v.Str? && lo <= Utf16Length(v.s) && (hi.None? || Utf16Length(v.s) <= hi.value) then Success(v.s)
    else Failure(SchemaError)
  }

  lemma TextAgrees(v: Value, lo: nat, hi: Option<nat>)
    ensures Text(v, lo, hi).Success? <==> Admits(StringSchema(lo, hi), v)
    ensures Text(v, lo, hi).Success? ==> Str(Text(v, lo, hi).value) == Output(StringSchema(lo, hi), v)
  {
  }

  /** A string of an admitted length is read as itself. */
  lemma TextRoundTrip(v: Value, lo: nat, hi: Option<nat>, x: string)
    requires v == Str(x) && lo <= Utf16Length(x) && (hi.None? || Utf16Length(x) <= hi.value)
    ensures Text(v, lo, hi) == Success(x)
  {
  }

  /** `z.string().default(d)`: an absent string reads as `d`. */
  function TextOr(v: Value, d: string): (r: Parsed<string>)
    ensures r.Success? ==> Provided(v, Str(d)) == Str(r.value)
  {
    Text(Provided(v, Str(d)), 0, None)
  }

  lemma TextOrAgrees(v: Value, d: string)
    ensures TextOr(v, d).Success? <==> Admits(DefaultSchema(StringSchema(0, None), Str(d)), v)
    ensures TextOr(v, d).Success? ==> Str(TextOr(v, d).value) == Output(DefaultSchema(StringSchema(0, None), Str(d)), v)
  {
  }

  /** A string, given or defaulted, is read as itself. */
  lemma TextOrRoundTrip(v: Value, d: string, x: string)
    requires Provided(v, Str(d)) == Str(x)
    ensures TextOr(v, d) == Success(x)
  {
  }

  /** `z.string().optional()`: an absent string stays absent. */
  function OptionalText(v: Value): (r: Parsed<Option<string>>)
    ensures r.Success? ==> OptStr(r.value) == v
  {
    if v.Undefined? then Success(None)
    else
      var s :- Text(v, 0, None);
      Success(Some(s))
  }

  lemma OptionalTextAgrees(v: Value)
    ensures OptionalText(v).Success? <==> Admits(OptionalSchema(StringSchema(0, None)), v)
    ensures OptionalText(v).Success? ==> OptStr(OptionalText(v).value) == Output(OptionalSchema(StringSchema(0, None)), v)
  {
  }

  /** An absent or present string is read as itself. */
  lemma OptionalTextRoundTrip(v: Value, x: Option<string>)
    requires v == OptStr(x)
    ensures OptionalText(v) == Success(x)
  {
  }

  /** `z.boolean().default(d)`: an absent boolean reads as `d`. */
  function BooleanOr(v: Value, d: bool): (r: Parsed<bool>)
    ensures r.Success? ==> Provided(v, Bool(d)) == Bool(r.value)
  {
    var w := Provided(v, Bool(d));
    if w.Bool? then Success(w.b) else Failure(SchemaError)
  }

  lemma BooleanOrAgrees(v: Value, d: bool)
    ensures BooleanOr(v, d).Success? <==> Admits(DefaultSchema(BooleanSchema, Bool(d)), v)
    ensures BooleanOr(v, d).Success? ==> Bool(BooleanOr(v, d).value) == Output(DefaultSchema(BooleanSchema, Bool(d)), v)
  {
  }

  /** A boolean, given or defaulted, is read as itself. */
  lemma BooleanOrRoundTrip(v: Value, d: bool, x: bool)
    requires Provided(v, Bool(d)) == Bool(x)
    ensures BooleanOr(v, d) == Success(x)
  {
  }

  /** `z.literal(lit)`: only that exact string passes. */
  function Literal(v: Value, lit: string): (r: Parsed<string>)
    ensures r.Success? <==> v == Str(lit)
    ensures r.Success? ==> r.value == lit
  {
    if v == Str(lit) then Success(lit) else Failure(SchemaError)
  }

  lemma LiteralAgrees(v: Value, lit: string)
    ensures Literal(v, lit).Success? <==> Admits(LiteralSchema(lit), v)
    ensures Literal(v, lit).Success? ==> Str(Literal(v, lit).value) == Output(LiteralSchema(lit), v)
  {
  }

  /** `z.enum(values)`, read into the closed type the `parse` function decodes. */
  function Enum<E>(v: Value, values: seq<string>, parse: string -> Option<E>): (r: Parsed<E>)
    requires forall s :: s in values ==> parse(s).Some?
    ensures r.Success? ==> v.Str? && v.s in values && Some(r.value) == parse(v.s)
  {
    if v.Str? && v.s in values then Success(parse(v.s).value) else Failure(SchemaError)
  }

  lemma EnumAgrees<E>(v: Value, values: seq<string>, parse: string -> Option<E>)
    requires forall s :: s in values ==> parse(s).Some?
    ensures Enum(v, values, parse).Success? <==> Admits(EnumSchema(values), v)
    ensures Enum(v, values, parse).Success? ==> Output(EnumSchema(values), v) == v
  {
  }

  /** `z.enum(values).optional()`: an absent value stays absent. */
  function OptionalEnum<E>(v: Value, values: seq<string>, parse: string -> Option<E>): (r: Parsed<Option<E>>)
    requires forall s :: s in values ==> parse(s).Some?
    ensures r.Success? ==> (r.value.None? <==> v == Undefined)
    ensures r.Success? && r.value.Some? ==> v.Str? && v.s in values && r.value == parse(v.s)
  {
    if v.Undefined? then Success(None)
    else
      var e :- Enum(v, values, parse);
      Success(Some(e))
  }

  lemma OptionalEnumAgrees<E>(v: Value, values: seq<string>, parse: string -> Option<E>)
    requires forall s :: s in values ==> parse(s).Some?
    ensures OptionalEnum(v, values, parse).Success? <==> Admits(OptionalSchema(EnumSchema(values)), v)
    ensures OptionalEnum(v, values, parse).Success? ==> Output(OptionalSchema(EnumSchema(values)), v) == v
  {
  }

  /** `z.enum(values).default(d)`: an absent value reads as `d`. */
  function EnumOr<E>(v: Value, values: seq<string>, parse: string -> Option<E>, d: string): (r: Parsed<E>)
    requires forall s :: s in values ==> parse(s).Some?
    ensures r.Success? ==> var w := Provided(v, Str(d)); w.Str? && w.s in values && Some(r.value) == parse(w.s)
  {
    Enum(Provided(v, Str(d)), values, parse)
  }

  lemma EnumOrAgrees<E>(v: Value, values: seq<string>, parse: string -> Option<E>, d: string)
    requires forall s :: s in values ==> parse(s).Some?
    ensures EnumOr(v, values, parse, d).Success? <==> Admits(DefaultSchema(EnumSchema(values), Str(d)), v)
    ensures EnumOr(v, values, parse, d).Success? ==> Output(DefaultSchema(EnumSchema(values), Str(d)), v) == Provided(v, Str(d))
  {
  }

  /** `z.array(element)`: every element must parse; order and length are kept. */
  function ArrayOf<T>(v: Value, element: Value -> Parsed<T>): (r: Parsed<seq<T>>)
    ensures r.Success? <==> v.Arr? && forall i :: 0 <= i < |v.items| ==> element(v.items[i]).Success?
    ensures r.Success? ==> |r.value| == |v.items|
    ensures r.Success? ==> forall i :: 0 <= i < |v.items| ==> element(v.items[i]) == Success(r.value[i])
  {
    if !v.Arr? then Failure(SchemaError) else Elements(v.items, element)
  }

  function Elements<T>(xs: seq<Value>, element: Value -> Parsed<T>): (r: Parsed<seq<T>>)
    ensures r.Success? <==> forall i :: 0 <= i < |xs| ==> element(xs[i]).Success?
    ensures r.Success? ==> |r.value| == |xs|
    ensures r.Success? ==> forall i :: 0 <= i < |xs| ==> element(xs[i]) == Success(r.value[i])
  {
    if |xs| == 0 then Success([])
    else
      var head :- element(xs[0]);
      var tail :- Elements(xs[1..], element);
      assert forall i :: 1 <= i < |xs| ==> xs[i] == xs[1..][i - 1];
      Success([head] + tail)
  }
}
