/**
 * The part of zod's object validation the schemas use, on JSON values:
 * scalar checks (`string().min`, `regex`, `uuid`, `email`, `boolean`,
 * `number().min/max/int`, `enum`), arrays of objects, the wrappers
 * `.nullable().optional()` and `.default(...)`, `.partial()`, and the parsed
 * output, which keeps only the shape's keys. A shape is a map from key to
 * field because a schema's shape is an object literal: each key appears once.
 */
module Zod {
  import opened Common

  datatype Json = Null | Bool(b: bool) | Num(n: real) | Str(s: string) | Arr(items: seq<Json>) | Obj(fields: map<string, Json>)

  /** A parsed request or form body; a key that is absent is `undefined`. */
  type JsonObject = map<string, Json>

  /** `/^\d{2}:\d{2}$/`: two ASCII digits, a colon, two ASCII digits; the value range is not checked. */
  predicate IsClockShape(s: string) {
    |s| == 5 && IsAsciiDigit(s[0]) && IsAsciiDigit(s[1]) && s[2] == ':' && IsAsciiDigit(s[3]) && IsAsciiDigit(s[4])
  }

  /** `number().int()`. */
  predicate IsInteger(x: real) {
    x.Floor as real == x
  }

  datatype Scalar =
    | Text(minLength: nat)
    | ClockText
    | UuidText
    | EmailText
    | Boolean
    | Number(min: Option<real>, max: Option<real>, integer: bool)
    | OneOf(options: seq<string>)

  /** Whether one value passes a scalar check; `isEmail` stands for zod's e-mail pattern. */
  predicate ScalarOk(c: Scalar, v: Json, isEmail: string -> bool) {
    match c
    case Text(m) => v.Str? && |v.s| >= m
    case ClockText => v.Str? && IsClockShape(v.s)
    case UuidText => v.Str? && IsUuidText(v.s)
    case EmailText => v.Str? && isEmail(v.s)
    case Boolean => v.Bool?
    case Number(lo, hi, whole) =>
      v.Num? && (lo.None? || lo.value <= v.n) && (hi.None? || v.n <= hi.value) && (!whole || IsInteger(v.n))
    case OneOf(opts) => v.Str? && v.s in opts
  }

  /** A scalar field, or an array whose elements are objects of required scalar fields. */
  datatype Check = Is(scalar: Scalar) | ListOf(item: map<string, Scalar>)

  /** One array element: an object with every item key passing its check, returned without any other keys. */
  predicate ItemOk(item: map<string, Scalar>, v: Json, isEmail: string -> bool) {
    v.Obj? && forall k :: k in item ==> k in v.fields && ScalarOk(item[k], v.fields[k], isEmail)
  }

  function ParseCheck(c: Check, v: Json, isEmail: string -> bool): (r: Option<Json>)
    ensures c.Is? ==> (r.Some? <==> ScalarOk(c.scalar, v, isEmail)) && (r.Some? ==> r.value == v)
    ensures c.ListOf? ==> (r.Some? <==> v.Arr? && forall i :: 0 <= i < |v.items| ==> ItemOk(c.item, v.items[i], isEmail))
    ensures c.ListOf? && r.Some? ==> r.value.Arr? && |r.value.items| == |v.items|
    ensures c.ListOf? && r.Some? ==> forall i :: 0 <= i < |v.items| ==>
      r.value.items[i].Obj? && r.value.items[i].fields.Keys == c.item.Keys
      && forall k :: k in c.item ==> r.value.items[i].fields[k] == v.items[i].fields[k]
  {
    match c
    case Is(s) => if ScalarOk(s, v, isEmail) then Some(v) else None
    case ListOf(item) =>
      if v.Arr? && forall i :: 0 <= i < |v.items| ==> ItemOk(item, v.items[i], isEmail) then
        Some(Arr(seq(|v.items|, i requires 0 <= i < |v.items| && ItemOk(item, v.items[i], isEmail) =>
          Obj(map k | k in item :: v.items[i].fields[k]))))
      else None
  }

  /**
   * One key of a shape: whether it may be absent (`.optional()`), whether it
   * may be null (`.nullable()`), and the value an absent key takes
   * (`.default(...)`), which is then checked like a given one.
   */
  datatype Field = Field(check: Check, optional: bool, nullable: bool, default: Option<Json>)

  type Shape = map<string, Field>

  /** A bare check: the key must be present and pass. */
  function Required(c: Scalar): Field { Field(Is(c), false, false, None) }

  /** `.nullable().optional()`: absent, null or passing. */
  function Nullish(c: Scalar): Field { Field(Is(c), true, true, None) }

  /** `.default(d)`: an absent key takes `d`. */
  function Defaulted(c: Scalar, d: Json): Field { Field(Is(c), false, false, Some(d)) }

  function Lookup(o: JsonObject, k: string): Option<Json> {
    if k in o then Some(o[k]) else None
  }

  /** One key: None when it fails, Some(None) when it is left out of the output, Some(Some(v)) when the output holds `v`. */
  function ParseField(f: Field, given: Option<Json>, isEmail: string -> bool): (r: Option<Option<Json>>)
    ensures given.None? ==> (r.Some? <==> f.optional || (f.default.Some? && ParseCheck(f.check, f.default.value, isEmail).Some?))
    ensures given.None? && f.optional ==> r == Some(None)
    ensures given.None? && !f.optional && r.Some? ==> r.value == ParseCheck(f.check, f.default.value, isEmail)
    ensures given.Some? ==> (r.Some? <==> (given.value.Null? && f.nullable) || ParseCheck(f.check, given.value, isEmail).Some?)
    ensures given.Some? && r.Some? ==> r.value.Some?
    ensures given.Some? && f.check.Is? && r.Some? ==> r.value.value == given.value
  {
    if given.None? then
      if f.optional then Some(None)
      else if f.default.Some? then
        var d := ParseCheck(f.check, f.default.value, isEmail);
        if d.Some? then Some(d) else None
      else None
    else if given.value.Null? && f.nullable then Some(Some(Null))
    else
      var v := ParseCheck(f.check, given.value, isEmail);
      if v.Some? then Some(v) else None
  }

  /** Key `k` of the shape passes. */
  predicate FieldOk(shape: Shape, o: JsonObject, k: string, isEmail: string -> bool)
    requires k in shape
  {
    ParseField(shape[k], Lookup(o, k), isEmail).Some?
  }

  predicate AllFieldsOk(shape: Shape, o: JsonObject, isEmail: string -> bool) {
    forall k :: k in shape ==> FieldOk(shape, o, k, isEmail)
  }

  /**
   * `schema.safeParse(o)` on an object schema: success exactly when every key
   * of the shape passes; the output holds only the shape's keys, each given
   * scalar unchanged, each absent default filled in and each absent optional
   * key left out.
   */
  function Parse(shape: Shape, o: JsonObject, isEmail: string -> bool): (r: Option<JsonObject>)
    ensures r.Some? <==> AllFieldsOk(shape, o, isEmail)
    ensures r.Some? ==> r.value.Keys <= shape.Keys
    ensures r.Some? ==> forall k :: k in shape && k in o && shape[k].check.Is? ==> k in r.value && r.value[k] == o[k]
    ensures r.Some? ==> forall k :: k in shape && k !in o && shape[k].optional ==> k !in r.value
    ensures r.Some? ==> forall k :: k in shape && k !in o && !shape[k].optional && shape[k].check.Is? ==>
      k in r.value && r.value[k] == shape[k].default.value
  {
    if AllFieldsOk(shape, o, isEmail) then
      Some(map k | k in shape && ParseField(shape[k], Lookup(o, k), isEmail).value.Some? ::
        ParseField(shape[k], Lookup(o, k), isEmail).value.value)
    else None
  }

  /** `.partial()`: every key may be left out; nothing else about a key changes. */
  function Partial(shape: Shape): (r: Shape)
    ensures r.Keys == shape.Keys
    ensures forall k :: k in shape ==> r[k] == shape[k].(optional := true)
  {
    map k | k in shape :: shape[k].(optional := true)
  }

  /**
   * The partial schema accepts whatever the full one accepts, and also the
   * empty object; its output never holds a key the input lacks, so no default
   * is filled in by an update.
   */
  lemma PartialAcceptsMore(shape: Shape, o: JsonObject, isEmail: string -> bool)
    ensures Parse(shape, o, isEmail).Some? ==> Parse(Partial(shape), o, isEmail).Some?
    ensures Parse(Partial(shape), map[], isEmail) == Some(map[])
    ensures Parse(Partial(shape), o, isEmail).Some? ==> Parse(Partial(shape), o, isEmail).value.Keys <= o.Keys
  {
    var p := Partial(shape);
    if Parse(shape, o, isEmail).Some? {
      forall k | k in p ensures ParseField(p[k], Lookup(o, k), isEmail).Some? {
        assert ParseField(shape[k], Lookup(o, k), isEmail).Some?;
      }
    }
    var e := Parse(p, map[], isEmail);
    assert forall k :: k in p ==> ParseField(p[k], Lookup(map[], k), isEmail) == Some(None);
    assert e.value == map[];
    var po := Parse(p, o, isEmail);
    if po.Some? {
      assert forall k :: k in p && k !in o ==> k !in po.value;
    }
  }

  /** A partial key passes exactly when it is absent or passes as the full key would. */
  lemma PartialField(f: Field, o: JsonObject, k: string, isEmail: string -> bool)
    ensures ParseField(f.(optional := true), Lookup(o, k), isEmail).Some? <==> k !in o || ParseField(f, Lookup(o, k), isEmail).Some?
  {
  }

  /** The e-mail check, for the schemas that have no e-mail key. */
  const NoEmail: string -> bool := (s: string) => false

  // Key by key, what a schema demands of its input, in the words of the schema files.

  /** `string().min(n)`: present, a string, at least `n` characters. */
  predicate HasText(o: JsonObject, k: string, n: nat) {
    k in o && o[k].Str? && |o[k].s| >= n
  }

  /** `string().uuid()`. */
  predicate HasUuid(o: JsonObject, k: string) {
    k in o && o[k].Str? && IsUuidText(o[k].s)
  }

  /** `string().email()`. */
  predicate HasEmail(o: JsonObject, k: string, isEmail: string -> bool) {
    k in o && o[k].Str? && isEmail(o[k].s)
  }

  /** `boolean()`. */
  predicate HasBool(o: JsonObject, k: string) {
    k in o && o[k].Bool?
  }

  /** `enum([...])`. */
  predicate HasOption(o: JsonObject, k: string, options: seq<string>) {
    k in o && o[k].Str? && o[k].s in options
  }

  /** `number().min(lo)`. */
  predicate HasNumber(o: JsonObject, k: string, lo: real) {
    k in o && o[k].Num? && o[k].n >= lo
  }

  /** `string().nullable().optional()`: absent, null or a string. */
  predicate MaybeText(o: JsonObject, k: string) {
    k !in o || o[k].Null? || o[k].Str?
  }

  /** `string().uuid().nullable().optional()`. */
  predicate MaybeUuid(o: JsonObject, k: string) {
    k !in o || o[k].Null? || (o[k].Str? && IsUuidText(o[k].s))
  }

  /** `number().min(lo)` with an optional `max(hi)` and `int()`, then `.nullable().optional()`. */
  predicate MaybeNumber(o: JsonObject, k: string, lo: real, hi: Option<real>, whole: bool) {
    k !in o || o[k].Null? || (o[k].Num? && lo <= o[k].n && (hi.None? || o[k].n <= hi.value) && (!whole || IsInteger(o[k].n)))
  }

  /** `boolean().default(...)`: absent or a boolean; null is not absent. */
  predicate BoolOrAbsent(o: JsonObject, k: string) {
    k !in o || o[k].Bool?
  }

  /** `enum([...]).default(...)`: absent or one of the options. */
  predicate OptionOrAbsent(o: JsonObject, k: string, options: seq<string>) {
    k !in o || (o[k].Str? && o[k].s in options)
  }

  lemma RequiredText(o: JsonObject, k: string, n: nat, isEmail: string -> bool)
    ensures ParseField(Required(Text(n)), Lookup(o, k), isEmail).Some? <==> HasText(o, k, n)
  {
  }

  lemma RequiredUuid(o: JsonObject, k: string, isEmail: string -> bool)
    ensures ParseField(Required(UuidText), Lookup(o, k), isEmail).Some? <==> HasUuid(o, k)
  {
  }

  lemma RequiredEmail(o: JsonObject, k: string, isEmail: string -> bool)
    ensures ParseField(Required(EmailText), Lookup(o, k), isEmail).Some? <==> HasEmail(o, k, isEmail)
  {
  }

  lemma RequiredBool(o: JsonObject, k: string, isEmail: string -> bool)
    ensures ParseField(Required(Boolean), Lookup(o, k), isEmail).Some? <==> HasBool(o, k)
  {
  }

  lemma RequiredOption(o: JsonObject, k: string, options: seq<string>, isEmail: string -> bool)
    ensures ParseField(Required(OneOf(options)), Lookup(o, k), isEmail).Some? <==> HasOption(o, k, options)
  {
  }

  lemma RequiredNumber(o: JsonObject, k: string, lo: real, isEmail: string -> bool)
    ensures ParseField(Required(Number(Some(lo), None, false)), Lookup(o, k), isEmail).Some? <==> HasNumber(o, k, lo)
  {
  }

  lemma NullishText(o: JsonObject, k: string, isEmail: string -> bool)
    ensures ParseField(Nullish(Text(0)), Lookup(o, k), isEmail).Some? <==> MaybeText(o, k)
  {
  }

  lemma NullishUuid(o: JsonObject, k: string, isEmail: string -> bool)
    ensures ParseField(Nullish(UuidText), Lookup(o, k), isEmail).Some? <==> MaybeUuid(o, k)
  {
  }

  lemma NullishNumber(o: JsonObject, k: string, lo: real, hi: Option<real>, whole: bool, isEmail: string -> bool)
    ensures ParseField(Nullish(Number(Some(lo), hi, whole)), Lookup(o, k), isEmail).Some? <==> MaybeNumber(o, k, lo, hi, whole)
  {
  }

  lemma DefaultedBool(o: JsonObject, k: string, b: bool, isEmail: string -> bool)
    ensures ParseField(Defaulted(Boolean, Bool(b)), Lookup(o, k), isEmail).Some? <==> BoolOrAbsent(o, k)
  {
  }

  lemma DefaultedOption(o: JsonObject, k: string, options: seq<string>, d: string, isEmail: string -> bool)
    requires d in options
    ensures ParseField(Defaulted(OneOf(options), Str(d)), Lookup(o, k), isEmail).Some? <==> OptionOrAbsent(o, k, options)
  {
  }

  const SampleId: string := "550e8400-e29b-41d4-a716-446655440000"

  /** Position `i` of `s` holds what the UUID shape asks for there. */
  predicate UuidChar(s: string, i: int)
    requires 0 <= i < |s|
  {
    if IsDash(i) then s[i] == '-' else IsHexDigit(s[i])
  }

  /** The UUID in the unit tests' sample records has the UUID shape. */
  lemma SampleUuid()
    ensures IsUuidText(SampleId)
  {
    SampleIdFront();
    SampleIdMiddle();
    SampleIdBack();
    forall i | 0 <= i < 36 ensures UuidChar(SampleId, i) {
    }
  }

  lemma SampleIdFront()
    ensures forall i :: 0 <= i < 12 ==> UuidChar(SampleId, i)
  {
    forall i | 0 <= i < 12 ensures UuidChar(SampleId, i) {
      if i == 0 {} else if i == 1 {} else if i == 2 {} else if i == 3 {} else if i == 4 {} else if i == 5 {}
      else if i == 6 {} else if i == 7 {} else if i == 8 {} else if i == 9 {} else if i == 10 {} else {}
    }
  }

  lemma SampleIdMiddle()
    ensures forall i :: 12 <= i < 24 ==> UuidChar(SampleId, i)
  {
    forall i | 12 <= i < 24 ensures UuidChar(SampleId, i) {
      if i == 12 {} else if i == 13 {} else if i == 14 {} else if i == 15 {} else if i == 16 {}
      else if i == 17 {} else if i == 18 {} else if i == 19 {} else if i == 20 {} else if i == 21 {}
      else if i == 22 {} else {}
    }
  }

  lemma SampleIdBack()
    ensures forall i :: 24 <= i < 36 ==> UuidChar(SampleId, i)
  {
    forall i | 24 <= i < 36 ensures UuidChar(SampleId, i) {
      if i == 24 {} else if i == 25 {} else if i == 26 {} else if i == 27 {} else if i == 28 {}
      else if i == 29 {} else if i == 30 {} else if i == 31 {} else if i == 32 {} else if i == 33 {}
      else if i == 34 {} else {}
    }
  }
}
