/** `createVehicleSchema` and `updateVehicleSchema`. */
module VehicleSchema {
  import opened Common
  import opened Zod

  const Statuses: seq<string> := ["active", "maintenance", "retired"]

  const CreateShape: Shape := map[
    "plateNumber" := Required(Text(1)),
    "maker" := Nullish(Text(0)),
    "model" := Nullish(Text(0)),
    "year" := Nullish(Number(Some(1990.0), Some(2030.0), true)),
    "vehicleInspectionDate" := Nullish(Text(0)),
    "status" := Defaulted(OneOf(Statuses), Str("active"))]

  const UpdateShape: Shape := Partial(CreateShape)

  lemma ShapeEntries()
    ensures CreateShape.Keys == {"plateNumber", "maker", "model", "year", "vehicleInspectionDate", "status"}
    ensures CreateShape["plateNumber"] == Required(Text(1))
    ensures CreateShape["maker"] == Nullish(Text(0)) && CreateShape["model"] == Nullish(Text(0))
    ensures CreateShape["year"] == Nullish(Number(Some(1990.0), Some(2030.0), true))
    ensures CreateShape["vehicleInspectionDate"] == Nullish(Text(0))
    ensures CreateShape["status"] == Defaulted(OneOf(Statuses), Str("active"))
  {
  }

  /**
   * What the create schema demands: a non-empty plate number; maker, model and
   * inspection date each a string, null or missing; a whole year from 1990 to
   * 2030, null or missing; a status among the three, or missing.
   */
  predicate CreateValid(o: JsonObject) {
    HasText(o, "plateNumber", 1)
    && MaybeText(o, "maker") && MaybeText(o, "model") && MaybeText(o, "vehicleInspectionDate")
    && MaybeNumber(o, "year", 1990.0, Some(2030.0), true)
    && OptionOrAbsent(o, "status", Statuses)
  }

  lemma CreateKeysValid(o: JsonObject)
    ensures CreateValid(o) <==> (FieldOk(CreateShape, o, "plateNumber", NoEmail)
      && FieldOk(CreateShape, o, "maker", NoEmail) && FieldOk(CreateShape, o, "model", NoEmail)
      && FieldOk(CreateShape, o, "year", NoEmail) && FieldOk(CreateShape, o, "vehicleInspectionDate", NoEmail)
      && FieldOk(CreateShape, o, "status", NoEmail))
  {
    ShapeEntries();
    RequiredText(o, "plateNumber", 1, NoEmail);
    NullishText(o, "maker", NoEmail);
    NullishText(o, "model", NoEmail);
    NullishNumber(o, "year", 1990.0, Some(2030.0), true, NoEmail);
    NullishText(o, "vehicleInspectionDate", NoEmail);
    DefaultedOption(o, "status", Statuses, "active", NoEmail);
  }

  lemma KeysCover(shape: Shape, o: JsonObject)
    requires shape.Keys == CreateShape.Keys
    requires FieldOk(shape, o, "plateNumber", NoEmail)
      && FieldOk(shape, o, "maker", NoEmail) && FieldOk(shape, o, "model", NoEmail)
      && FieldOk(shape, o, "year", NoEmail) && FieldOk(shape, o, "vehicleInspectionDate", NoEmail)
      && FieldOk(shape, o, "status", NoEmail)
    ensures AllFieldsOk(shape, o, NoEmail)
  {
    ShapeEntries();
  }

  /**
   * `createVehicleSchema.safeParse(o)`: accepted exactly when valid; the output
   * keeps the given keys of the shape and has status "active" when none was given.
   */
  function ParseCreate(o: JsonObject): (r: Option<JsonObject>)
    ensures r.Some? <==> CreateValid(o)
    ensures r.Some? ==> r.value.Keys <= CreateShape.Keys
    ensures r.Some? && "status" !in o ==> "status" in r.value && r.value["status"] == Str("active")
  {
    CreateKeysValid(o);
    if CreateValid(o) then KeysCover(CreateShape, o); ShapeEntries(); Parse(CreateShape, o, NoEmail)
    else Parse(CreateShape, o, NoEmail)
  }

  /** What the update schema demands: every key may be missing; a given key is checked as on create. */
  predicate UpdateValid(o: JsonObject) {
    ("plateNumber" !in o || HasText(o, "plateNumber", 1))
    && MaybeText(o, "maker") && MaybeText(o, "model") && MaybeText(o, "vehicleInspectionDate")
    && MaybeNumber(o, "year", 1990.0, Some(2030.0), true)
    && OptionOrAbsent(o, "status", Statuses)
  }

  lemma UpdateKeysValid(o: JsonObject)
    ensures UpdateValid(o) <==> (FieldOk(UpdateShape, o, "plateNumber", NoEmail)
      && FieldOk(UpdateShape, o, "maker", NoEmail) && FieldOk(UpdateShape, o, "model", NoEmail)
      && FieldOk(UpdateShape, o, "year", NoEmail) && FieldOk(UpdateShape, o, "vehicleInspectionDate", NoEmail)
      && FieldOk(UpdateShape, o, "status", NoEmail))
  {
    CreateKeysValid(o);
    ShapeEntries();
    PartialField(CreateShape["plateNumber"], o, "plateNumber", NoEmail);
    PartialField(CreateShape["maker"], o, "maker", NoEmail);
    PartialField(CreateShape["model"], o, "model", NoEmail);
    PartialField(CreateShape["year"], o, "year", NoEmail);
    PartialField(CreateShape["vehicleInspectionDate"], o, "vehicleInspectionDate", NoEmail);
    PartialField(CreateShape["status"], o, "status", NoEmail);
  }

  /**
   * `updateVehicleSchema.safeParse(o)`: accepted exactly when valid; the output
   * holds only keys that were given, so an update never resets the status.
   */
  function ParseUpdate(o: JsonObject): (r: Option<JsonObject>)
    ensures r.Some? <==> UpdateValid(o)
    ensures r.Some? ==> r.value.Keys <= o.Keys
  {
    UpdateKeysValid(o);
    PartialAcceptsMore(CreateShape, o, NoEmail);
    if UpdateValid(o) then KeysCover(UpdateShape, o); Parse(UpdateShape, o, NoEmail)
    else Parse(UpdateShape, o, NoEmail)
  }

  /** The unit tests' cases: a plate alone passes, an empty plate fails. */
  lemma PlateCases()
    ensures ParseCreate(map["plateNumber" := Str("市川 480 あ 1234")]).Some?
    ensures ParseCreate(map["plateNumber" := Str("")]).None?
  {
    assert CreateValid(map["plateNumber" := Str("市川 480 あ 1234")]);
  }

  /** A whole year from 1990 to 2030 passes. */
  lemma YearInRange()
    ensures ParseCreate(map["plateNumber" := Str("市川 480"), "year" := Num(2024.0)]).Some?
  {
    assert IsInteger(2024.0) by { assert 2024.0.Floor == 2024; }
    assert CreateValid(map["plateNumber" := Str("市川 480"), "year" := Num(2024.0)]);
  }

  /** Years before 1990 or after 2030 fail. */
  lemma YearOutOfRange()
    ensures ParseCreate(map["plateNumber" := Str("市川 480"), "year" := Num(1980.0)]).None?
    ensures ParseCreate(map["plateNumber" := Str("市川 480"), "year" := Num(2035.0)]).None?
  {
    assert !MaybeNumber(map["plateNumber" := Str("市川 480"), "year" := Num(1980.0)], "year", 1990.0, Some(2030.0), true);
    assert !MaybeNumber(map["plateNumber" := Str("市川 480"), "year" := Num(2035.0)], "year", 1990.0, Some(2030.0), true);
  }
}
