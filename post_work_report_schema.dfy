/** `postWorkReportSchema` and `restPeriodSchema`: the post-work (end of duty) report. */
module PostWorkReportSchema {
  import opened Common
  import opened Zod

  /** `restPeriodSchema`: start and end in the HH:MM shape, and a location string. */
  const RestItem: map<string, Scalar> := map["start" := ClockText, "end" := ClockText, "location" := Text(0)]

  const Shape: Zod.Shape := map[
    "vehicleId" := Required(UuidText),
    "endLocation" := Required(Text(1)),
    "actualDestinations" := Required(Text(1)),
    "distanceKm" := Required(Number(Some(0.0), None, false)),
    "restPeriods" := Field(ListOf(RestItem), true, true, None),
    "alcoholCheckResult" := Required(OneOf(["negative", "positive"])),
    "alcoholCheckValue" := Nullish(Number(Some(0.0), None, false)),
    "alcoholCheckerName" := Required(Text(1)),
    "roadConditionNote" := Nullish(Text(0)),
    "cargoDeliveredCount" := Nullish(Number(Some(0.0), None, true))]

  lemma ShapeEntries()
    ensures Shape.Keys == {"vehicleId", "endLocation", "actualDestinations", "distanceKm", "restPeriods", "alcoholCheckResult",
      "alcoholCheckValue", "alcoholCheckerName", "roadConditionNote", "cargoDeliveredCount"}
    ensures Shape["vehicleId"] == Required(UuidText)
    ensures Shape["endLocation"] == Required(Text(1)) && Shape["actualDestinations"] == Required(Text(1))
    ensures Shape["distanceKm"] == Required(Number(Some(0.0), None, false))
    ensures Shape["restPeriods"] == Field(ListOf(RestItem), true, true, None)
    ensures Shape["alcoholCheckResult"] == Required(OneOf(["negative", "positive"]))
    ensures Shape["alcoholCheckValue"] == Nullish(Number(Some(0.0), None, false))
    ensures Shape["alcoholCheckerName"] == Required(Text(1))
    ensures Shape["roadConditionNote"] == Nullish(Text(0))
    ensures Shape["cargoDeliveredCount"] == Nullish(Number(Some(0.0), None, true))
  {
  }

  /** One rest period: an object whose start and end have the HH:MM shape and whose location is a string. */
  predicate IsRest(v: Json) {
    v.Obj? && "start" in v.fields && v.fields["start"].Str? && IsClockShape(v.fields["start"].s)
    && "end" in v.fields && v.fields["end"].Str? && IsClockShape(v.fields["end"].s)
    && "location" in v.fields && v.fields["location"].Str?
  }

  /** `z.array(restPeriodSchema).nullable().optional()`. */
  predicate MaybeRests(o: JsonObject) {
    "restPeriods" !in o || o["restPeriods"].Null?
    || (o["restPeriods"].Arr? && forall i :: 0 <= i < |o["restPeriods"].items| ==> IsRest(o["restPeriods"].items[i]))
  }

  lemma ItemIsRest(v: Json)
    ensures ItemOk(RestItem, v, NoEmail) <==> IsRest(v)
  {
    assert RestItem.Keys == {"start", "end", "location"};
  }

  lemma RestsValid(o: JsonObject)
    ensures FieldOk(Shape, o, "restPeriods", NoEmail) <==> MaybeRests(o)
  {
    ShapeEntries();
    if "restPeriods" in o && o["restPeriods"].Arr? {
      forall i | 0 <= i < |o["restPeriods"].items| ensures ItemOk(RestItem, o["restPeriods"].items[i], NoEmail) <==> IsRest(o["restPeriods"].items[i]) {
        ItemIsRest(o["restPeriods"].items[i]);
      }
    }
  }

  /**
   * What the shape demands: a UUID vehicle; a non-empty end location,
   * destination list and checker name; a distance of at least 0 km; rest
   * periods as above, null or missing; the alcohol result among the two, a
   * reading of at least 0, null or missing; a road note that is a string, null
   * or missing; a whole, non-negative cargo count, null or missing.
   */
  predicate Valid(o: JsonObject) {
    HasUuid(o, "vehicleId")
    && HasText(o, "endLocation", 1) && HasText(o, "actualDestinations", 1) && HasText(o, "alcoholCheckerName", 1)
    && HasNumber(o, "distanceKm", 0.0)
    && MaybeRests(o)
    && HasOption(o, "alcoholCheckResult", ["negative", "positive"])
    && MaybeNumber(o, "alcoholCheckValue", 0.0, None, false)
    && MaybeText(o, "roadConditionNote")
    && MaybeNumber(o, "cargoDeliveredCount", 0.0, None, true)
  }

  lemma KeysValid(o: JsonObject)
    ensures Valid(o) <==> (FieldOk(Shape, o, "vehicleId", NoEmail)
      && FieldOk(Shape, o, "endLocation", NoEmail) && FieldOk(Shape, o, "actualDestinations", NoEmail)
      && FieldOk(Shape, o, "alcoholCheckerName", NoEmail) && FieldOk(Shape, o, "distanceKm", NoEmail)
      && FieldOk(Shape, o, "restPeriods", NoEmail) && FieldOk(Shape, o, "alcoholCheckResult", NoEmail)
      && FieldOk(Shape, o, "alcoholCheckValue", NoEmail) && FieldOk(Shape, o, "roadConditionNote", NoEmail)
      && FieldOk(Shape, o, "cargoDeliveredCount", NoEmail))
  {
    ShapeEntries();
    RequiredUuid(o, "vehicleId", NoEmail);
    RequiredText(o, "endLocation", 1, NoEmail);
    RequiredText(o, "actualDestinations", 1, NoEmail);
    RequiredText(o, "alcoholCheckerName", 1, NoEmail);
    RequiredNumber(o, "distanceKm", 0.0, NoEmail);
    RestsValid(o);
    RequiredOption(o, "alcoholCheckResult", ["negative", "positive"], NoEmail);
    NullishNumber(o, "alcoholCheckValue", 0.0, None, false, NoEmail);
    NullishText(o, "roadConditionNote", NoEmail);
    NullishNumber(o, "cargoDeliveredCount", 0.0, None, true, NoEmail);
  }

  lemma KeysCover(o: JsonObject)
    requires FieldOk(Shape, o, "vehicleId", NoEmail)
      && FieldOk(Shape, o, "endLocation", NoEmail) && FieldOk(Shape, o, "actualDestinations", NoEmail)
      && FieldOk(Shape, o, "alcoholCheckerName", NoEmail) && FieldOk(Shape, o, "distanceKm", NoEmail)
      && FieldOk(Shape, o, "restPeriods", NoEmail) && FieldOk(Shape, o, "alcoholCheckResult", NoEmail)
      && FieldOk(Shape, o, "alcoholCheckValue", NoEmail) && FieldOk(Shape, o, "roadConditionNote", NoEmail)
      && FieldOk(Shape, o, "cargoDeliveredCount", NoEmail)
    ensures AllFieldsOk(Shape, o, NoEmail)
  {
    ShapeEntries();
  }

  /**
   * `postWorkReportSchema.safeParse(o)`: accepted exactly when valid; the
   * output holds only the shape's keys, and each submitted rest period only
   * its start, end and location.
   */
  function ParseReport(o: JsonObject): (r: Option<JsonObject>)
    ensures r.Some? <==> Valid(o)
    ensures r.Some? ==> r.value.Keys <= Shape.Keys
    ensures r.Some? && "restPeriods" in o && o["restPeriods"].Arr? ==>
      "restPeriods" in r.value && r.value["restPeriods"].Arr? && |r.value["restPeriods"].items| == |o["restPeriods"].items|
      && forall i :: 0 <= i < |o["restPeriods"].items| ==>
        r.value["restPeriods"].items[i].Obj? && r.value["restPeriods"].items[i].fields.Keys == {"start", "end", "location"}
  {
    KeysValid(o);
    ShapeEntries();
    assert RestItem.Keys == {"start", "end", "location"};
    if Valid(o) then KeysCover(o); Parse(Shape, o, NoEmail) else Parse(Shape, o, NoEmail)
  }

  /** The unit tests' complete report. */
  const Sample: JsonObject := map[
    "vehicleId" := Str(SampleId),
    "endLocation" := Str("市川市南八幡"),
    "actualDestinations" := Str("江東区亀戸エリア"),
    "distanceKm" := Num(85.5),
    "alcoholCheckResult" := Str("negative"),
    "alcoholCheckerName" := Str("田中")]

  /** The sample passes, and a negative distance fails. */
  lemma SampleCases()
    ensures ParseReport(Sample).Some?
    ensures ParseReport(Sample["distanceKm" := Num(-10.0)]).None?
  {
    SampleUuid();
    assert Valid(Sample);
    var o := Sample["distanceKm" := Num(-10.0)];
    assert o["distanceKm"].n < 0.0;
  }
}
