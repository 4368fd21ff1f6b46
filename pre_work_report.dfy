/** `preWorkReportSchema`: the pre-work (start of duty) report, with the poor-health refinement. */
module PreWorkReportSchema {
  import opened Common
  import opened Zod

  const Shape: Zod.Shape := map[
    "vehicleId" := Required(UuidText),
    "startLocation" := Required(Text(1)),
    "plannedDestinations" := Required(Text(1)),
    "alcoholCheckResult" := Required(OneOf(["negative", "positive"])),
    "alcoholCheckValue" := Nullish(Number(Some(0.0), None, false)),
    "alcoholCheckerName" := Required(Text(1)),
    "healthCondition" := Required(OneOf(["good", "fair", "poor"])),
    "healthConditionNote" := Nullish(Text(0)),
    "fatigueLevel" := Required(OneOf(["none", "mild", "severe"])),
    "sleepHours" := Nullish(Number(Some(0.0), Some(24.0), false)),
    "cargoCount" := Nullish(Number(Some(0.0), None, true))]

  /** The refinement: poor health needs a note that is a non-empty string. */
  predicate NoteIfPoor(out: JsonObject) {
    "healthCondition" in out && out["healthCondition"] == Str("poor") ==>
      "healthConditionNote" in out && out["healthConditionNote"].Str? && |out["healthConditionNote"].s| > 0
  }

  /**
   * What the shape demands, key by key: a UUID vehicle; a non-empty start
   * location, destination list and checker name; the three enums; an alcohol
   * reading of at least 0, sleep between 0 and 24 hours and a whole,
   * non-negative cargo count, each of which may be null or missing; a note
   * that is a string, null or missing.
   */
  predicate ShapeValid(o: JsonObject) {
    HasUuid(o, "vehicleId")
    && HasText(o, "startLocation", 1) && HasText(o, "plannedDestinations", 1) && HasText(o, "alcoholCheckerName", 1)
    && HasOption(o, "alcoholCheckResult", ["negative", "positive"])
    && HasOption(o, "healthCondition", ["good", "fair", "poor"])
    && HasOption(o, "fatigueLevel", ["none", "mild", "severe"])
    && MaybeNumber(o, "alcoholCheckValue", 0.0, None, false)
    && MaybeNumber(o, "sleepHours", 0.0, Some(24.0), false)
    && MaybeNumber(o, "cargoCount", 0.0, None, true)
    && MaybeText(o, "healthConditionNote")
  }

  /** The refinement, on the input: poor health needs a non-empty note. */
  predicate PoorHasNote(o: JsonObject) {
    "healthCondition" in o && o["healthCondition"] == Str("poor") ==>
      "healthConditionNote" in o && o["healthConditionNote"].Str? && |o["healthConditionNote"].s| > 0
  }

  lemma ShapeEntries()
    ensures Shape.Keys == {"vehicleId", "startLocation", "plannedDestinations", "alcoholCheckResult", "alcoholCheckValue",
      "alcoholCheckerName", "healthCondition", "healthConditionNote", "fatigueLevel", "sleepHours", "cargoCount"}
    ensures Shape["vehicleId"] == Required(UuidText)
    ensures Shape["startLocation"] == Required(Text(1))
    ensures Shape["plannedDestinations"] == Required(Text(1))
    ensures Shape["alcoholCheckResult"] == Required(OneOf(["negative", "positive"]))
    ensures Shape["alcoholCheckValue"] == Nullish(Number(Some(0.0), None, false))
    ensures Shape["alcoholCheckerName"] == Required(Text(1))
    ensures Shape["healthCondition"] == Required(OneOf(["good", "fair", "poor"]))
    ensures Shape["healthConditionNote"] == Nullish(Text(0))
    ensures Shape["fatigueLevel"] == Required(OneOf(["none", "mild", "severe"]))
    ensures Shape["sleepHours"] == Nullish(Number(Some(0.0), Some(24.0), false))
    ensures Shape["cargoCount"] == Nullish(Number(Some(0.0), None, true))
  {
  }

  /** The shape accepts exactly the objects that are valid key by key. */
  lemma ShapeAccepts(o: JsonObject)
    ensures Parse(Shape, o, NoEmail).Some? <==> ShapeValid(o)
  {
    KeysValid(o);
    if ShapeValid(o) {
      KeysCover(o);
    }
  }

  /** Each key's check, one by one. */
  lemma KeysValid(o: JsonObject)
    ensures ShapeValid(o) <==> (FieldOk(Shape, o, "vehicleId", NoEmail)
      && FieldOk(Shape, o, "startLocation", NoEmail)
      && FieldOk(Shape, o, "plannedDestinations", NoEmail)
      && FieldOk(Shape, o, "alcoholCheckResult", NoEmail)
      && FieldOk(Shape, o, "alcoholCheckValue", NoEmail)
      && FieldOk(Shape, o, "alcoholCheckerName", NoEmail)
      && FieldOk(Shape, o, "healthCondition", NoEmail)
      && FieldOk(Shape, o, "healthConditionNote", NoEmail)
      && FieldOk(Shape, o, "fatigueLevel", NoEmail)
      && FieldOk(Shape, o, "sleepHours", NoEmail)
      && FieldOk(Shape, o, "cargoCount", NoEmail))
  {
    ShapeEntries();
    RequiredUuid(o, "vehicleId", NoEmail);
    RequiredText(o, "startLocation", 1, NoEmail);
    RequiredText(o, "plannedDestinations", 1, NoEmail);
    RequiredOption(o, "alcoholCheckResult", ["negative", "positive"], NoEmail);
    NullishNumber(o, "alcoholCheckValue", 0.0, None, false, NoEmail);
    RequiredText(o, "alcoholCheckerName", 1, NoEmail);
    RequiredOption(o, "healthCondition", ["good", "fair", "poor"], NoEmail);
    NullishText(o, "healthConditionNote", NoEmail);
    RequiredOption(o, "fatigueLevel", ["none", "mild", "severe"], NoEmail);
    NullishNumber(o, "sleepHours", 0.0, Some(24.0), false, NoEmail);
    NullishNumber(o, "cargoCount", 0.0, None, true, NoEmail);
  }

  /** Every key of the shape is one of the eleven. */
  lemma KeysCover(o: JsonObject)
    requires FieldOk(Shape, o, "vehicleId", NoEmail)
      && FieldOk(Shape, o, "startLocation", NoEmail)
      && FieldOk(Shape, o, "plannedDestinations", NoEmail)
      && FieldOk(Shape, o, "alcoholCheckResult", NoEmail)
      && FieldOk(Shape, o, "alcoholCheckValue", NoEmail)
      && FieldOk(Shape, o, "alcoholCheckerName", NoEmail)
      && FieldOk(Shape, o, "healthCondition", NoEmail)
      && FieldOk(Shape, o, "healthConditionNote", NoEmail)
      && FieldOk(Shape, o, "fatigueLevel", NoEmail)
      && FieldOk(Shape, o, "sleepHours", NoEmail)
      && FieldOk(Shape, o, "cargoCount", NoEmail)
    ensures AllFieldsOk(Shape, o, NoEmail)
  {
    ShapeEntries();
  }

  /**
   * `preWorkReportSchema.safeParse(o)`: the object, stripped of unknown keys,
   * exactly when every key is valid and a poor health condition comes with a
   * note.
   */
  function ParseReport(o: JsonObject): (r: Option<JsonObject>)
    ensures r.Some? <==> ShapeValid(o) && PoorHasNote(o)
    ensures r.Some? ==> r.value.Keys <= Shape.Keys
  {
    var p := Parse(Shape, o, NoEmail);
    ShapeAccepts(o);
    if p.Some? then RefinementOnInput(o); if NoteIfPoor(p.value) then p else None
    else None
  }

  /** On an accepted object the refinement reads the same on the output as on the input. */
  lemma RefinementOnInput(o: JsonObject)
    requires Parse(Shape, o, NoEmail).Some?
    ensures NoteIfPoor(Parse(Shape, o, NoEmail).value) <==> PoorHasNote(o)
  {
    var out := Parse(Shape, o, NoEmail).value;
    ShapeEntries();
    assert "healthCondition" in Shape && "healthConditionNote" in Shape;
    assert ("healthCondition" in out <==> "healthCondition" in o) && ("healthCondition" in o ==> out["healthCondition"] == o["healthCondition"]);
    assert ("healthConditionNote" in out <==> "healthConditionNote" in o) && ("healthConditionNote" in o ==> out["healthConditionNote"] == o["healthConditionNote"]);
  }

  /** The complete report of the unit tests: a UUID vehicle, the required texts and the three enums. */
  const Sample: JsonObject := map[
    "vehicleId" := Str(SampleId),
    "startLocation" := Str("市川市南八幡"),
    "plannedDestinations" := Str("江東区エリア"),
    "alcoholCheckResult" := Str("negative"),
    "alcoholCheckerName" := Str("田中"),
    "healthCondition" := Str("good"),
    "fatigueLevel" := Str("none")]

  /** The sample report is accepted. */
  lemma SampleAccepted()
    ensures ParseReport(Sample).Some?
  {
    SampleUuid();
    assert ShapeValid(Sample);
  }

  /** With poor health and an empty note the sample is rejected. */
  lemma PoorWithoutNoteRejected()
    ensures ParseReport(Sample["healthCondition" := Str("poor")]["healthConditionNote" := Str("")]).None?
  {
    var o := Sample["healthCondition" := Str("poor")]["healthConditionNote" := Str("")];
    assert o["healthCondition"] == Str("poor") && o["healthConditionNote"] == Str("");
  }

  /** With poor health and a note the sample is accepted. */
  lemma PoorWithNoteAccepted()
    ensures ParseReport(Sample["healthCondition" := Str("poor")]["healthConditionNote" := Str("頭痛あり")]).Some?
  {
    var o := Sample["healthCondition" := Str("poor")]["healthConditionNote" := Str("頭痛あり")];
    SampleUuid();
    assert ShapeValid(o);
  }
}
