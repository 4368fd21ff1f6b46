/** `accidentReportSchema`: the accident report, with the injury refinement. */
module AccidentReportSchema {
  import opened Common
  import opened Zod

  const Shape: Zod.Shape := map[
    "vehicleId" := Nullish(UuidText),
    "occurredAt" := Required(Text(1)),
    "location" := Required(Text(1)),
    "summary" := Required(Text(1)),
    "cause" := Required(Text(1)),
    "preventionMeasures" := Required(Text(1)),
    "hasInjuries" := Required(Boolean),
    "injuryDetails" := Nullish(Text(0)),
    "isSerious" := Required(Boolean)]

  /** The five texts a report needs. */
  const TextKeys: set<string> := {"occurredAt", "location", "summary", "cause", "preventionMeasures"}

  lemma ShapeEntries()
    ensures Shape.Keys == {"vehicleId", "occurredAt", "location", "summary", "cause", "preventionMeasures",
      "hasInjuries", "injuryDetails", "isSerious"}
    ensures Shape["vehicleId"] == Nullish(UuidText)
    ensures forall k :: k in TextKeys ==> k in Shape && Shape[k] == Required(Text(1))
    ensures Shape["hasInjuries"] == Required(Boolean) && Shape["isSerious"] == Required(Boolean)
    ensures Shape["injuryDetails"] == Nullish(Text(0))
  {
  }

  /**
   * What the shape demands: a vehicle that is a UUID, null or missing; a
   * non-empty time, place, summary, cause and prevention plan; the two flags as
   * booleans; injury details that are a string, null or missing.
   */
  predicate ShapeValid(o: JsonObject) {
    MaybeUuid(o, "vehicleId")
    && (forall k :: k in TextKeys ==> HasText(o, k, 1))
    && HasBool(o, "hasInjuries") && HasBool(o, "isSerious")
    && MaybeText(o, "injuryDetails")
  }

  /** The refinement, on the input: a report with injuries needs non-empty injury details. */
  predicate DetailsIfInjured(o: JsonObject) {
    "hasInjuries" in o && o["hasInjuries"] == Bool(true) ==>
      "injuryDetails" in o && o["injuryDetails"].Str? && |o["injuryDetails"].s| > 0
  }

  predicate OtherKeysOk(o: JsonObject) {
    FieldOk(Shape, o, "vehicleId", NoEmail) && FieldOk(Shape, o, "hasInjuries", NoEmail)
    && FieldOk(Shape, o, "isSerious", NoEmail) && FieldOk(Shape, o, "injuryDetails", NoEmail)
  }

  lemma KeysValid(o: JsonObject)
    ensures ShapeValid(o) <==> OtherKeysOk(o) && forall k :: k in TextKeys ==> FieldOk(Shape, o, k, NoEmail)
  {
    ShapeEntries();
    NullishUuid(o, "vehicleId", NoEmail);
    forall k | k in TextKeys ensures FieldOk(Shape, o, k, NoEmail) <==> HasText(o, k, 1) {
      RequiredText(o, k, 1, NoEmail);
    }
    RequiredBool(o, "hasInjuries", NoEmail);
    RequiredBool(o, "isSerious", NoEmail);
    NullishText(o, "injuryDetails", NoEmail);
  }

  lemma KeysCover(o: JsonObject)
    requires OtherKeysOk(o) && forall k :: k in TextKeys ==> FieldOk(Shape, o, k, NoEmail)
    ensures AllFieldsOk(Shape, o, NoEmail)
  {
    ShapeEntries();
    assert forall k :: k in Shape ==> k in TextKeys || k in {"vehicleId", "hasInjuries", "isSerious", "injuryDetails"};
  }

  /** On an accepted object the refinement reads the same on the output as on the input. */
  lemma RefinementOnInput(o: JsonObject)
    requires Parse(Shape, o, NoEmail).Some?
    ensures DetailsIfInjured(Parse(Shape, o, NoEmail).value) <==> DetailsIfInjured(o)
  {
    var out := Parse(Shape, o, NoEmail).value;
    ShapeEntries();
    assert "hasInjuries" in Shape && "injuryDetails" in Shape;
    assert ("hasInjuries" in out <==> "hasInjuries" in o) && ("hasInjuries" in o ==> out["hasInjuries"] == o["hasInjuries"]);
    assert ("injuryDetails" in out <==> "injuryDetails" in o) && ("injuryDetails" in o ==> out["injuryDetails"] == o["injuryDetails"]);
  }

  /**
   * `accidentReportSchema.safeParse(o)`: the object, stripped of unknown keys,
   * exactly when every key is valid and a report with injuries describes them.
   */
  function ParseReport(o: JsonObject): (r: Option<JsonObject>)
    ensures r.Some? <==> ShapeValid(o) && DetailsIfInjured(o)
    ensures r.Some? ==> r.value.Keys <= Shape.Keys
  {
    var p := Parse(Shape, o, NoEmail);
    KeysValid(o);
    if ShapeValid(o) then KeysCover(o); RefinementOnInput(o); if DetailsIfInjured(p.value) then p else None
    else None
  }

  /** The unit tests' report without injuries. */
  const Sample: JsonObject := map[
    "occurredAt" := Str("2026-02-12T14:30:00+09:00"),
    "location" := Str("江東区亀戸"),
    "summary" := Str("左折時に電柱接触"),
    "cause" := Str("内輪差確認不足"),
    "preventionMeasures" := Str("ミラー確認徹底"),
    "hasInjuries" := Bool(false),
    "isSerious" := Bool(false)]

  /** The sample passes. */
  lemma SampleAccepted()
    ensures ParseReport(Sample).Some?
  {
    SampleTexts(Sample);
    assert ShapeValid(Sample);
  }

  /** The five texts of the sample are given and non-empty, in it and in any object that keeps them. */
  lemma SampleTexts(o: JsonObject)
    requires forall k :: k in TextKeys ==> k in o && o[k] == Sample[k]
    ensures forall k :: k in TextKeys ==> HasText(o, k, 1)
  {
    assert HasText(Sample, "occurredAt", 1) && HasText(Sample, "location", 1) && HasText(Sample, "summary", 1);
    assert HasText(Sample, "cause", 1) && HasText(Sample, "preventionMeasures", 1);
  }

  /** With injuries and no details the sample fails. */
  lemma InjuriesWithoutDetailsRejected()
    ensures ParseReport(Sample["hasInjuries" := Bool(true)]).None?
  {
    var o := Sample["hasInjuries" := Bool(true)];
    assert o["hasInjuries"] == Bool(true) && "injuryDetails" !in o;
  }

  /** With injuries and details the sample passes. */
  lemma InjuriesWithDetailsAccepted()
    ensures ParseReport(Sample["hasInjuries" := Bool(true)]["injuryDetails" := Str("軽傷1名")]).Some?
  {
    var o := Sample["hasInjuries" := Bool(true)]["injuryDetails" := Str("軽傷1名")];
    SampleTexts(o);
    assert ShapeValid(o);
  }
}
