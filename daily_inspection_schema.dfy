/** `dailyInspectionSchema`: the daily vehicle inspection, thirteen items in four groups. */
module DailyInspectionSchema {
  import opened Common
  import opened Zod
  import InspectionForm

  /** The thirteen items: engine room, lights, tyres, driver's seat. */
  const ItemKeys: seq<string> := ["engineOil", "coolantLevel", "battery", "headlights", "turnSignals", "brakeLights",
    "tirePressure", "tireTread", "tireDamage", "mirrors", "seatbelt", "brakes", "steering"]

  const Shape: Zod.Shape :=
    (map k | k in ItemKeys :: Required(Boolean))["vehicleId" := Required(UuidText)]["abnormalityNote" := Nullish(Text(0))]

  /** The schema checks the same thirteen items, in the same order, as the inspection form. */
  lemma SameItemsAsForm()
    ensures ItemKeys == InspectionForm.AllKeys
  {
    InspectionForm.ThirteenKeys();
  }

  lemma ShapeEntries()
    ensures Shape.Keys == set k | k in ItemKeys + ["vehicleId", "abnormalityNote"]
    ensures "vehicleId" !in ItemKeys && "abnormalityNote" !in ItemKeys
    ensures forall k :: k in ItemKeys ==> Shape[k] == Required(Boolean)
    ensures Shape["vehicleId"] == Required(UuidText) && Shape["abnormalityNote"] == Nullish(Text(0))
  {
  }

  /**
   * What the schema demands: a UUID vehicle, each of the thirteen items as a
   * boolean, and a note that is a string, null or missing. A failed item does
   * not make the note required here.
   */
  predicate Valid(o: JsonObject) {
    HasUuid(o, "vehicleId") && (forall k :: k in ItemKeys ==> HasBool(o, k)) && MaybeText(o, "abnormalityNote")
  }

  lemma KeysValid(o: JsonObject)
    ensures Valid(o) <==> AllFieldsOk(Shape, o, NoEmail)
  {
    ShapeEntries();
    RequiredUuid(o, "vehicleId", NoEmail);
    NullishText(o, "abnormalityNote", NoEmail);
    forall k | k in ItemKeys ensures FieldOk(Shape, o, k, NoEmail) <==> HasBool(o, k) {
      RequiredBool(o, k, NoEmail);
    }
    assert forall k :: k in Shape ==> k in ItemKeys || k == "vehicleId" || k == "abnormalityNote";
  }

  /** `dailyInspectionSchema.safeParse(o)`: accepted exactly when valid, the items and note unchanged and nothing else kept. */
  function ParseInspection(o: JsonObject): (r: Option<JsonObject>)
    ensures r.Some? <==> Valid(o)
    ensures r.Some? ==> r.value.Keys <= Shape.Keys
    ensures r.Some? ==> forall k :: k in ItemKeys ==> k in r.value && r.value[k] == o[k]
  {
    KeysValid(o);
    ShapeEntries();
    Parse(Shape, o, NoEmail)
  }

  /** The unit tests' inspection: every item true and a UUID vehicle. */
  const Sample: JsonObject := (map k | k in ItemKeys :: Bool(true))["vehicleId" := Str(SampleId)]

  lemma SampleAccepted()
    ensures ParseInspection(Sample).Some?
  {
    SampleUuid();
    ShapeEntries();
  }
}
