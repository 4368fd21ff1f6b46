/** `createDriverSchema` and `updateDriverSchema`. */
module DriverSchema {
  import opened Common
  import opened Zod

  const Statuses: seq<string> := ["active", "inactive", "suspended"]

  const CreateShape: Shape := map[
    "name" := Required(Text(1)),
    "nameKana" := Nullish(Text(0)),
    "phone" := Nullish(Text(0)),
    "dateOfBirth" := Nullish(Text(0)),
    "hireDate" := Nullish(Text(0)),
    "licenseNumber" := Nullish(Text(0)),
    "licenseExpiry" := Nullish(Text(0)),
    "healthCheckDate" := Nullish(Text(0)),
    "isSenior" := Defaulted(Boolean, Bool(false)),
    "isNewHire" := Defaulted(Boolean, Bool(false)),
    "status" := Defaulted(OneOf(Statuses), Str("active")),
    "defaultVehicleId" := Nullish(UuidText)]

  const UpdateShape: Shape := Partial(CreateShape)

  /** The seven optional text keys. */
  const TextKeys: set<string> := {"nameKana", "phone", "dateOfBirth", "hireDate", "licenseNumber", "licenseExpiry", "healthCheckDate"}

  lemma ShapeEntries()
    ensures CreateShape.Keys == {"name", "nameKana", "phone", "dateOfBirth", "hireDate", "licenseNumber", "licenseExpiry",
      "healthCheckDate", "isSenior", "isNewHire", "status", "defaultVehicleId"}
    ensures CreateShape["name"] == Required(Text(1))
    ensures forall k :: k in TextKeys ==> k in CreateShape && CreateShape[k] == Nullish(Text(0))
    ensures CreateShape["isSenior"] == Defaulted(Boolean, Bool(false)) && CreateShape["isNewHire"] == Defaulted(Boolean, Bool(false))
    ensures CreateShape["status"] == Defaulted(OneOf(Statuses), Str("active"))
    ensures CreateShape["defaultVehicleId"] == Nullish(UuidText)
  {
  }

  /**
   * What the create schema demands: a non-empty name; each of the seven
   * optional texts a string, null or missing; the two flags booleans or
   * missing; a status among the three, or missing; a default vehicle that is a
   * UUID, null or missing.
   */
  predicate CreateValid(o: JsonObject) {
    HasText(o, "name", 1)
    && (forall k :: k in TextKeys ==> MaybeText(o, k))
    && BoolOrAbsent(o, "isSenior") && BoolOrAbsent(o, "isNewHire")
    && OptionOrAbsent(o, "status", Statuses)
    && MaybeUuid(o, "defaultVehicleId")
  }

  predicate OtherKeysOk(shape: Shape, o: JsonObject)
    requires CreateShape.Keys <= shape.Keys
  {
    FieldOk(shape, o, "name", NoEmail) && FieldOk(shape, o, "isSenior", NoEmail) && FieldOk(shape, o, "isNewHire", NoEmail)
    && FieldOk(shape, o, "status", NoEmail) && FieldOk(shape, o, "defaultVehicleId", NoEmail)
  }

  lemma CreateKeysValid(o: JsonObject)
    ensures CreateValid(o) <==> OtherKeysOk(CreateShape, o) && forall k :: k in TextKeys ==> FieldOk(CreateShape, o, k, NoEmail)
  {
    ShapeEntries();
    RequiredText(o, "name", 1, NoEmail);
    forall k | k in TextKeys ensures FieldOk(CreateShape, o, k, NoEmail) <==> MaybeText(o, k) {
      NullishText(o, k, NoEmail);
    }
    DefaultedBool(o, "isSenior", false, NoEmail);
    DefaultedBool(o, "isNewHire", false, NoEmail);
    DefaultedOption(o, "status", Statuses, "active", NoEmail);
    NullishUuid(o, "defaultVehicleId", NoEmail);
  }

  lemma KeysCover(shape: Shape, o: JsonObject)
    requires shape.Keys == CreateShape.Keys
    requires OtherKeysOk(shape, o) && forall k :: k in TextKeys ==> FieldOk(shape, o, k, NoEmail)
    ensures AllFieldsOk(shape, o, NoEmail)
  {
    ShapeEntries();
    forall k | k in shape ensures FieldOk(shape, o, k, NoEmail) {
      if k !in TextKeys {
        assert k in {"name", "isSenior", "isNewHire", "status", "defaultVehicleId"};
      }
    }
  }

  /**
   * `createDriverSchema.safeParse(o)`: accepted exactly when valid; a flag that
   * was not given comes out false and a missing status comes out "active".
   */
  function ParseCreate(o: JsonObject): (r: Option<JsonObject>)
    ensures r.Some? <==> CreateValid(o)
    ensures r.Some? ==> r.value.Keys <= CreateShape.Keys
    ensures r.Some? && "isSenior" !in o ==> "isSenior" in r.value && r.value["isSenior"] == Bool(false)
    ensures r.Some? && "isNewHire" !in o ==> "isNewHire" in r.value && r.value["isNewHire"] == Bool(false)
    ensures r.Some? && "status" !in o ==> "status" in r.value && r.value["status"] == Str("active")
  {
    CreateKeysValid(o);
    ShapeEntries();
    if CreateValid(o) then KeysCover(CreateShape, o); Parse(CreateShape, o, NoEmail)
    else Parse(CreateShape, o, NoEmail)
  }

  /** What the update schema demands: every key may be missing; a given key is checked as on create. */
  predicate UpdateValid(o: JsonObject) {
    ("name" !in o || HasText(o, "name", 1))
    && (forall k :: k in TextKeys ==> MaybeText(o, k))
    && BoolOrAbsent(o, "isSenior") && BoolOrAbsent(o, "isNewHire")
    && OptionOrAbsent(o, "status", Statuses)
    && MaybeUuid(o, "defaultVehicleId")
  }

  lemma UpdateKeysValid(o: JsonObject)
    ensures UpdateValid(o) <==> OtherKeysOk(UpdateShape, o) && forall k :: k in TextKeys ==> FieldOk(UpdateShape, o, k, NoEmail)
  {
    UpdateTextKeys(o);
    UpdateOtherKeys(o);
  }

  lemma UpdateTextKeys(o: JsonObject)
    ensures (forall k :: k in TextKeys ==> MaybeText(o, k)) <==> forall k :: k in TextKeys ==> FieldOk(UpdateShape, o, k, NoEmail)
  {
    ShapeEntries();
    forall k | k in TextKeys ensures FieldOk(UpdateShape, o, k, NoEmail) <==> MaybeText(o, k) {
      PartialField(CreateShape[k], o, k, NoEmail);
      NullishText(o, k, NoEmail);
    }
  }

  lemma UpdateOtherKeys(o: JsonObject)
    ensures (("name" !in o || HasText(o, "name", 1)) && BoolOrAbsent(o, "isSenior") && BoolOrAbsent(o, "isNewHire")
      && OptionOrAbsent(o, "status", Statuses) && MaybeUuid(o, "defaultVehicleId")) <==> OtherKeysOk(UpdateShape, o)
  {
    ShapeEntries();
    PartialField(CreateShape["name"], o, "name", NoEmail);
    PartialField(CreateShape["isSenior"], o, "isSenior", NoEmail);
    PartialField(CreateShape["isNewHire"], o, "isNewHire", NoEmail);
    PartialField(CreateShape["status"], o, "status", NoEmail);
    PartialField(CreateShape["defaultVehicleId"], o, "defaultVehicleId", NoEmail);
    RequiredText(o, "name", 1, NoEmail);
    DefaultedBool(o, "isSenior", false, NoEmail);
    DefaultedBool(o, "isNewHire", false, NoEmail);
    DefaultedOption(o, "status", Statuses, "active", NoEmail);
    NullishUuid(o, "defaultVehicleId", NoEmail);
  }

  /** `updateDriverSchema.safeParse(o)`: accepted exactly when valid; the output holds only keys that were given, so no default is applied. */
  function ParseUpdate(o: JsonObject): (r: Option<JsonObject>)
    ensures r.Some? <==> UpdateValid(o)
    ensures r.Some? ==> r.value.Keys <= o.Keys
  {
    UpdateAccepts(o);
    PartialAcceptsMore(CreateShape, o, NoEmail);
    Parse(UpdateShape, o, NoEmail)
  }

  /** The update shape accepts exactly the objects that are valid for an update. */
  lemma UpdateAccepts(o: JsonObject)
    ensures Parse(UpdateShape, o, NoEmail).Some? <==> UpdateValid(o)
  {
    UpdateKeysValid(o);
    assert UpdateShape.Keys == CreateShape.Keys;
    if UpdateValid(o) {
      KeysCover(UpdateShape, o);
    } else {
      ShapeEntries();
      assert !AllFieldsOk(UpdateShape, o, NoEmail);
    }
  }

  /** The unit tests' fully filled record. */
  const FullRecord: JsonObject := map[
    "name" := Str("佐藤 太郎"),
    "nameKana" := Str("サトウ タロウ"),
    "phone" := Str("090-1234-5678"),
    "dateOfBirth" := Str("1985-06-15"),
    "licenseNumber" := Str("123456789012"),
    "isSenior" := Bool(false),
    "isNewHire" := Bool(true),
    "status" := Str("active")]

  /** The unit tests' cases: a name alone passes and an empty name fails. */
  lemma NameCases()
    ensures ParseCreate(map["name" := Str("佐藤 太郎")]).Some?
    ensures ParseCreate(map["name" := Str("")]).None?
  {
  }

  /** The unit tests' fully filled record passes. */
  lemma FullRecordAccepted()
    ensures ParseCreate(FullRecord).Some?
  {
    assert MaybeText(FullRecord, "nameKana") && MaybeText(FullRecord, "phone") && MaybeText(FullRecord, "dateOfBirth");
    assert MaybeText(FullRecord, "licenseNumber") && MaybeText(FullRecord, "hireDate");
    assert MaybeText(FullRecord, "licenseExpiry") && MaybeText(FullRecord, "healthCheckDate");
    assert CreateValid(FullRecord);
  }

  /** The unit tests' unknown status fails. */
  lemma UnknownStatusRejected()
    ensures ParseCreate(map["name" := Str("佐藤"), "status" := Str("invalid")]).None?
  {
    var o := map["name" := Str("佐藤"), "status" := Str("invalid")];
    assert o["status"].s !in Statuses;
  }

  /** The full record is also a valid update, and so is the empty one. */
  lemma UpdateCases()
    ensures ParseUpdate(FullRecord).Some?
    ensures ParseUpdate(map[]) == Some(map[])
  {
    FullRecordAccepted();
    PartialAcceptsMore(CreateShape, FullRecord, NoEmail);
    PartialAcceptsMore(CreateShape, map[], NoEmail);
  }
}
