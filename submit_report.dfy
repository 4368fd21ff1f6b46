/**
 * The submit-report edge function: a LIFF client identified by its LINE ID
 * token either identifies itself (its driver row and default vehicle) or
 * submits a report of one of four kinds. The report body is cut down to the
 * kind's whitelist, the server's own ids are written over it, its keys are
 * converted to snake case, and an expiry date is added before the insert.
 * `verify` is the LINE ID-token check (`Err` when it throws), `insert` the
 * database insert (the inserted row, or the database's error message), `today`
 * the UTC date. Every throw is caught and answered with 500.
 */
module SubmitReport {
  import opened Common
  import opened Tables
  import opened Records
  import opened Calendar
  import Supabase
  import KeyNames
  import LinkDriver

  datatype ReportKind = PreWorkKind | PostWorkKind | InspectionKind | AccidentKind

  /**
   * A lookup by the client's `type` in a plain object literal: one of its four keys, a name every object
   * inherits from `Object.prototype` (a function or the prototype itself: truthy, not iterable), or nothing.
   */
  datatype Lookup = Known(kind: ReportKind) | Inherited | Missing

  const PrototypeNames: set<string> := {"constructor", "__defineGetter__", "__defineSetter__", "hasOwnProperty",
    "__lookupGetter__", "__lookupSetter__", "isPrototypeOf", "propertyIsEnumerable", "toString", "valueOf",
    "__proto__", "toLocaleString"}

  /**
   * The property name `TABLE_MAP[type]` and `ALLOWED_FIELDS[type]` look up: the string itself, or the name an
   * array or object converts to. None for a missing `type`, null, a boolean or a number, whose names
   * ("undefined", "null", "true", "false", digits) are keys of neither object nor of `Object.prototype`.
   */
  function TypeKey(body: map<string, Value>): (k: Option<string>)
    ensures "type" in body && body["type"].VStr? ==> k == Some(body["type"].s)
    ensures "type" in body && body["type"].VOther? ==> k == Some(body["type"].key)
    ensures !("type" in body && (body["type"].VStr? || body["type"].VOther?)) ==> k.None?
  {
    if "type" !in body then None
    else match body["type"]
      case VStr(s) => Some(s)
      case VOther(key) => Some(key)
      case _ => None
  }

  function LookupType(t: Option<string>): (r: Lookup)
    ensures r.Known? <==> t.Some? && t.value in {"pre_work", "post_work", "inspection", "accident"}
    ensures r == Inherited <==> t.Some? && t.value in PrototypeNames
  {
    if t.None? then Missing
    else if t.value == "pre_work" then Known(PreWorkKind)
    else if t.value == "post_work" then Known(PostWorkKind)
    else if t.value == "inspection" then Known(InspectionKind)
    else if t.value == "accident" then Known(AccidentKind)
    else if t.value in PrototypeNames then Inherited
    else Missing
  }

  /** `TABLE_MAP`. */
  function TableName(k: ReportKind): string {
    match k
    case PreWorkKind => "pre_work_reports"
    case PostWorkKind => "post_work_reports"
    case InspectionKind => "daily_inspections"
    case AccidentKind => "accident_reports"
  }

  /** `ALLOWED_FIELDS`, in declaration order. */
  function AllowedFields(k: ReportKind): seq<string> {
    match k
    case PreWorkKind =>
      ["reportDate", "vehicleId", "clockInAt", "departurePoint",
       "alcoholCheckResult", "alcoholCheckValue", "alcoholCheckerName",
       "healthCondition", "fatigueLevel", "sleepHours", "sleepSufficient",
       "illnessNote", "routeInfo", "notes"]
    case PostWorkKind =>
      ["reportDate", "vehicleId", "clockOutAt", "arrivalPoint",
       "distanceKm", "cargoDeliveredCount", "restPeriods",
       "alcoholCheckResult", "alcoholCheckValue", "alcoholCheckerName",
       "roadConditionNote", "vehicleConditionNote", "notes"]
    case InspectionKind =>
      ["inspectionDate", "vehicleId",
       "engineOil", "coolantLevel", "battery", "fanBelt",
       "headlights", "turnSignals", "brakeLights", "hazardLights",
       "tirePressure", "tireTread", "tireDamage",
       "mirrors", "seatbelt", "brakes", "steering",
       "allPassed", "abnormalityNote", "notes"]
    case AccidentKind =>
      ["occurredAt", "vehicleId", "location", "latitude", "longitude",
       "summary", "cause", "preventionMeasures",
       "hasInjuries", "injuryDetails", "isSerious",
       "counterpartyInfo", "policeReported", "insuranceContacted",
       "notes", "status"]
  }

  /** The names the server writes over the client's payload. */
  const ServerKeys: set<string> := {"organizationId", "driverId", "submittedVia"}

  /** No whitelist lets the client send a key the server writes. */
  lemma AllowedFieldsAvoidServerKeys(k: ReportKind)
    ensures forall f :: f in AllowedFields(k) ==> f !in ServerKeys
  {
    match k
    case PreWorkKind => PreWorkFieldsAvoidServerKeys();
    case PostWorkKind => PostWorkFieldsAvoidServerKeys();
    case InspectionKind => InspectionFieldsAvoidServerKeys();
    case AccidentKind => AccidentFieldsAvoidServerKeys();
  }

  lemma PreWorkFieldsAvoidServerKeys()
    ensures forall f :: f in AllowedFields(PreWorkKind) ==> f !in ServerKeys
  {
  }

  lemma PostWorkFieldsAvoidServerKeys()
    ensures forall f :: f in AllowedFields(PostWorkKind) ==> f !in ServerKeys
  {
  }

  lemma InspectionFieldsAvoidServerKeys()
    ensures forall f :: f in AllowedFields(InspectionKind) ==> f !in ServerKeys
  {
  }

  lemma AccidentFieldsAvoidServerKeys()
    ensures forall f :: f in AllowedFields(AccidentKind) ==> f !in ServerKeys
  {
  }

  /** The whitelisted entries of `data`, in whitelist order: the object `sanitizePayload` builds. */
  function Sanitized(allowed: seq<string>, data: map<string, Value>): (r: Record)
    ensures forall k :: k in Keys(r) <==> k in allowed && k in data
    ensures forall e :: e in r ==> e.0 in data && e.1 == data[e.0]
  {
    if allowed == [] then []
    else
      var init := Sanitized(allowed[..|allowed| - 1], data);
      var k := allowed[|allowed| - 1];
      assert forall x :: x in allowed <==> x in allowed[..|allowed| - 1] || x == k;
      if k in data then
        assert Keys(init + [(k, data[k])]) == Keys(init) + [k] by {
          KeysAppend(init, (k, data[k]));
        }
        init + [(k, data[k])]
      else init
  }

  lemma KeysAppend(r: Record, e: (string, Value))
    ensures Keys(r + [e]) == Keys(r) + [e.0]
  {
    var s := r + [e];
    assert |Keys(s)| == |Keys(r) + [e.0]|;
    forall i | 0 <= i < |s| ensures Keys(s)[i] == (Keys(r) + [e.0])[i] {
    }
  }

  /** `data ?? {}` as the `in` operator sees it: no object (an empty one), an object, or a primitive (throws). */
  datatype DataArg = NoData | Fields(fields: map<string, Value>) | Primitive

  /**
   * `data ?? {}` from the body's `data` member: absent or null is the empty
   * object, a boolean, number or string is a primitive, and an array or object
   * (carried as `VOther`) has the properties the `in` operator sees.
   */
  predicate DataOf(body: map<string, Value>, data: DataArg) {
    if "data" !in body || body["data"] == VNull then data == NoData
    else if body["data"].VOther? then data.Fields?
    else data == Primitive
  }

  /** `sanitizePayload`: None when the loop throws (an inherited whitelist, or `in` on a primitive). */
  method SanitizePayload(t: Lookup, data: DataArg) returns (r: Option<Record>)
    ensures t == Missing ==> r == Some([])
    ensures t == Inherited || (t.Known? && data == Primitive) <==> r.None?
    ensures t.Known? && data != Primitive ==>
      r == Some(Sanitized(AllowedFields(t.kind), if data.Fields? then data.fields else map[]))
  {
    if t == Missing {
      return Some([]);
    }
    if t == Inherited || data == Primitive {
      return None;
    }
    var allowed := AllowedFields(t.kind);
    var fields := if data.Fields? then data.fields else map[];
    var result: Record := [];
    var i := 0;
    while i < |allowed|
      invariant 0 <= i <= |allowed|
      invariant result == Sanitized(allowed[..i], fields)
    {
      assert allowed[..i + 1][..i] == allowed[..i];
      if allowed[i] in fields {
        result := result + [(allowed[i], fields[allowed[i]])];
      }
      i := i + 1;
    }
    assert allowed[..|allowed|] == allowed;
    return Some(result);
  }

  /** `{ ...sanitized, organizationId, driverId, submittedVia: 'liff' }`. */
  function SafePayload(sanitized: Record, driver: Driver): Record {
    Assign(Assign(Assign(sanitized, "organizationId", VStr(driver.organizationId)), "driverId", VStr(driver.id)),
           "submittedVia", VStr("liff"))
  }

  /** How long each table keeps a report. */
  function RetentionYears(table: string): (n: nat)
    ensures n == 3 <==> table == "accident_reports"
    ensures n == 1 <==> table != "accident_reports"
  {
    if table == "accident_reports" then 3 else 1
  }

  /** The row `insertReport` sends: the snake-case payload plus `expires_at`. */
  function InsertRow(table: string, payload: Record, today: Date): Record
    requires ValidDay(today) && 0 <= today.year <= 9000
  {
    var e := AddYears(today, RetentionYears(table));
    Assign(Supabase.Renamed(payload, Supabase.CamelToSnake), "expires_at", VStr(IsoDate(e)))
  }

  /** `insertReport`: the key-conversion loop, the expiry, then the insert. */
  method InsertReport(table: string, payload: Record, today: Date, insert: (string, Record) -> Result<Record>)
    returns (row: Record, r: Result<Record>)
    requires ValidDay(today) && 0 <= today.year <= 9000
    ensures row == InsertRow(table, payload, today)
    ensures r == match insert(table, row) case Ok(v) => Ok(v) case Err(m) => Err("DB insert failed: " + m)
  {
    var snake := Supabase.RenameKeys(payload, Supabase.CamelToSnake);
    var retention := RetentionYears(table);
    var expires := AddYears(today, retention);
    row := Assign(snake, "expires_at", VStr(IsoDate(expires)));
    match insert(table, row)
    case Ok(v) => r := Ok(v);
    case Err(m) => r := Err("DB insert failed: " + m);
  }

  /** The default vehicle as `identify` returns it. */
  datatype VehicleCard = VehicleCard(id: string, plateNumber: string, maker: Option<string>, model: Option<string>)

  datatype Reply =
    | Preflight
    | Failure(status: nat, message: string)
    | Thrown  // an exception caught by the handler: 500 with the exception's message
    | Identified(driverId: string, organizationId: string, name: string, defaultVehicleId: Option<string>,
                 vehicle: Option<VehicleCard>)
    | Submitted(data: Record)

  function StatusOf(r: Reply): nat {
    match r
    case Preflight => 200
    case Failure(status, _) => status
    case Thrown => 500
    case Identified(_, _, _, _, _) => 200
    case Submitted(_) => 200
  }

  const AuthRequiredMessage := "認証が必要です"
  const LineAuthFailedMessage := "LINE認証に失敗しました"
  const UnknownDriverMessage := "登録されていないドライバーです"
  const BadTypeMessage := "無効なレポート種別です"
  const BadActionMessage := "無効なアクションです"

  /** `getVehicle`: none without a default vehicle id, else the one row with that id (a failed read is none). */
  function DefaultVehicle(vehicles: seq<Vehicle>, vehicleId: Option<string>, readOk: bool): (r: Option<VehicleCard>)
    ensures !Truthy(vehicleId) || !readOk ==> r.None?
    ensures r.Some? ==> exists v :: v in vehicles && Some(v.id) == vehicleId && r.value == VehicleCard(v.id, v.plateNumber, v.maker, v.model)
  {
    if !Truthy(vehicleId) || !readOk then None
    else match Single(vehicles, (v: Vehicle) => v.id == vehicleId.value)
      case None => None
      case Some(v) => Some(VehicleCard(v.id, v.plateNumber, v.maker, v.model))
  }

  /** Whether the two `.single()` reads succeed: `findDriverByLineUserId` and `getVehicle`. */
  datatype Lookups = Lookups(driverOk: bool, vehicleOk: bool)

  /**
   * The caller the request authenticates as, when there is one: `findDriverByLineUserId` answers null
   * on a read error as it does for no single active driver.
   */
  function Caller(authHeader: Option<string>, verify: string -> Result<Option<string>>, drivers: seq<Driver>,
                  driverOk: bool): (r: Option<Driver>)
    ensures r.Some? <==> LinkDriver.Caller(authHeader, verify).Some? && driverOk
                         && ActiveDriverOf(drivers, LinkDriver.Caller(authHeader, verify).value).Some?
  {
    var sub := LinkDriver.Caller(authHeader, verify);
    if sub.None? || !driverOk then None else ActiveDriverOf(drivers, sub.value)
  }

  /**
   * What a `submit` by `driver` does: 400 exactly for a type that names no table; a caught exception (500)
   * exactly for an inherited name or a primitive `data`; otherwise the sanitised, server-stamped row is sent
   * to the insert, and the reply is the inserted row or the insert's error.
   */
  predicate SubmitOutcome(reply: Reply, sentRow: Option<(string, Record)>, driver: Driver, fields: map<string, Value>,
                           data: DataArg, today: Date, insert: (string, Record) -> Result<Record>)
    requires ValidDay(today) && 0 <= today.year <= 9000
  {
    var t := LookupType(TypeKey(fields));
    (reply == Failure(400, BadTypeMessage) <==> t == Missing)
    && (reply == Thrown <==> t == Inherited || (t.Known? && data == Primitive))
    && (sentRow.Some? <==> t.Known? && data != Primitive)
    && (sentRow.Some? ==>
          var sanitized := Sanitized(AllowedFields(t.kind), if data.Fields? then data.fields else map[]);
          sentRow.value == (TableName(t.kind), InsertRow(TableName(t.kind), SafePayload(sanitized, driver), today))
          && reply == match insert(sentRow.value.0, sentRow.value.1)
                      case Ok(v) => Submitted(v)
                      case Err(m) => Failure(500, "DB insert failed: " + m))
  }

  /** What a `submit` outcome implies: a row is sent exactly for a known type and an object payload, and it is never a 401 or 403. */
  lemma SubmitOutcomeStatus(reply: Reply, sentRow: Option<(string, Record)>, driver: Driver, fields: map<string, Value>,
                            data: DataArg, today: Date, insert: (string, Record) -> Result<Record>)
    requires ValidDay(today) && 0 <= today.year <= 9000
    requires SubmitOutcome(reply, sentRow, driver, fields, data, today, insert)
    ensures sentRow.Some? <==> LookupType(TypeKey(fields)).Known? && data != Primitive
    ensures StatusOf(reply) != 401 && StatusOf(reply) != 403
  {
  }

  /** The `submit` action: the type lookup, `sanitizePayload`, the server's fields, then `insertReport`. */
  method Submit(driver: Driver, fields: map<string, Value>, data: DataArg, today: Date,
                insert: (string, Record) -> Result<Record>)
    returns (reply: Reply, sentRow: Option<(string, Record)>)
    requires ValidDay(today) && 0 <= today.year <= 9000
    ensures SubmitOutcome(reply, sentRow, driver, fields, data, today, insert)
  {
    var t := LookupType(TypeKey(fields));
    if t == Missing {
      return Failure(400, BadTypeMessage), None;
    }
    var sanitized := SanitizePayload(t, data);
    if sanitized.None? {
      return Thrown, None;
    }
    var table := TableName(t.kind);
    var row, r := InsertReport(table, SafePayload(sanitized.value, driver), today, insert);
    sentRow := Some((table, row));
    match r
    case Ok(v) => reply := Submitted(v);
    case Err(m) => reply := Failure(500, m);
  }

  /**
   * The serve handler: the reply, and the table and row sent to the insert when one is sent.
   * A body is None when `req.json()` throws or yields null (destructuring null throws); `data` is its
   * `data` member, as `DataOf` reads it.
   */
  method Handle(httpMethod: string, authHeader: Option<string>, verify: string -> Result<Option<string>>,
                body: Option<map<string, Value>>, data: DataArg, drivers: seq<Driver>, vehicles: seq<Vehicle>,
                lookups: Lookups, today: Date, insert: (string, Record) -> Result<Record>)
    returns (reply: Reply, sentRow: Option<(string, Record)>)
    requires ValidDay(today) && 0 <= today.year <= 9000
    requires body.Some? ==> DataOf(body.value, data)
    ensures httpMethod == "OPTIONS" ==> reply == Preflight && sentRow.None?
    ensures httpMethod != "OPTIONS" ==>
      (StatusOf(reply) == 401 <==>
         LinkDriver.Caller(authHeader, verify).None? && !LinkDriver.VerifyThrows(authHeader, verify))
      && (StatusOf(reply) == 403 <==>
            LinkDriver.Caller(authHeader, verify).Some? && Caller(authHeader, verify, drivers, lookups.driverOk).None?)
    ensures httpMethod != "OPTIONS" && LinkDriver.VerifyThrows(authHeader, verify) ==> reply == Thrown && sentRow.None?
    ensures httpMethod != "OPTIONS" && LinkDriver.Caller(authHeader, verify).Some? && !lookups.driverOk ==>
      reply == Failure(403, UnknownDriverMessage) && sentRow.None?
    ensures httpMethod != "OPTIONS" && Caller(authHeader, verify, drivers, lookups.driverOk).Some? && body.None? ==> reply == Thrown && sentRow.None?
    ensures sentRow.Some? <==>
      httpMethod != "OPTIONS" && Caller(authHeader, verify, drivers, lookups.driverOk).Some? && body.Some?
      && ActionIs(body.value, "submit") && LookupType(TypeKey(body.value)).Known? && data != Primitive
    ensures httpMethod != "OPTIONS" && Caller(authHeader, verify, drivers, lookups.driverOk).Some? && body.Some? && ActionIs(body.value, "submit") ==>
      SubmitOutcome(reply, sentRow, Caller(authHeader, verify, drivers, lookups.driverOk).value, body.value, data, today, insert)
    ensures httpMethod != "OPTIONS" && Caller(authHeader, verify, drivers, lookups.driverOk).Some? && body.Some?
            && !ActionIs(body.value, "identify") && !ActionIs(body.value, "submit") ==>
      reply == Failure(400, BadActionMessage) && sentRow.None?
    ensures httpMethod != "OPTIONS" && Caller(authHeader, verify, drivers, lookups.driverOk).Some? && body.Some? && ActionIs(body.value, "identify") ==>
      var d := Caller(authHeader, verify, drivers, lookups.driverOk).value;
      reply == Identified(d.id, d.organizationId, d.name, d.defaultVehicleId, DefaultVehicle(vehicles, d.defaultVehicleId, lookups.vehicleOk))
      && sentRow.None?
  {
    sentRow := None;
    if httpMethod == "OPTIONS" {
      return Preflight, None;
    }
    if authHeader.None? || !StartsWith(authHeader.value, "Bearer ") {
      return Failure(401, AuthRequiredMessage), None;
    }
    var verified := verify(authHeader.value[7..]);
    if verified.Err? {
      return Thrown, None;
    }
    var lineUserId := verified.value;
    if !Truthy(lineUserId) {
      return Failure(401, LineAuthFailedMessage), None;
    }
    var found := if lookups.driverOk then ActiveDriverOf(drivers, lineUserId.value) else None;
    if found.None? {
      return Failure(403, UnknownDriverMessage), None;
    }
    var driver := found.value;
    if body.None? {
      return Thrown, None;
    }
    var fields := body.value;
    if ActionIs(fields, "identify") {
      var vehicle := DefaultVehicle(vehicles, driver.defaultVehicleId, lookups.vehicleOk);
      return Identified(driver.id, driver.organizationId, driver.name, driver.defaultVehicleId, vehicle), None;
    }
    if ActionIs(fields, "submit") {
      reply, sentRow := Submit(driver, fields, data, today, insert);
      SubmitOutcomeStatus(reply, sentRow, driver, fields, data, today, insert);
      return;
    }
    return Failure(400, BadActionMessage), None;
  }

  /** `typeof body[key] === 'string' ? body[key] : null`. */
  function StringField(body: map<string, Value>, key: string): Option<string> {
    if key in body && body[key].VStr? then Some(body[key].s) else None
  }

  predicate ActionIs(body: map<string, Value>, action: string) {
    "action" in body && body["action"] == VStr(action)
  }

  lemma ServerKeyNames()
    ensures Supabase.CamelToSnake("organizationId") == "organization_id"
    ensures Supabase.CamelToSnake("driverId") == "driver_id"
    ensures Supabase.CamelToSnake("submittedVia") == "submitted_via"
  {
    KeyNames.OrganizationIdName();
    KeyNames.DriverIdName();
    KeyNames.SubmittedViaName();
  }

  /** The three entries the server writes, in the order it writes them. */
  function ServerEntries(driver: Driver): Record {
    [("organizationId", VStr(driver.organizationId)), ("driverId", VStr(driver.id)), ("submittedVia", VStr("liff"))]
  }

  lemma ServerEntriesKeys(driver: Driver)
    ensures forall k :: k in Keys(ServerEntries(driver)) ==> k in ServerKeys
  {
    var extra := ServerEntries(driver);
    assert Keys(extra) == [extra[0].0, extra[1].0, extra[2].0];
  }

  /** With no server key among the sanitised ones, the server's three entries are appended after them. */
  lemma SafePayloadAppends(sanitized: Record, driver: Driver)
    requires forall k :: k in Keys(sanitized) ==> k !in ServerKeys
    ensures SafePayload(sanitized, driver) == sanitized + ServerEntries(driver)
  {
    var e1 := ("organizationId", VStr(driver.organizationId));
    var e2 := ("driverId", VStr(driver.id));
    var e3 := ("submittedVia", VStr("liff"));
    assert "organizationId" in ServerKeys && "driverId" in ServerKeys && "submittedVia" in ServerKeys;
    assert |e1.0| == 14 && |e2.0| == 8 && |e3.0| == 12;
    AppendThree(sanitized, e1, e2, e3);
  }

  /** Setting three distinct keys the record lacks appends the three entries, in order. */
  lemma AppendThree(r: Record, e1: (string, Value), e2: (string, Value), e3: (string, Value))
    requires e1.0 !in Keys(r) && e2.0 !in Keys(r) && e3.0 !in Keys(r)
    requires e1.0 != e2.0 && e1.0 != e3.0 && e2.0 != e3.0
    ensures Assign(Assign(Assign(r, e1.0, e1.1), e2.0, e2.1), e3.0, e3.1) == r + [e1, e2, e3]
  {
    AppendFresh(r, e1);
    AppendFresh(r + [e1], e2);
    AppendFresh((r + [e1]) + [e2], e3);
    ConcatThree(r, e1, e2, e3);
  }

  lemma ConcatThree<T>(r: seq<T>, a: T, b: T, c: T)
    ensures ((r + [a]) + [b]) + [c] == r + [a, b, c]
  {
    assert [a] + [b] + [c] == [a, b, c];
  }

  /** Setting a key the record lacks appends the entry, and its name after the others. */
  lemma AppendFresh(r: Record, e: (string, Value))
    requires e.0 !in Keys(r)
    ensures Assign(r, e.0, e.1) == r + [e]
    ensures forall x :: x in Keys(r + [e]) <==> x in Keys(r) || x == e.0
  {
    AssignAppends(r, e.0, e.1);
    KeysAppend(r, e);
  }

  /**
   * Whatever the client sends, the inserted row carries the caller's organisation and driver id, says it came
   * through LIFF, and expires 3 years on for an accident report and 1 year on otherwise.
   */
  lemma ServerFieldsWin(kind: ReportKind, data: map<string, Value>, driver: Driver, today: Date)
    requires ValidDay(today) && 0 <= today.year <= 9000
    ensures var row := InsertRow(TableName(kind), SafePayload(Sanitized(AllowedFields(kind), data), driver), today);
      Get(row, "organization_id") == Some(VStr(driver.organizationId))
      && Get(row, "driver_id") == Some(VStr(driver.id))
      && Get(row, "submitted_via") == Some(VStr("liff"))
      && Get(row, "expires_at") == Some(VStr(IsoDate(AddYears(today, if kind == AccidentKind then 3 else 1))))
  {
    AllowedFieldsAvoidServerKeys(kind);
    ServerFieldsWinFor(Sanitized(AllowedFields(kind), data), driver, TableName(kind), today);
  }

  lemma ServerFieldsWinFor(s: Record, driver: Driver, table: string, today: Date)
    requires ValidDay(today) && 0 <= today.year <= 9000
    requires forall k :: k in Keys(s) ==> k !in ServerKeys
    ensures var row := InsertRow(table, SafePayload(s, driver), today);
      Get(row, "organization_id") == Some(VStr(driver.organizationId))
      && Get(row, "driver_id") == Some(VStr(driver.id))
      && Get(row, "submitted_via") == Some(VStr("liff"))
      && Get(row, "expires_at") == Some(VStr(IsoDate(AddYears(today, RetentionYears(table)))))
  {
    var e1 := ("organizationId", VStr(driver.organizationId));
    var e2 := ("driverId", VStr(driver.id));
    var e3 := ("submittedVia", VStr("liff"));
    var f := Supabase.CamelToSnake;
    var p := SafePayload(s, driver);
    assert p == ((s + [e1]) + [e2]) + [e3] by {
      SafePayloadAppends(s, driver);
      ConcatThree(s, e1, e2, e3);
    }
    var r0 := Supabase.Renamed(s, f);
    var r1 := Assign(r0, "organization_id", e1.1);
    var r2 := Assign(r1, "driver_id", e2.1);
    var r3 := Assign(r2, "submitted_via", e3.1);
    assert Supabase.Renamed(p, f) == r3 by {
      Supabase.RenamedSnoc((s + [e1]) + [e2], e3, f);
      Supabase.RenamedSnoc(s + [e1], e2, f);
      Supabase.RenamedSnoc(s, e1, f);
      ServerKeyNames();
    }
    var v := VStr(IsoDate(AddYears(today, RetentionYears(table))));
    assert InsertRow(table, p, today) == Assign(r3, "expires_at", v);
    FourGets(r0, "organization_id", e1.1, "driver_id", e2.1, "submitted_via", e3.1, "expires_at", v);
  }

  /** After four assignments to distinct keys, each key reads back its own value. */
  lemma FourGets(r0: Record, k1: string, v1: Value, k2: string, v2: Value, k3: string, v3: Value, k4: string, v4: Value)
    requires k1 != k2 && k1 != k3 && k1 != k4 && k2 != k3 && k2 != k4 && k3 != k4
    ensures var row := Assign(Assign(Assign(Assign(r0, k1, v1), k2, v2), k3, v3), k4, v4);
      Get(row, k1) == Some(v1) && Get(row, k2) == Some(v2) && Get(row, k3) == Some(v3) && Get(row, k4) == Some(v4)
  {
    var r1 := Assign(r0, k1, v1);
    var r2 := Assign(r1, k2, v2);
    var r3 := Assign(r2, k3, v3);
    AssignGet(r0, k1, v1);
    AssignGet(r1, k2, v2);
    AssignGet(r2, k3, v3);
    AssignGet(r3, k4, v4);
  }

  /**
   * The inserted row holds nothing but the expiry, the server's fields (renamed, their names are those of
   * `ServerKeyNames`) and whitelisted client fields (renamed).
   */
  lemma OnlyWhitelistedFields(kind: ReportKind, data: map<string, Value>, driver: Driver, today: Date)
    requires ValidDay(today) && 0 <= today.year <= 9000
    ensures var row := InsertRow(TableName(kind), SafePayload(Sanitized(AllowedFields(kind), data), driver), today);
      forall x :: x in Keys(row) ==>
        x == "expires_at"
        || (exists k :: k in ServerKeys && x == Supabase.CamelToSnake(k))
        || exists f :: f in AllowedFields(kind) && f in data && x == Supabase.CamelToSnake(f)
  {
    AllowedFieldsAvoidServerKeys(kind);
    OnlyWhitelistedFieldsFor(AllowedFields(kind), data, driver, TableName(kind), today);
  }

  lemma OnlyWhitelistedFieldsFor(allowed: seq<string>, data: map<string, Value>, driver: Driver, table: string, today: Date)
    requires ValidDay(today) && 0 <= today.year <= 9000
    requires forall f :: f in allowed ==> f !in ServerKeys
    ensures var row := InsertRow(table, SafePayload(Sanitized(allowed, data), driver), today);
      forall x :: x in Keys(row) ==>
        x == "expires_at"
        || (exists k :: k in ServerKeys && x == Supabase.CamelToSnake(k))
        || exists f :: f in allowed && f in data && x == Supabase.CamelToSnake(f)
  {
    var s := Sanitized(allowed, data);
    var v := VStr(IsoDate(AddYears(today, RetentionYears(table))));
    assert InsertRow(table, SafePayload(s, driver), today)
        == Assign(Supabase.Renamed(s + ServerEntries(driver), Supabase.CamelToSnake), "expires_at", v) by {
      SafePayloadAppends(s, driver);
    }
    ServerEntriesKeys(driver);
    RowOrigin(s, ServerEntries(driver), v, allowed, data);
  }

  lemma RowOrigin(s: Record, extra: Record, v: Value, allowed: seq<string>, data: map<string, Value>)
    requires forall k :: k in Keys(extra) ==> k in ServerKeys
    requires forall k :: k in Keys(s) ==> k in allowed && k in data
    ensures forall x :: x in Keys(Assign(Supabase.Renamed(s + extra, Supabase.CamelToSnake), "expires_at", v)) ==>
      x == "expires_at"
      || (exists k :: k in ServerKeys && x == Supabase.CamelToSnake(k))
      || exists f :: f in allowed && f in data && x == Supabase.CamelToSnake(f)
  {
    RowKeys(s, extra, v);
    forall x | x in Keys(Assign(Supabase.Renamed(s + extra, Supabase.CamelToSnake), "expires_at", v)) && x != "expires_at"
      ensures (exists k :: k in ServerKeys && x == Supabase.CamelToSnake(k))
              || exists f :: f in allowed && f in data && x == Supabase.CamelToSnake(f)
    {
      ColumnOrigin(x, allowed, data, s, Keys(extra));
    }
  }

  lemma ColumnOrigin(x: string, allowed: seq<string>, data: map<string, Value>, s: Record, extraKeys: seq<string>)
    requires forall k :: k in extraKeys ==> k in ServerKeys
    requires forall k :: k in Keys(s) ==> k in allowed && k in data
    requires (exists k :: k in extraKeys && x == Supabase.CamelToSnake(k)) || exists k :: k in Keys(s) && x == Supabase.CamelToSnake(k)
    ensures (exists k :: k in ServerKeys && x == Supabase.CamelToSnake(k))
            || exists f :: f in allowed && f in data && x == Supabase.CamelToSnake(f)
  {
    if k :| k in extraKeys && x == Supabase.CamelToSnake(k) {
    } else {
      var k :| k in Keys(s) && x == Supabase.CamelToSnake(k);
      assert k in allowed && k in data;
    }
  }

  /** Renaming `s + extra` and stamping an expiry yields the expiry and the renamed keys of `s` and of `extra`. */
  lemma RowKeys(s: Record, extra: Record, v: Value)
    ensures forall x :: x in Keys(Assign(Supabase.Renamed(s + extra, Supabase.CamelToSnake), "expires_at", v)) ==>
      x == "expires_at" || (exists k :: k in Keys(extra) && x == Supabase.CamelToSnake(k))
      || exists k :: k in Keys(s) && x == Supabase.CamelToSnake(k)
  {
    var payload := s + extra;
    ExpiryKeys(payload, v);
    forall x | x in Keys(Assign(Supabase.Renamed(payload, Supabase.CamelToSnake), "expires_at", v)) && x != "expires_at"
      ensures (exists k :: k in Keys(extra) && x == Supabase.CamelToSnake(k))
              || exists k :: k in Keys(s) && x == Supabase.CamelToSnake(k)
    {
      var i :| 0 <= i < |payload| && x == Supabase.CamelToSnake(payload[i].0);
      if i < |s| {
        assert Keys(s)[i] == payload[i].0;
      } else {
        assert Keys(extra)[i - |s|] == payload[i].0;
      }
    }
  }

  /** Renaming and then stamping the expiry adds only `expires_at` to the renamed keys. */
  lemma ExpiryKeys(payload: Record, v: Value)
    ensures forall x :: x in Keys(Assign(Supabase.Renamed(payload, Supabase.CamelToSnake), "expires_at", v)) ==>
      x == "expires_at" || exists i :: 0 <= i < |payload| && x == Supabase.CamelToSnake(payload[i].0)
  {
    var snake := Supabase.Renamed(payload, Supabase.CamelToSnake);
    Supabase.RenamedKeys(payload, Supabase.CamelToSnake);
    AssignKeys(snake, "expires_at", v);
    forall x | x in Keys(snake)
      ensures exists i :: 0 <= i < |payload| && x == Supabase.CamelToSnake(payload[i].0)
    {
      var e :| e in payload && x == Supabase.CamelToSnake(e.0);
      var i :| 0 <= i < |payload| && payload[i] == e;
    }
  }
}
