/**
 * The demo-mode in-memory store that stands in for Supabase: module-level
 * arrays of admins, drivers, vehicles and the four report kinds, changed in
 * place by `push`, `splice` and index assignment. `crypto.randomUUID()` and
 * `new Date().toISOString()` are the parameters `newId`, `token` and `now`;
 * the simulated delays are left out.
 */
module DemoStore {
  import opened Common
  import opened Tables
  import AdminUsers

  /** `adminUserService.remove`: the first admin with that id spliced out; nothing when there is none. */
  function RemoveFirstAdmin(admins: seq<Admin>, id: string): (r: seq<Admin>)
    ensures FindIndex(admins, (a: Admin) => a.id == id).None? ==> r == admins
    ensures FindIndex(admins, (a: Admin) => a.id == id).Some? ==>
      var i := FindIndex(admins, (a: Admin) => a.id == id).value;
      |r| == |admins| - 1 && r[..i] == admins[..i] && r[i..] == admins[i + 1..]
  {
    match FindIndex(admins, (a: Admin) => a.id == id)
    case None => admins
    case Some(i) => admins[..i] + admins[i + 1..]
  }

  /** With unique ids, the demo removal is the delete by id: every other admin stays, in order. */
  lemma {:induction false} RemoveFirstIsDeleteById(admins: seq<Admin>, id: string)
    requires UniqueAdminIds(admins)
    ensures RemoveFirstAdmin(admins, id) == Filter(admins, (a: Admin) => a.id != id)
  {
    if admins != [] {
      UniqueAdminTail(admins);
      if admins[0].id == id {
        RemoveHead(admins, id);
        FilterAllKept(admins[1..], (a: Admin) => a.id != id);
      } else {
        RemoveFirstIsDeleteById(admins[1..], id);
        RemovePastHead(admins, id);
      }
    }
  }

  lemma UniqueAdminTail(admins: seq<Admin>)
    requires admins != [] && UniqueAdminIds(admins)
    ensures UniqueAdminIds(admins[1..])
    ensures forall x :: x in admins[1..] ==> x.id != admins[0].id
  {
    var rest := admins[1..];
    forall i, j | 0 <= i < j < |rest| ensures rest[i].id != rest[j].id {
      assert rest[i] == admins[i + 1] && rest[j] == admins[j + 1];
    }
    forall x | x in rest ensures x.id != admins[0].id {
      var j :| 0 <= j < |rest| && rest[j] == x;
      assert admins[j + 1] == x;
    }
  }

  lemma RemoveHead(admins: seq<Admin>, id: string)
    requires admins != [] && admins[0].id == id
    ensures RemoveFirstAdmin(admins, id) == admins[1..]
  {
    assert FindIndex(admins, (a: Admin) => a.id == id) == Some(0);
  }

  lemma RemovePastHead(admins: seq<Admin>, id: string)
    requires admins != [] && admins[0].id != id
    ensures RemoveFirstAdmin(admins, id) == [admins[0]] + RemoveFirstAdmin(admins[1..], id)
  {
    var p := (a: Admin) => a.id == id;
    match FindIndex(admins[1..], p)
    case None =>
    case Some(i) =>
      assert FindIndex(admins, p) == Some(i + 1);
      assert admins[..i + 1] == [admins[0]] + admins[1..][..i];
      assert admins[i + 2..] == admins[1..][i + 1..];
  }

  /** When every element satisfies `p`, filtering keeps them all. */
  lemma {:induction false} FilterAllKept<T(!new)>(s: seq<T>, p: T -> bool)
    requires forall x :: x in s ==> p(x)
    ensures Filter(s, p) == s
  {
    if s != [] {
      assert s[0] in s;
      assert forall x :: x in s[1..] ==> x in s;
      FilterAllKept(s[1..], p);
    }
  }

  /**
   * The demo removal has no last-org_admin guard: where the service refuses, the demo store leaves
   * the organisation with no org_admin.
   */
  lemma DemoRemoveHasNoGuard(admins: seq<Admin>, id: string, org: string)
    requires UniqueAdminIds(admins)
    requires AdminUsers.IsLastOrgAdmin(admins, id, org)
    ensures AdminUsers.Remove(admins, id, org, None, None) == Err(AdminUsers.LastAdminMessage)
    ensures CountWhere(RemoveFirstAdmin(admins, id), AdminUsers.IsOrgAdminOf(org)) == 0
  {
    var isOA := AdminUsers.IsOrgAdminOf(org);
    var ne := (a: Admin) => a.id != id;
    var hit := (a: Admin) => a.id == id;
    var kept := (a: Admin) => ne(a) && isOA(a);
    var stays := (a: Admin) => isOA(a) && !hit(a);
    var gone := (a: Admin) => isOA(a) && hit(a);
    RemoveFirstIsDeleteById(admins, id);
    CountFilter(admins, ne, isOA, kept);
    CountCongruent(admins, kept, stays);
    CountSplit(admins, isOA, hit, gone, stays);
    var t :| t in admins && isOA(t) && t.id == id;
    assert t in Filter(admins, gone);
  }

  /** `generateLineToken` in demo mode: only the first matching admin's token changes. */
  function SetFirstToken(admins: seq<Admin>, id: string, token: string): (r: seq<Admin>)
    ensures |r| == |admins|
    ensures FindIndex(admins, (a: Admin) => a.id == id).None? ==> r == admins
    ensures FindIndex(admins, (a: Admin) => a.id == id).Some? ==>
      var i := FindIndex(admins, (a: Admin) => a.id == id).value;
      r == admins[i := admins[i].(lineRegistrationToken := Some(token))]
  {
    match FindIndex(admins, (a: Admin) => a.id == id)
    case None => admins
    case Some(i) => admins[i := admins[i].(lineRegistrationToken := Some(token))]
  }

  /** `unlinkLine` in demo mode: the first matching admin loses both LINE fields. */
  function UnlinkFirst(admins: seq<Admin>, id: string): (r: seq<Admin>)
    ensures |r| == |admins|
    ensures FindIndex(admins, (a: Admin) => a.id == id).None? ==> r == admins
    ensures FindIndex(admins, (a: Admin) => a.id == id).Some? ==>
      var i := FindIndex(admins, (a: Admin) => a.id == id).value;
      r == admins[i := admins[i].(lineUserId := None, lineRegistrationToken := None)]
  {
    match FindIndex(admins, (a: Admin) => a.id == id)
    case None => admins
    case Some(i) => admins[i := admins[i].(lineUserId := None, lineRegistrationToken := None)]
  }

  /** With unique ids the demo token write is the service's write scoped to the row's organisation. */
  lemma SetFirstTokenIsServiceWrite(admins: seq<Admin>, k: nat, token: string)
    requires UniqueAdminIds(admins) && k < |admins|
    ensures var a := admins[k];
      AdminUsers.GenerateLineToken(admins, a.id, a.organizationId, token, None) == Ok((SetFirstToken(admins, a.id, token), token))
  {
    var a := admins[k];
    assert FindIndex(admins, (x: Admin) => x.id == a.id) == Some(k);
    var w := AdminUsers.GenerateLineToken(admins, a.id, a.organizationId, token, None).value.0;
    assert w == SetFirstToken(admins, a.id, token);
  }

  /** A partial record: every column a caller may pass to `update`; None leaves the column as it is. */
  datatype DriverPatch = DriverPatch(
    id: Option<string>, organizationId: Option<string>, name: Option<string>, nameKana: Option<Option<string>>,
    phone: Option<Option<string>>, licenseNumber: Option<Option<string>>, status: Option<DriverStatus>,
    lineUserId: Option<Option<string>>, registrationToken: Option<Option<string>>,
    defaultVehicleId: Option<Option<string>>, isSenior: Option<bool>, isNewHire: Option<bool>,
    hireDate: Option<Option<string>>)

  /** `{ ...driver, ...input, updatedAt: now }`. */
  function PatchDriver(d: Driver, p: DriverPatch, now: string): Driver {
    Driver(GetOr(p.id, d.id), GetOr(p.organizationId, d.organizationId), GetOr(p.name, d.name),
           GetOr(p.nameKana, d.nameKana), GetOr(p.phone, d.phone), GetOr(p.licenseNumber, d.licenseNumber),
           GetOr(p.status, d.status), GetOr(p.lineUserId, d.lineUserId), GetOr(p.registrationToken, d.registrationToken),
           GetOr(p.defaultVehicleId, d.defaultVehicleId), GetOr(p.isSenior, d.isSenior), GetOr(p.isNewHire, d.isNewHire),
           GetOr(p.hireDate, d.hireDate), now)
  }

  /** The patch that names no column. */
  const NoDriverChange := DriverPatch(None, None, None, None, None, None, None, None, None, None, None, None, None)

  /** Patching is idempotent, and the empty patch changes only `updatedAt`. */
  lemma PatchDriverLaws(d: Driver, p: DriverPatch, now: string, later: string)
    ensures PatchDriver(PatchDriver(d, p, now), p, later) == PatchDriver(d, p, later)
    ensures PatchDriver(d, NoDriverChange, now) == d.(updatedAt := now)
    ensures p.status == Some(Inactive) ==> PatchDriver(d, p, now).status == Inactive
  {
  }

  datatype VehiclePatch = VehiclePatch(
    id: Option<string>, organizationId: Option<string>, plateNumber: Option<string>, maker: Option<Option<string>>,
    model: Option<Option<string>>, year: Option<Option<int>>, status: Option<VehicleStatus>)

  /** `{ ...vehicle, ...input, updatedAt: now }`. */
  function PatchVehicle(v: Vehicle, p: VehiclePatch, now: string): Vehicle {
    Vehicle(GetOr(p.id, v.id), GetOr(p.organizationId, v.organizationId), GetOr(p.plateNumber, v.plateNumber),
            GetOr(p.maker, v.maker), GetOr(p.model, v.model), GetOr(p.year, v.year), GetOr(p.status, v.status), now)
  }

  const NoVehicleChange := VehiclePatch(None, None, None, None, None, None, None)

  lemma PatchVehicleLaws(v: Vehicle, p: VehiclePatch, now: string, later: string)
    ensures PatchVehicle(PatchVehicle(v, p, now), p, later) == PatchVehicle(v, p, later)
    ensures PatchVehicle(v, NoVehicleChange, now) == v.(updatedAt := now)
  {
  }

  /** The date getters: the rows of that date when a (non-empty) date is given, else every row. */
  function OnDate(reports: seq<Report>, date: Option<string>): (r: seq<Report>)
    ensures !Truthy(date) ==> r == reports
    ensures Truthy(date) ==> forall x :: x in r <==> x in reports && x.date == date.value
  {
    if Truthy(date) then Filter(reports, (x: Report) => x.date == date.value) else reports
  }

  datatype DailySummary = DailySummary(
    date: string, totalDrivers: nat, preWorkSubmitted: nat, postWorkSubmitted: nat, inspectionSubmitted: nat,
    preWorkMissing: seq<string>, postWorkMissing: seq<string>, inspectionMissing: seq<string>)

  /** The rows of one date. */
  function Dated(reports: seq<Report>, date: string): seq<Report> {
    Filter(reports, (x: Report) => x.date == date)
  }

  /** The active roster. */
  function ActiveDrivers(drivers: seq<Driver>): seq<Driver> {
    Filter(drivers, (d: Driver) => d.status == Active)
  }

  /** The active drivers with no row on `date`, in roster order. */
  function MissingDrivers(drivers: seq<Driver>, reports: seq<Report>, date: string): seq<Driver> {
    NotIn(ActiveDrivers(drivers), SubmitterIds(Dated(reports, date)))
  }

  /** The names of the active drivers with no row on `date`, in roster order. */
  function MissingNames(drivers: seq<Driver>, reports: seq<Report>, date: string): (r: seq<string>)
    ensures |r| <= |ActiveDrivers(drivers)|
    ensures forall n :: n in r <==>
      (exists d :: d in drivers && d.status == Active && d.name == n && forall x :: x in reports && x.date == date ==> x.driverId != d.id)
  {
    var missing := MissingDrivers(drivers, reports, date);
    var r := Names(missing);
    forall n | n in r ensures exists d :: d in missing && d.name == n {
      var i :| 0 <= i < |r| && r[i] == n;
      assert missing[i] in missing;
    }
    forall d | d in missing ensures d.name in r {
      var i :| 0 <= i < |missing| && missing[i] == d;
      assert r[i] == d.name;
    }
    r
  }

  /** `dashboardService.getDailySummary(date)`: counts are rows, missing lists are names of active drivers. */
  function Summarize(drivers: seq<Driver>, pre: seq<Report>, post: seq<Report>, insp: seq<Report>, date: string)
    : (s: DailySummary)
    ensures s.date == date
    ensures s.totalDrivers == CountWhere(drivers, (d: Driver) => d.status == Active)
    ensures s.preWorkSubmitted == CountWhere(pre, (x: Report) => x.date == date)
    ensures s.postWorkSubmitted == CountWhere(post, (x: Report) => x.date == date)
    ensures s.inspectionSubmitted == CountWhere(insp, (x: Report) => x.date == date)
    ensures s.preWorkMissing == MissingNames(drivers, pre, date)
    ensures s.postWorkMissing == MissingNames(drivers, post, date)
    ensures s.inspectionMissing == MissingNames(drivers, insp, date)
  {
    DailySummary(date, |ActiveDrivers(drivers)|, |Dated(pre, date)|, |Dated(post, date)|, |Dated(insp, date)|,
                 MissingNames(drivers, pre, date), MissingNames(drivers, post, date), MissingNames(drivers, insp, date))
  }

  /**
   * The row counts are not distinct drivers: two pre-work rows of one driver count twice, and
   * the count can then exceed the roster while a driver with no row is still listed as missing.
   */
  lemma CountsAreRows(a: Driver, b: Driver, x: Report, date: string)
    requires a.status == Active && b.status == Active && a.id != b.id
    requires x.driverId == a.id && x.date == date
    ensures var s := Summarize([a, b], [x, x], [], [], date);
      s.preWorkSubmitted == 2 == s.totalDrivers && b.name in s.preWorkMissing
  {
    var s := Summarize([a, b], [x, x], [], [], date);
    assert [a, b][1] == b;
  }

  /** The in-memory `store`; `orgId` is the demo organisation's id. */
  class Store {
    const orgId: string
    var adminUsers: seq<Admin>
    var drivers: seq<Driver>
    var vehicles: seq<Vehicle>
    var preWorkReports: seq<Report>
    var postWorkReports: seq<Report>
    var dailyInspections: seq<Report>
    var accidentReports: seq<Report>

    /** The demo fixtures, one admin and copies of the demo arrays. */
    constructor(orgId: string, admin: Admin, drivers: seq<Driver>, vehicles: seq<Vehicle>,
                pre: seq<Report>, post: seq<Report>, insp: seq<Report>, acc: seq<Report>)
      ensures this.orgId == orgId && adminUsers == [admin] && this.drivers == drivers && this.vehicles == vehicles
      ensures preWorkReports == pre && postWorkReports == post && dailyInspections == insp && accidentReports == acc
    {
      this.orgId := orgId;
      adminUsers := [admin];
      this.drivers := drivers;
      this.vehicles := vehicles;
      preWorkReports := pre;
      postWorkReports := post;
      dailyInspections := insp;
      accidentReports := acc;
    }

    function Fleet(): (seq<Driver>, seq<Vehicle>)
      reads this
    {
      (drivers, vehicles)
    }

    function Reports(): (seq<Report>, seq<Report>, seq<Report>, seq<Report>)
      reads this
    {
      (preWorkReports, postWorkReports, dailyInspections, accidentReports)
    }

    method CreateAdmin(input: AdminUsers.CreateAdminInput, newId: string) returns (admin: Admin)
      modifies this
      ensures admin == Admin(newId, orgId, input.email, input.name, input.role, None, None)
      ensures adminUsers == old(adminUsers) + [admin]
      ensures Fleet() == old(Fleet()) && Reports() == old(Reports())
    {
      admin := Admin(newId, orgId, input.email, input.name, input.role, None, None);
      adminUsers := adminUsers + [admin];
    }

    method RemoveAdmin(id: string)
      modifies this
      ensures adminUsers == RemoveFirstAdmin(old(adminUsers), id)
      ensures Fleet() == old(Fleet()) && Reports() == old(Reports())
    {
      var idx := FindIndex(adminUsers, (a: Admin) => a.id == id);
      if idx.Some? {
        adminUsers := adminUsers[..idx.value] + adminUsers[idx.value + 1..];
      }
    }

    method GenerateLineToken(id: string, token: string) returns (t: string)
      modifies this
      ensures t == token
      ensures adminUsers == SetFirstToken(old(adminUsers), id, token)
      ensures Fleet() == old(Fleet()) && Reports() == old(Reports())
    {
      var idx := FindIndex(adminUsers, (a: Admin) => a.id == id);
      if idx.Some? {
        var i := idx.value;
        adminUsers := adminUsers[i := adminUsers[i].(lineRegistrationToken := Some(token))];
      }
      t := token;
    }

    method UnlinkLine(id: string)
      modifies this
      ensures adminUsers == UnlinkFirst(old(adminUsers), id)
      ensures Fleet() == old(Fleet()) && Reports() == old(Reports())
    {
      var idx := FindIndex(adminUsers, (a: Admin) => a.id == id);
      if idx.Some? {
        var i := idx.value;
        adminUsers := adminUsers[i := adminUsers[i].(lineUserId := None, lineRegistrationToken := None)];
      }
    }

    /** `driverService.list`: every driver except the inactive ones, in store order. */
    method ListDrivers() returns (r: seq<Driver>)
      ensures r == Filter(drivers, (d: Driver) => d.status != Inactive)
      ensures forall d :: d in r <==> d in drivers && d.status != Inactive
    {
      r := Filter(drivers, (d: Driver) => d.status != Inactive);
    }

    /** `driverService.getById`: the first driver with that id. */
    method GetDriverById(id: string) returns (r: Option<Driver>)
      ensures r.None? <==> forall d :: d in drivers ==> d.id != id
      ensures r.Some? ==> r.value.id == id
      ensures r.Some? ==> exists i :: 0 <= i < |drivers| && drivers[i] == r.value && forall j :: 0 <= j < i ==> drivers[j].id != id
    {
      var idx := FindIndex(drivers, (d: Driver) => d.id == id);
      if idx.Some? {
        r := Some(drivers[idx.value]);
      } else {
        r := None;
      }
    }

    method CreateDriver(input: Driver, newId: string, now: string) returns (driver: Driver)
      modifies this
      ensures driver == input.(id := newId, organizationId := orgId, updatedAt := now)
      ensures drivers == old(drivers) + [driver]
      ensures adminUsers == old(adminUsers) && vehicles == old(vehicles) && Reports() == old(Reports())
    {
      driver := input.(id := newId, organizationId := orgId, updatedAt := now);
      drivers := drivers + [driver];
    }

    /** `driverService.update`: throws for an unknown id; otherwise patches the first driver with that id. */
    method UpdateDriver(id: string, patch: DriverPatch, now: string) returns (r: Result<Driver>)
      modifies this
      ensures FindIndex(old(drivers), (d: Driver) => d.id == id).None? ==>
        r == Err("Driver not found") && drivers == old(drivers)
      ensures FindIndex(old(drivers), (d: Driver) => d.id == id).Some? ==>
        var i := FindIndex(old(drivers), (d: Driver) => d.id == id).value;
        drivers == old(drivers)[i := PatchDriver(old(drivers)[i], patch, now)] && r == Ok(drivers[i])
      ensures adminUsers == old(adminUsers) && vehicles == old(vehicles) && Reports() == old(Reports())
    {
      var idx := FindIndex(drivers, (d: Driver) => d.id == id);
      if idx.None? {
        return Err("Driver not found");
      }
      var i := idx.value;
      drivers := drivers[i := PatchDriver(drivers[i], patch, now)];
      r := Ok(drivers[i]);
    }

    /** `vehicleService.list`: every vehicle except the retired ones, in store order. */
    method ListVehicles() returns (r: seq<Vehicle>)
      ensures r == Filter(vehicles, (v: Vehicle) => v.status != Retired)
      ensures forall v :: v in r <==> v in vehicles && v.status != Retired
    {
      r := Filter(vehicles, (v: Vehicle) => v.status != Retired);
    }

    method GetVehicleById(id: string) returns (r: Option<Vehicle>)
      ensures r.None? <==> forall v :: v in vehicles ==> v.id != id
      ensures r.Some? ==> r.value.id == id
      ensures r.Some? ==> exists i :: 0 <= i < |vehicles| && vehicles[i] == r.value && forall j :: 0 <= j < i ==> vehicles[j].id != id
    {
      var idx := FindIndex(vehicles, (v: Vehicle) => v.id == id);
      if idx.Some? {
        r := Some(vehicles[idx.value]);
      } else {
        r := None;
      }
    }

    method CreateVehicle(input: Vehicle, newId: string, now: string) returns (vehicle: Vehicle)
      modifies this
      ensures vehicle == input.(id := newId, organizationId := orgId, updatedAt := now)
      ensures vehicles == old(vehicles) + [vehicle]
      ensures adminUsers == old(adminUsers) && drivers == old(drivers) && Reports() == old(Reports())
    {
      vehicle := input.(id := newId, organizationId := orgId, updatedAt := now);
      vehicles := vehicles + [vehicle];
    }

    method UpdateVehicle(id: string, patch: VehiclePatch, now: string) returns (r: Result<Vehicle>)
      modifies this
      ensures FindIndex(old(vehicles), (v: Vehicle) => v.id == id).None? ==>
        r == Err("Vehicle not found") && vehicles == old(vehicles)
      ensures FindIndex(old(vehicles), (v: Vehicle) => v.id == id).Some? ==>
        var i := FindIndex(old(vehicles), (v: Vehicle) => v.id == id).value;
        vehicles == old(vehicles)[i := PatchVehicle(old(vehicles)[i], patch, now)] && r == Ok(vehicles[i])
      ensures adminUsers == old(adminUsers) && drivers == old(drivers) && Reports() == old(Reports())
    {
      var idx := FindIndex(vehicles, (v: Vehicle) => v.id == id);
      if idx.None? {
        return Err("Vehicle not found");
      }
      var i := idx.value;
      vehicles := vehicles[i := PatchVehicle(vehicles[i], patch, now)];
      r := Ok(vehicles[i]);
    }

    method GetPreWorkReports(date: Option<string>) returns (r: seq<Report>)
      ensures r == OnDate(preWorkReports, date)
    {
      r := OnDate(preWorkReports, date);
    }

    method GetPostWorkReports(date: Option<string>) returns (r: seq<Report>)
      ensures r == OnDate(postWorkReports, date)
    {
      r := OnDate(postWorkReports, date);
    }

    method GetDailyInspections(date: Option<string>) returns (r: seq<Report>)
      ensures r == OnDate(dailyInspections, date)
    {
      r := OnDate(dailyInspections, date);
    }

    method GetAccidentReports() returns (r: seq<Report>)
      ensures r == accidentReports
    {
      r := accidentReports;
    }

    method SubmitPreWorkReport(input: Report) returns (r: Report)
      modifies this
      ensures r == input && preWorkReports == old(preWorkReports) + [input]
      ensures adminUsers == old(adminUsers) && Fleet() == old(Fleet())
      ensures postWorkReports == old(postWorkReports) && dailyInspections == old(dailyInspections)
      ensures accidentReports == old(accidentReports)
    {
      preWorkReports := preWorkReports + [input];
      r := input;
    }

    method SubmitPostWorkReport(input: Report) returns (r: Report)
      modifies this
      ensures r == input && postWorkReports == old(postWorkReports) + [input]
      ensures adminUsers == old(adminUsers) && Fleet() == old(Fleet())
      ensures preWorkReports == old(preWorkReports) && dailyInspections == old(dailyInspections)
      ensures accidentReports == old(accidentReports)
    {
      postWorkReports := postWorkReports + [input];
      r := input;
    }

    method SubmitDailyInspection(input: Report) returns (r: Report)
      modifies this
      ensures r == input && dailyInspections == old(dailyInspections) + [input]
      ensures adminUsers == old(adminUsers) && Fleet() == old(Fleet())
      ensures preWorkReports == old(preWorkReports) && postWorkReports == old(postWorkReports)
      ensures accidentReports == old(accidentReports)
    {
      dailyInspections := dailyInspections + [input];
      r := input;
    }

    method SubmitAccidentReport(input: Report) returns (r: Report)
      modifies this
      ensures r == input && accidentReports == old(accidentReports) + [input]
      ensures adminUsers == old(adminUsers) && Fleet() == old(Fleet())
      ensures preWorkReports == old(preWorkReports) && postWorkReports == old(postWorkReports)
      ensures dailyInspections == old(dailyInspections)
    {
      accidentReports := accidentReports + [input];
      r := input;
    }

    method GetDailySummary(date: string) returns (s: DailySummary)
      ensures s == Summarize(drivers, preWorkReports, postWorkReports, dailyInspections, date)
    {
      s := Summarize(drivers, preWorkReports, postWorkReports, dailyInspections, date);
    }
  }

  /** A submitted row takes exactly its driver off that day's missing list; the others keep their place. */
  lemma SubmitClearsMissing(drivers: seq<Driver>, reports: seq<Report>, x: Report)
    ensures MissingDrivers(drivers, reports + [x], x.date)
            == Filter(MissingDrivers(drivers, reports, x.date), (d: Driver) => d.id != x.driverId)
  {
    var date := x.date;
    var onDate := (y: Report) => y.date == date;
    FilterAppend(reports, [x], onDate);
    assert Filter([x], onDate) == [x];
    var before := SubmitterIds(Dated(reports, date));
    assert SubmitterIds(Dated(reports + [x], date)) == before + {x.driverId};
    var active := ActiveDrivers(drivers);
    var notBefore := (d: Driver) => d.id !in before;
    var notX := (d: Driver) => d.id != x.driverId;
    var both := (d: Driver) => notBefore(d) && notX(d);
    FilterFilter(active, notBefore, notX, both);
    FilterCongruent(active, both, (d: Driver) => d.id !in before + {x.driverId});
  }
}
