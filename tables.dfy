/**
 * The rows of the Supabase tables the core reads and writes, and the two
 * query shapes it uses: a filter, and `.single()` (exactly one matching row,
 * anything else is an error that the callers treat as "no row").
 * A table is a sequence of rows in the order the database returns them.
 */
module Tables {
  import opened Common

  datatype AdminRole = OrgAdmin | Manager

  /** A row of `admin_users`, including the LINE link columns. */
  datatype Admin = Admin(
    id: string,
    organizationId: string,
    email: string,
    name: string,
    role: AdminRole,
    lineUserId: Option<string>,
    lineRegistrationToken: Option<string>)

  datatype DriverStatus = Active | Inactive | Suspended

  /** A row of `drivers` (the columns the core touches). */
  datatype Driver = Driver(
    id: string,
    organizationId: string,
    name: string,
    nameKana: Option<string>,
    phone: Option<string>,
    licenseNumber: Option<string>,
    status: DriverStatus,
    lineUserId: Option<string>,
    registrationToken: Option<string>,
    defaultVehicleId: Option<string>,
    isSenior: bool,
    isNewHire: bool,
    hireDate: Option<string>,
    updatedAt: string)

  datatype VehicleStatus = InService | Maintenance | Retired

  /** A row of `vehicles`. */
  datatype Vehicle = Vehicle(
    id: string,
    organizationId: string,
    plateNumber: string,
    maker: Option<string>,
    model: Option<string>,
    year: Option<int>,
    status: VehicleStatus,
    updatedAt: string)

  /**
   * A submitted report (pre-work, post-work, inspection or accident) reduced to
   * the columns the core filters on: who, which vehicle and which day.
   */
  datatype Report = Report(id: string, organizationId: string, driverId: string, vehicleId: Option<string>, date: string)

  datatype ShiftStatus = Working | DayOff | HalfAm | HalfPm | Absent | Pending

  function ShiftStatusName(s: ShiftStatus): string {
    match s
    case Working => "working"
    case DayOff => "day_off"
    case HalfAm => "half_am"
    case HalfPm => "half_pm"
    case Absent => "absent"
    case Pending => "pending"
  }

  /** A row of `shifts`; the table is unique on (driverId, shiftDate). */
  datatype Shift = Shift(
    organizationId: string,
    driverId: string,
    shiftDate: string,
    status: ShiftStatus,
    note: Option<string>,
    submittedBy: string)

  /** One notification switch of an organisation: `{ enabled, time }`. */
  datatype Toggle = Toggle(enabled: bool, time: string)

  /** The `notification` object of an organisation's settings, by key (morningReminder, preWorkAlert, ...). */
  type NotificationSettings = map<string, Toggle>

  /** `organizations.settings`: the `notification` key (absent or null is None) and every other key. */
  datatype OrgSettings = OrgSettings(notification: Option<NotificationSettings>, others: map<string, Value>)

  datatype Organization = Organization(id: string, name: string, accessToken: Option<string>, settings: OrgSettings)

  /** `.single()`: the one row satisfying `p`, or None when there are zero or several. */
  function Single<T(!new)>(rows: seq<T>, p: T -> bool): (r: Option<T>)
    ensures r.Some? <==> |Filter(rows, p)| == 1
    ensures r.Some? ==> r.value in rows && p(r.value)
    ensures r.Some? ==> forall x :: x in rows && p(x) ==> x == r.value
  {
    var m := Filter(rows, p);
    if |m| == 1 then
      assert m[0] in m;
      assert forall x :: x in m ==> x == m[0];
      Some(m[0])
    else None
  }

  /** An UPDATE: every row satisfying `p` is replaced by `f` of itself, the others stay where they are. */
  function UpdateWhere<T>(rows: seq<T>, p: T -> bool, f: T -> T): (r: seq<T>)
    ensures |r| == |rows|
    ensures forall i :: 0 <= i < |rows| && !p(rows[i]) ==> r[i] == rows[i]
    ensures forall i :: 0 <= i < |rows| && p(rows[i]) ==> r[i] == f(rows[i])
  {
    seq(|rows|, i requires 0 <= i < |rows| => if p(rows[i]) then f(rows[i]) else rows[i])
  }

  predicate UniqueAdminIds(admins: seq<Admin>) {
    forall i, j :: 0 <= i < j < |admins| ==> admins[i].id != admins[j].id
  }

  predicate UniqueDriverIds(drivers: seq<Driver>) {
    forall i, j :: 0 <= i < j < |drivers| ==> drivers[i].id != drivers[j].id
  }

  /** The drivers' names, in roster order. */
  function Names(drivers: seq<Driver>): (r: seq<string>)
    ensures |r| == |drivers| && forall i :: 0 <= i < |r| ==> r[i] == drivers[i].name
  {
    seq(|drivers|, i requires 0 <= i < |drivers| => drivers[i].name)
  }

  /** `new Set(rows.map(r => r.driverId))`. */
  function SubmitterIds(reports: seq<Report>): (r: set<string>)
    ensures forall id :: id in r <==> exists x :: x in reports && x.driverId == id
  {
    set x | x in reports :: x.driverId
  }

  /** `drivers.filter(d => !ids.has(d.id))`: the roster drivers not among `ids`, in roster order. */
  function NotIn(drivers: seq<Driver>, ids: set<string>): (r: seq<Driver>)
    ensures forall d :: d in r <==> d in drivers && d.id !in ids
  {
    Filter(drivers, (d: Driver) => d.id !in ids)
  }

  /** `.eq('organization_id', orgId).eq('status', 'active').not('line_user_id', 'is', null)` on `drivers`. */
  function Roster(drivers: seq<Driver>, orgId: string): seq<Driver> {
    Filter(drivers, (d: Driver) => d.organizationId == orgId && d.status == Active && d.lineUserId.Some?)
  }

  /** `findDriverByLineUserId`: the one active driver bound to the LINE id (`.single()`). */
  function ActiveDriverOf(drivers: seq<Driver>, lineUserId: string): Option<Driver> {
    Single(drivers, (d: Driver) => d.lineUserId == Some(lineUserId) && d.status == Active)
  }
}
