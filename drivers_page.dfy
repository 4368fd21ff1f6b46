/**
 * The drivers screen: the search box, the LINE-link badge, the record a new
 * driver is created from, and how the list grows after a successful create.
 * The vehicle column uses the same plate lookup as the export screen,
 * `ExportPage.VehiclePlate`.
 */
module DriversPage {
  import opened Common
  import opened Tables

  /** `d.name.includes(q) || (d.nameKana && d.nameKana.includes(q)) || (d.phone && d.phone.includes(q))`. */
  predicate Matches(d: Driver, q: string) {
    Contains(d.name, q) || (Truthy(d.nameKana) && Contains(d.nameKana.value, q))
      || (Truthy(d.phone) && Contains(d.phone.value, q))
  }

  /** `filteredDrivers`: the drivers that match, in list order. */
  function Search(drivers: seq<Driver>, q: string): (r: seq<Driver>)
    ensures forall d :: d in r <==> d in drivers && Matches(d, q)
    ensures |r| <= |drivers|
  {
    Filter(drivers, (d: Driver) => Matches(d, q))
  }

  /** The empty search box lists every driver, in order, since every string includes "". */
  lemma EmptySearchKeepsAll(drivers: seq<Driver>)
    ensures Search(drivers, "") == drivers
  {
    forall d | d in drivers ensures Matches(d, "") {
      assert OccursAt(d.name, "", 0);
    }
    FilterAll(drivers, (d: Driver) => Matches(d, ""));
  }

  /** A driver found by name stays found when the query is a prefix of what was typed: narrowing the query only widens the list. */
  lemma ShorterQueryFindsMore(drivers: seq<Driver>, q: string, n: nat)
    requires n <= |q|
    ensures forall d :: d in Search(drivers, q) ==> d in Search(drivers, q[..n])
  {
    forall d | d in Search(drivers, q) ensures Matches(d, q[..n]) {
      if Contains(d.name, q) {
        PrefixContained(d.name, q, n);
      } else if Truthy(d.nameKana) && Contains(d.nameKana.value, q) {
        PrefixContained(d.nameKana.value, q, n);
      } else {
        PrefixContained(d.phone.value, q, n);
      }
    }
  }

  /** A string that includes `q` includes every prefix of `q`, at the same place. */
  lemma PrefixContained(s: string, q: string, n: nat)
    requires n <= |q| && Contains(s, q)
    ensures Contains(s, q[..n])
  {
    var i :| 0 <= i <= |s| - |q| && OccursAt(s, q, i);
    assert s[i..i + n] == s[i..i + |q|][..n];
    assert OccursAt(s, q[..n], i);
  }

  datatype LineBadge = Linked | AwaitingRegistration | NotLinked

  /** The LINE column: linked once a LINE user id is stored, waiting while only a registration token is, else not linked ("" counts as absent). */
  function Badge(d: Driver): (r: LineBadge)
    ensures r == Linked <==> Truthy(d.lineUserId)
    ensures r == AwaitingRegistration <==> !Truthy(d.lineUserId) && Truthy(d.registrationToken)
    ensures r == NotLinked <==> !Truthy(d.lineUserId) && !Truthy(d.registrationToken)
  {
    if Truthy(d.lineUserId) then Linked
    else if Truthy(d.registrationToken) then AwaitingRegistration
    else NotLinked
  }

  /** The text fields of the add-driver dialog, as typed ("" when left empty). */
  datatype DriverForm = DriverForm(name: string, nameKana: string, phone: string, dateOfBirth: string, licenseNumber: string)

  /** What `handleAddDriver` asks `driverService.create` to store. */
  datatype NewDriver = NewDriver(
    lineUserId: Option<string>,
    name: string,
    nameKana: Option<string>,
    phone: Option<string>,
    dateOfBirth: Option<string>,
    hireDate: string,
    licenseNumber: Option<string>,
    licenseExpiry: Option<string>,
    healthCheckDate: Option<string>,
    isSenior: bool,
    isNewHire: bool,
    status: DriverStatus,
    defaultVehicleId: Option<string>,
    registrationToken: string)


  /**
   * The record for a new driver, from the dialog, today's date and a random
   * UUID: not linked to LINE, active, a new hire and not senior, no default
   * vehicle, blank optional fields stored as null, hired today, and a
   * registration token made of the UUID's first eight characters.
   */
  function NewDriverRecord(form: DriverForm, today: string, uuid: string): (r: NewDriver)
    ensures r.lineUserId.None? && r.defaultVehicleId.None? && r.licenseExpiry.None? && r.healthCheckDate.None?
    ensures r.status == Active && r.isNewHire && !r.isSenior
    ensures r.name == form.name && r.hireDate == today
    ensures r.nameKana == OrNull(form.nameKana) && r.phone == OrNull(form.phone)
    ensures r.dateOfBirth == OrNull(form.dateOfBirth) && r.licenseNumber == OrNull(form.licenseNumber)
    ensures |uuid| >= 8 ==> |r.registrationToken| == 8 && r.registrationToken == uuid[..8]
    ensures |uuid| < 8 ==> r.registrationToken == uuid
  {
    NewDriver(None, form.name, OrNull(form.nameKana), OrNull(form.phone), OrNull(form.dateOfBirth), today,
              OrNull(form.licenseNumber), None, None, false, true, Active, None,
              if |uuid| >= 8 then uuid[..8] else uuid)
  }

  /** `setDrivers(prev => [...prev, driver])` after a create that returned `driver`; a failed create leaves the list. */
  function AfterAdd(drivers: seq<Driver>, created: Option<Driver>): (r: seq<Driver>)
    ensures created.None? ==> r == drivers
    ensures created.Some? ==> |r| == |drivers| + 1 && r[..|drivers|] == drivers && r[|drivers|] == created.value
  {
    if created.Some? then drivers + [created.value] else drivers
  }
}
