/**
 * The submit-shift edge function: a LIFF client, rate limited per IP and
 * identified by its LINE ID token, reads its month of shifts, requests a
 * shift, or sends an emergency report (which forces today's shift to
 * absent and alerts the organisation's LINE-linked admins).
 * The tables are values; `verify` is the LINE ID-token check (`Ok(None)` when
 * it is refused or yields no `sub`, `Err` when it throws); `today` is the UTC+9
 * date; a body is None when `req.json()` throws or yields null. `get_shifts`
 * queries the month as the handler writes it, up to day 31.
 */
module SubmitShift {
  import opened Common
  import opened Tables
  import opened Calendar
  import opened Messaging
  import RateLimit
  import LinkDriver

  /** A row of `emergency_reports`. */
  datatype EmergencyReport = EmergencyReport(
    organizationId: string,
    driverId: string,
    reportDate: string,
    reportType: EmergencyType,
    reason: Option<string>,
    submittedVia: string)

  datatype EmergencyType = Absence | VehicleTrouble | Accident | Family | OtherReason

  /** The tables the function reads and writes. */
  datatype Db = Db(drivers: seq<Driver>, shifts: seq<Shift>, emergencies: seq<EmergencyReport>,
                   organizations: seq<Organization>, admins: seq<Admin>)

  /**
   * Whether each database call succeeds: the three writes, and the three reads whose failure the handler
   * reads as "no rows" (`shifts ?? []`, `org?.…`, `admins ?? []`).
   */
  datatype DbCalls = DbCalls(driverReadOk: bool, requestUpsertOk: bool, insertOk: bool, absenceUpsertOk: bool,
                             shiftsReadOk: bool, orgReadOk: bool, adminsReadOk: bool)

  /** A row of the `get_shifts` answer: `shift_date, status, note`. */
  datatype ShiftEntry = ShiftEntry(shiftDate: string, status: ShiftStatus, note: Option<string>)

  datatype Reply =
    | Preflight
    | Failure(status: nat, message: string)
    | TooMany(message: string, retryAfterSeconds: int)
    | ShiftList(driverName: string, shifts: seq<ShiftEntry>)
    | Success(message: string)

  function StatusOf(r: Reply): nat {
    match r
    case Preflight => 200
    case Failure(status, _) => status
    case TooMany(_, _) => 429
    case ShiftList(_, _) => 200
    case Success(_) => 200
  }

  /** What the request did: the reply, the tables after it, and the admin alert to fan out. */
  datatype Outcome = Outcome(reply: Reply, db: Db, alertToken: string, alertTo: seq<Recipient>)

  const MaxRequests: int := 20
  const WindowMs: int := 60000

  const LimitMessage := "リクエスト数が上限を超えました。しばらく待ってから再度お試しください。"
  const AuthRequiredMessage := "認証が必要です"
  const LineAuthFailedMessage := "LINE認証に失敗しました"
  const NotRegisteredMessage := "ドライバー登録がされていません。管理者から受け取った登録URLを開いて、LINE連携を完了してください。"
  const BadYearMonthMessage := "年月の形式が不正です"
  const BadDateMessage := "日付の形式が不正です"
  const BadStatusMessage := "無効なシフト種別です"
  const RequestFailedMessage := "シフト申請に失敗しました"
  const RequestedMessage := "シフトを申請しました"
  const BadTypeMessage := "無効な連絡種別です"
  const EmergencyFailedMessage := "緊急連絡の送信に失敗しました"
  const EmergencySentMessage := "緊急連絡を送信しました。管理者に通知されます。"
  const BadActionMessage := "無効なアクションです"
  const InternalErrorMessage := "内部エラーが発生しました"

  /** The rate-limit key of a client address. */
  function LimitKey(clientIp: string): string {
    "ip:shift:" + clientIp
  }

  /** `Math.ceil(ms / 1000)`. */
  function CeilSeconds(ms: int): (s: int)
    ensures (s - 1) * 1000 < ms <= s * 1000
  {
    if ms % 1000 == 0 then ms / 1000 else ms / 1000 + 1
  }

  /** `typeof body[key] === 'string' ? body[key] : null`. */
  function StringField(body: map<string, Value>, key: string): Option<string> {
    if key in body && body[key].VStr? then Some(body[key].s) else None
  }

  predicate ActionIs(body: map<string, Value>, action: string) {
    "action" in body && body["action"] == VStr(action)
  }

  /** The statuses a driver may request. */
  function RequestableStatus(s: string): (r: Option<ShiftStatus>)
    ensures r.Some? ==> r.value !in {Absent, Pending} && ShiftStatusName(r.value) == s
    ensures r.None? ==> forall t :: t !in {Absent, Pending} ==> ShiftStatusName(t) != s
  {
    if s == "working" then Some(Working)
    else if s == "day_off" then Some(DayOff)
    else if s == "half_am" then Some(HalfAm)
    else if s == "half_pm" then Some(HalfPm)
    else None
  }

  function TypeName(t: EmergencyType): string {
    match t
    case Absence => "absent"
    case VehicleTrouble => "vehicle_trouble"
    case Accident => "accident"
    case Family => "family"
    case OtherReason => "other"
  }

  /** The label the admin alert shows for a report type. */
  function TypeLabel(t: EmergencyType): string {
    match t
    case Absence => "体調不良・欠勤"
    case VehicleTrouble => "車両故障"
    case Accident => "事故"
    case Family => "家庭の事情"
    case OtherReason => "その他"
  }

  /** The five report types, by name. */
  function ParseType(s: string): (r: Option<EmergencyType>)
    ensures r.Some? ==> TypeName(r.value) == s
    ensures r.None? ==> forall t :: TypeName(t) != s
  {
    if s == "absent" then Some(Absence)
    else if s == "vehicle_trouble" then Some(VehicleTrouble)
    else if s == "accident" then Some(Accident)
    else if s == "family" then Some(Family)
    else if s == "other" then Some(OtherReason)
    else None
  }

  /** Rows of `shifts` that collide with `row` under the (driver_id, shift_date) key. */
  function SameSlot(row: Shift): Shift -> bool {
    Slot(row.driverId, row.shiftDate)
  }

  /** The rows with key (driverId, date). */
  function Slot(driverId: string, date: string): Shift -> bool {
    (s: Shift) => s.driverId == driverId && s.shiftDate == date
  }

  predicate UniqueShiftKeys(shifts: seq<Shift>) {
    forall i, j :: 0 <= i < j < |shifts| ==> !(shifts[i].driverId == shifts[j].driverId && shifts[i].shiftDate == shifts[j].shiftDate)
  }

  /** `upsert(row, { onConflict: 'driver_id,shift_date' })`: replace the row of that key, or append one. */
  function UpsertShift(shifts: seq<Shift>, row: Shift): seq<Shift> {
    if exists s :: s in shifts && SameSlot(row)(s) then UpdateWhere(shifts, SameSlot(row), (s: Shift) => row)
    else shifts + [row]
  }

  /** After an upsert exactly one row has the key, it is the new row, and the rows of other keys stay. */
  lemma UpsertShiftLaws(shifts: seq<Shift>, row: Shift)
    requires UniqueShiftKeys(shifts)
    ensures var after := UpsertShift(shifts, row);
      UniqueShiftKeys(after)
      && Filter(after, SameSlot(row)) == [row]
      && (forall s :: s in shifts && !SameSlot(row)(s) ==> s in after)
      && (forall s :: s in after ==> s == row || (s in shifts && !SameSlot(row)(s)))
  {
    if exists s :: s in shifts && SameSlot(row)(s) {
      var k :| 0 <= k < |shifts| && SameSlot(row)(shifts[k]);
      UpsertReplaces(shifts, row, k);
    } else {
      UpsertAppends(shifts, row);
    }
  }

  lemma UpsertReplaces(shifts: seq<Shift>, row: Shift, k: nat)
    requires UniqueShiftKeys(shifts) && k < |shifts| && SameSlot(row)(shifts[k])
    ensures var after := UpdateWhere(shifts, SameSlot(row), (s: Shift) => row);
      UniqueShiftKeys(after)
      && Filter(after, SameSlot(row)) == [row]
      && (forall s :: s in shifts && !SameSlot(row)(s) ==> s in after)
      && (forall s :: s in after ==> s == row || (s in shifts && !SameSlot(row)(s)))
  {
    var p := SameSlot(row);
    var after := UpdateWhere(shifts, p, (s: Shift) => row);
    forall i | 0 <= i < |after| && i != k ensures !p(after[i]) && after[i] == shifts[i] {
    }
    FilterExactlyOne(after, p, k);
    forall s | s in shifts && !p(s) ensures s in after {
      var i :| 0 <= i < |shifts| && shifts[i] == s;
      assert after[i] == s;
    }
  }

  lemma UpsertAppends(shifts: seq<Shift>, row: Shift)
    requires UniqueShiftKeys(shifts) && forall s :: s in shifts ==> !SameSlot(row)(s)
    ensures var after := shifts + [row];
      UniqueShiftKeys(after)
      && Filter(after, SameSlot(row)) == [row]
  {
    var p := SameSlot(row);
    forall i | 0 <= i < |shifts| ensures !p(shifts[i]) {
      assert shifts[i] in shifts;
    }
    FilterNone(shifts, p);
    FilterAppend(shifts, [row], p);
    assert Filter([row], p) == [row] + Filter([row][1..], p);
  }

  // ---------------------------------------------------------------- get_shifts

  /** The caller's shift rows between the two date bounds, inclusive. */
  function InRange(shifts: seq<Shift>, driverId: string, start: string, end: string): (r: seq<Shift>)
    ensures forall s :: s in r <==> s in shifts && s.driverId == driverId && !StrLess(s.shiftDate, start) && !StrLess(end, s.shiftDate)
  {
    Filter(shifts, (s: Shift) => s.driverId == driverId && !StrLess(s.shiftDate, start) && !StrLess(end, s.shiftDate))
  }

  /**
   * The query as written: bounds `YYYY-MM-01` and `YYYY-MM-31`. A bound that names no real day makes the
   * DATE comparison fail, the read yields null and the answer is `[]`.
   */
  function MonthRowsAsWritten(shifts: seq<Shift>, driverId: string, ym: string): (r: seq<Shift>)
    ensures forall s :: s in r ==>
      s in shifts && s.driverId == driverId && !StrLess(s.shiftDate, ym + "-01") && !StrLess(ym + "-31", s.shiftDate)
    ensures RealDate(ym + "-01") && RealDate(ym + "-31") ==>
      forall s :: s in shifts && s.driverId == driverId && !StrLess(s.shiftDate, ym + "-01") && !StrLess(ym + "-31", s.shiftDate)
        ==> s in r
    ensures !RealDate(ym + "-31") ==> r == []
  {
    var start := ym + "-01";
    var end := ym + "-31";
    if RealDate(start) && RealDate(end) then InRange(shifts, driverId, start, end) else []
  }

  /** The last day of the month, as two digits. */
  function MonthEnd(ym: string): (r: string)
    requires YearMonthShape(ym)
    ensures |r| == 2 && AllDigits(r)
    ensures 1 <= MonthOf(ym) <= 12 ==> DigitsValue(r) == DaysInMonth(YearOf(ym), MonthOf(ym))
  {
    if 1 <= MonthOf(ym) <= 12 then
      Pad2Value(DaysInMonth(YearOf(ym), MonthOf(ym)));
      Pad2(DaysInMonth(YearOf(ym), MonthOf(ym)))
    else "31"
  }

  /** The query bounded by the month's real last day. */
  function MonthRows(shifts: seq<Shift>, driverId: string, ym: string): (r: seq<Shift>)
    requires YearMonthShape(ym)
    ensures forall s :: s in r ==>
      s in shifts && s.driverId == driverId && !StrLess(s.shiftDate, ym + "-01") && !StrLess(ym + "-" + MonthEnd(ym), s.shiftDate)
    ensures RealMonth(ym) ==>
      forall s :: s in shifts && s.driverId == driverId && !StrLess(s.shiftDate, ym + "-01") && !StrLess(ym + "-" + MonthEnd(ym), s.shiftDate)
        ==> s in r
  {
    var start := ym + "-01";
    var end := ym + "-" + MonthEnd(ym);
    assert RealMonth(ym) ==> RealDate(start) && RealDate(end) by {
      if RealMonth(ym) { MonthBoundsReal(ym); }
    }
    if RealDate(start) && RealDate(end) then InRange(shifts, driverId, start, end) else []
  }
  lemma DigitsOf2025()
    ensures AllDigits("2025") && DigitsValue("2025") == 2025
  {
    assert "2025"[..3] == "202" && "202"[..2] == "20" && "20"[..1] == "2" && "2"[..0] == [];
  }

  /** The months with fewer than 31 days. */
  const ShortMonths: set<string> := {"02", "04", "06", "09", "11"}

  /** February, April, June, September and November have no 31st, whatever the year. */
  lemma NoThirtyFirst(ym: string)
    requires YearMonthShape(ym) && ym[5..] in ShortMonths
    ensures !RealDate(ym + "-31")
  {
    var end := ym + "-31";
    assert end[..7] == ym && end[8..] == "31";
    TwoDigits(ym[5..]);
    TwoDigits("31");
  }

  /** For February the query as written answers nothing, even when the caller has a shift that month. */
  lemma ShortMonthLosesShifts()
    ensures var s := Shift("org", "drv", "2025-02-10", Working, None, "driver");
      s.shiftDate[..7] == "2025-02" && RealDate(s.shiftDate) && MonthRowsAsWritten([s], "drv", "2025-02") == []
  {
    var d := "2025-02-10";
    assert d[..7] == "2025-02" && d[..7][..4] == "2025" && d[..7][5..] == "02" && d[8..] == "10";
    DigitsOf2025();
    TwoDigits("02");
    TwoDigits("10");
    assert RealDate(d);
    NoThirtyFirst("2025-02");
  }

  /** Both bounds of a real month name real days. */
  lemma MonthBoundsReal(ym: string)
    requires RealMonth(ym)
    ensures RealDate(ym + "-01") && RealDate(ym + "-" + MonthEnd(ym))
  {
    var n := DaysInMonth(YearOf(ym), MonthOf(ym));
    Pad2Value(n);
    var start, end := ym + "-01", ym + "-" + MonthEnd(ym);
    assert start[..7] == ym && end[..7] == ym;
    assert start[8..] == "01" && end[8..] == Pad2(n);
    TwoDigits("01");
  }

  /**
   * On a real month, every shift of the caller dated on a real day of that month is in the answer, and every
   * row of the answer is the caller's and lies between the month's first and last day.
   */
  lemma MonthRowsComplete(shifts: seq<Shift>, driverId: string, ym: string)
    requires RealMonth(ym)
    ensures forall s :: s in shifts && s.driverId == driverId && RealDate(s.shiftDate) && s.shiftDate[..7] == ym
                        ==> s in MonthRows(shifts, driverId, ym)
    ensures forall s :: s in MonthRows(shifts, driverId, ym) ==>
      s in shifts && s.driverId == driverId && !StrLess(s.shiftDate, ym + "-01") && !StrLess(ym + "-" + MonthEnd(ym), s.shiftDate)
  {
    MonthBoundsReal(ym);
    var n := DaysInMonth(YearOf(ym), MonthOf(ym));
    Pad2Value(n);
    TwoDigits("01");
    forall s | s in shifts && s.driverId == driverId && RealDate(s.shiftDate) && s.shiftDate[..7] == ym
      ensures !StrLess(s.shiftDate, ym + "-01") && !StrLess(ym + "-" + MonthEnd(ym), s.shiftDate)
    {
      var d := s.shiftDate;
      var day := d[8..];
      assert d == (ym + "-") + day;
      assert ym + "-01" == (ym + "-") + "01";
      assert ym + "-" + MonthEnd(ym) == (ym + "-") + Pad2(n);
      StrLessPrefix(ym + "-", day, "01");
      StrLessPrefix(ym + "-", Pad2(n), day);
      TwoDigitOrder(day, "01");
      TwoDigitOrder(Pad2(n), day);
    }
  }

  // ---------------------------------------------------------------- the handler

  const AlertHeader := "\U{1F6A8} 緊急連絡\n\n"
  const AbsenceNotePrefix := "緊急連絡: "

  const AlertNamed := "さんから緊急連絡がありました。\n種別: "
  const AlertReasonLabel := "理由: "
  const AlertFooter := "\n\n管理画面の「緊急連絡」ページで確認してください。"

  /** A string occurs in a concatenation right after its left part. */
  lemma OccursAtEnd(s: string, sub: string)
    ensures OccursAt(s + sub, sub, |s|)
  {
    assert (s + sub)[|s|..|s| + |sub|] == sub;
  }

  /** An occurrence survives appending. */
  lemma OccursAtExtend(s: string, t: string, sub: string, i: int)
    requires OccursAt(s, sub, i)
    ensures OccursAt(s + t, sub, i)
  {
    assert (s + t)[i..i + |sub|] == s[i..i + |sub|];
  }

  /** The admin alert text: it opens with the alert header and names the driver, the type and a non-empty reason. */
  function AlertText(driverName: string, t: EmergencyType, reason: Option<string>): (r: string)
    ensures StartsWith(r, AlertHeader) && OccursAt(r, driverName, |AlertHeader|)
    ensures Contains(r, TypeLabel(t))
    ensures Truthy(reason) ==> Contains(r, reason.value)
  {
    var named := AlertHeader + driverName;
    var labelled := named + AlertNamed;
    var lead := labelled + TypeLabel(t) + "\n";
    OccursAtEnd([], AlertHeader);
    OccursAtExtend(AlertHeader, driverName, AlertHeader, 0);
    OccursAtEnd(AlertHeader, driverName);
    OccursAtExtend(named, AlertNamed, AlertHeader, 0);
    OccursAtExtend(named, AlertNamed, driverName, |AlertHeader|);
    OccursAtExtend(labelled, TypeLabel(t), AlertHeader, 0);
    OccursAtExtend(labelled, TypeLabel(t), driverName, |AlertHeader|);
    OccursAtEnd(labelled, TypeLabel(t));
    OccursAtExtend(labelled + TypeLabel(t), "\n", AlertHeader, 0);
    OccursAtExtend(labelled + TypeLabel(t), "\n", driverName, |AlertHeader|);
    OccursAtExtend(labelled + TypeLabel(t), "\n", TypeLabel(t), |labelled|);
    if Truthy(reason) then
      var said := lead + AlertReasonLabel;
      OccursAtExtend(lead, AlertReasonLabel, AlertHeader, 0);
      OccursAtExtend(lead, AlertReasonLabel, driverName, |AlertHeader|);
      OccursAtExtend(lead, AlertReasonLabel, TypeLabel(t), |labelled|);
      OccursAtExtend(said, reason.value, AlertHeader, 0);
      OccursAtExtend(said, reason.value, driverName, |AlertHeader|);
      OccursAtExtend(said, reason.value, TypeLabel(t), |labelled|);
      OccursAtEnd(said, reason.value);
      OccursAtExtend(said + reason.value, AlertFooter, AlertHeader, 0);
      OccursAtExtend(said + reason.value, AlertFooter, driverName, |AlertHeader|);
      OccursAtExtend(said + reason.value, AlertFooter, TypeLabel(t), |labelled|);
      OccursAtExtend(said + reason.value, AlertFooter, reason.value, |said|);
      said + reason.value + AlertFooter
    else
      OccursAtExtend(lead, AlertFooter, AlertHeader, 0);
      OccursAtExtend(lead, AlertFooter, driverName, |AlertHeader|);
      OccursAtExtend(lead, AlertFooter, TypeLabel(t), |labelled|);
      lead + AlertFooter
  }

  /**
   * The note of the forced absence: the prefix, then the reason when one is given (even empty), else the
   * type name, which reads back as the type.
   */
  function AbsenceNote(t: EmergencyType, reason: Option<string>): (r: string)
    ensures StartsWith(r, AbsenceNotePrefix)
    ensures reason.Some? ==> r[|AbsenceNotePrefix|..] == reason.value
    ensures reason.None? ==> ParseType(r[|AbsenceNotePrefix|..]) == Some(t)
  {
    var r := AbsenceNotePrefix + (if reason.Some? then reason.value else TypeName(t));
    assert r[..|AbsenceNotePrefix|] == AbsenceNotePrefix;
    assert r[|AbsenceNotePrefix|..] == if reason.Some? then reason.value else TypeName(t);
    r
  }

  /** The admins who are alerted: same organisation, LINE id not null, in table order. */
  function AlertRecipients(admins: seq<Admin>, orgId: string, text: string): (r: seq<Recipient>)
    ensures forall x :: x in r <==> x.text == text && exists a :: a in admins && a.organizationId == orgId && a.lineUserId == Some(x.lineUserId)
  {
    var linked := Filter(admins, (a: Admin) => a.organizationId == orgId && a.lineUserId.Some?);
    var r := seq(|linked|, i requires 0 <= i < |linked| => Recipient(linked[i].lineUserId.value, text));
    assert forall x :: x in r ==> exists a :: a in linked && a.lineUserId == Some(x.lineUserId) by {
      forall x | x in r ensures exists a :: a in linked && a.lineUserId == Some(x.lineUserId) {
        var i :| 0 <= i < |r| && r[i] == x;
        assert linked[i] in linked;
      }
    }
    assert forall a :: a in linked ==> Recipient(a.lineUserId.value, text) in r by {
      forall a | a in linked ensures Recipient(a.lineUserId.value, text) in r {
        var i :| 0 <= i < |linked| && linked[i] == a;
        assert r[i] == Recipient(a.lineUserId.value, text);
      }
    }
    r
  }

  /** The `shift_date, status, note` columns of the rows, in order. */
  function Entries(rows: seq<Shift>): (r: seq<ShiftEntry>)
    ensures |r| == |rows|
    ensures forall i :: 0 <= i < |rows| ==> r[i] == ShiftEntry(rows[i].shiftDate, rows[i].status, rows[i].note)
    ensures forall e :: e in r ==> exists s :: s in rows && e == ShiftEntry(s.shiftDate, s.status, s.note)
  {
    var r := seq(|rows|, i requires 0 <= i < |rows| => ShiftEntry(rows[i].shiftDate, rows[i].status, rows[i].note));
    assert forall e :: e in r ==> exists s :: s in rows && e == ShiftEntry(s.shiftDate, s.status, s.note) by {
      forall e | e in r ensures exists s :: s in rows && e == ShiftEntry(s.shiftDate, s.status, s.note) {
        var i :| 0 <= i < |r| && r[i] == e;
        assert rows[i] in rows;
      }
    }
    r
  }

  /** A row's entry is listed. */
  lemma EntryListed(rows: seq<Shift>, s: Shift)
    requires s in rows
    ensures ShiftEntry(s.shiftDate, s.status, s.note) in Entries(rows)
  {
    var i :| 0 <= i < |rows| && rows[i] == s;
    assert Entries(rows)[i] == ShiftEntry(s.shiftDate, s.status, s.note);
  }

  /** `get_shifts`: the month query as written (`-01` to `-31`); a failed read answers `[]`. */
  function GetShifts(driver: Driver, body: map<string, Value>, db: Db, calls: DbCalls): (o: Outcome)
    ensures o.db == db && o.alertTo == []
    ensures var ym := StringField(body, "yearMonth");
      o.reply == Failure(400, BadYearMonthMessage) <==> !Truthy(ym) || !YearMonthShape(ym.value)
    ensures var ym := StringField(body, "yearMonth");
      o.reply.ShiftList? <==> Truthy(ym) && YearMonthShape(ym.value)
    ensures o.reply.ShiftList? ==> o.reply.driverName == driver.name
    ensures o.reply.ShiftList? ==> forall e :: e in o.reply.shifts ==>
      exists s :: s in db.shifts && s.driverId == driver.id && e == ShiftEntry(s.shiftDate, s.status, s.note)
    ensures var ym := StringField(body, "yearMonth");
      Truthy(ym) && calls.shiftsReadOk && RealDate(ym.value + "-01") && RealDate(ym.value + "-31") ==> forall s ::
        s in db.shifts && s.driverId == driver.id && !StrLess(s.shiftDate, ym.value + "-01") && !StrLess(ym.value + "-31", s.shiftDate)
        ==> ShiftEntry(s.shiftDate, s.status, s.note) in o.reply.shifts
    ensures var ym := StringField(body, "yearMonth");
      Truthy(ym) && YearMonthShape(ym.value) && (!calls.shiftsReadOk || !RealDate(ym.value + "-31")) ==> o.reply == ShiftList(driver.name, [])
  {
    var ym := StringField(body, "yearMonth");
    if !Truthy(ym) || !YearMonthShape(ym.value) then Outcome(Failure(400, BadYearMonthMessage), db, "", [])
    else
      var rows := if calls.shiftsReadOk then MonthRowsAsWritten(db.shifts, driver.id, ym.value) else [];
      assert forall s :: s in rows ==> ShiftEntry(s.shiftDate, s.status, s.note) in Entries(rows) by {
        forall s | s in rows ensures ShiftEntry(s.shiftDate, s.status, s.note) in Entries(rows) {
          EntryListed(rows, s);
        }
      }
      Outcome(ShiftList(driver.name, Entries(rows)), db, "", [])
  }

  /**
   * `request_shift`: a bad date, then a status that is not requestable, is 400, a failed upsert 500; otherwise the
   * caller's row for the date is upserted with the requested status and note, submitted by `driver`. The
   * date is only checked for its `YYYY-MM-DD` shape; the `date` column refuses a day the calendar does not
   * have, so such a date fails as a failed upsert does.
   */
  function RequestShift(driver: Driver, body: map<string, Value>, db: Db, calls: DbCalls): (o: Outcome)
    ensures o.alertTo == []
    ensures var date, status := StringField(body, "shiftDate"), StringField(body, "status");
      o.reply == Success(RequestedMessage) <==>
      Truthy(date) && RealDate(date.value) && Truthy(status) && RequestableStatus(status.value).Some? && calls.requestUpsertOk
    ensures var date := StringField(body, "shiftDate");
      !Truthy(date) || !DateShape(date.value) ==> o.reply == Failure(400, BadDateMessage)
    ensures var date, status := StringField(body, "shiftDate"), StringField(body, "status");
      Truthy(date) && DateShape(date.value) && (!Truthy(status) || RequestableStatus(status.value).None?) ==> o.reply == Failure(400, BadStatusMessage)
    ensures var date, status := StringField(body, "shiftDate"), StringField(body, "status");
      Truthy(date) && DateShape(date.value) && Truthy(status) && RequestableStatus(status.value).Some?
      && (!RealDate(date.value) || !calls.requestUpsertOk) ==>
      o.reply == Failure(500, RequestFailedMessage)
    ensures o.reply != Success(RequestedMessage) ==> o.db == db
    ensures o.reply == Success(RequestedMessage) ==>
      o.db == db.(shifts := UpsertShift(db.shifts, Shift(driver.organizationId, driver.id, StringField(body, "shiftDate").value,
                                                         RequestableStatus(StringField(body, "status").value).value,
                                                         StringField(body, "note"), "driver")))
  {
    var date := StringField(body, "shiftDate");
    var status := StringField(body, "status");
    var note := StringField(body, "note");
    if !Truthy(date) || !DateShape(date.value) then Outcome(Failure(400, BadDateMessage), db, "", [])
    else if !Truthy(status) || RequestableStatus(status.value).None? then Outcome(Failure(400, BadStatusMessage), db, "", [])
    else if !calls.requestUpsertOk || !RealDate(date.value) then Outcome(Failure(500, RequestFailedMessage), db, "", [])
    else
      var row := Shift(driver.organizationId, driver.id, date.value, RequestableStatus(status.value).value, note, "driver");
      Outcome(Success(RequestedMessage), db.(shifts := UpsertShift(db.shifts, row)), "", [])
  }

  /**
   * `emergency`: an unknown type is 400 and a failed report insert 500; otherwise the report is appended, today's
   * shift forced absent when that upsert succeeds, and the organisation's linked admins alerted when the
   * organisation has a token.
   */
  function Emergency(driver: Driver, body: map<string, Value>, db: Db, today: string, calls: DbCalls): (o: Outcome)
    ensures var rt := StringField(body, "reportType");
      o.reply == Success(EmergencySentMessage) <==> Truthy(rt) && ParseType(rt.value).Some? && calls.insertOk
    ensures var rt := StringField(body, "reportType");
      !Truthy(rt) || ParseType(rt.value).None? ==> o.reply == Failure(400, BadTypeMessage)
    ensures var rt := StringField(body, "reportType");
      Truthy(rt) && ParseType(rt.value).Some? && !calls.insertOk ==> o.reply == Failure(500, EmergencyFailedMessage)
    ensures o.reply != Success(EmergencySentMessage) ==> o.db == db && o.alertTo == []
    ensures o.db.drivers == db.drivers && o.db.organizations == db.organizations && o.db.admins == db.admins
    ensures o.reply == Success(EmergencySentMessage) ==>
      o.db.emergencies == db.emergencies + [EmergencyReport(driver.organizationId, driver.id, today,
                                                            ParseType(StringField(body, "reportType").value).value,
                                                            StringField(body, "reason"), "liff")]
    ensures !calls.absenceUpsertOk ==> o.db.shifts == db.shifts
    ensures o.alertTo != [] ==> calls.orgReadOk && calls.adminsReadOk
    ensures forall x :: x in o.alertTo ==>
      exists a :: a in db.admins && a.organizationId == driver.organizationId && a.lineUserId == Some(x.lineUserId)
  {
    var reportType := StringField(body, "reportType");
    var reason := StringField(body, "reason");
    if !Truthy(reportType) || ParseType(reportType.value).None? then Outcome(Failure(400, BadTypeMessage), db, "", [])
    else if !calls.insertOk then Outcome(Failure(500, EmergencyFailedMessage), db, "", [])
    else
      var t := ParseType(reportType.value).value;
      var report := EmergencyReport(driver.organizationId, driver.id, today, t, reason, "liff");
      var absence := Shift(driver.organizationId, driver.id, today, Absent, Some(AbsenceNote(t, reason)), "system");
      var shifts := if calls.absenceUpsertOk then UpsertShift(db.shifts, absence) else db.shifts;
      var after := db.(emergencies := db.emergencies + [report], shifts := shifts);
      var org := if calls.orgReadOk then Single(db.organizations, (o: Organization) => o.id == driver.organizationId) else None;
      if org.Some? && Truthy(org.value.accessToken) then
        Outcome(Success(EmergencySentMessage), after, org.value.accessToken.value,
                if calls.adminsReadOk then AlertRecipients(db.admins, driver.organizationId, AlertText(driver.name, t, reason)) else [])
      else Outcome(Success(EmergencySentMessage), after, "", [])
  }

  /** The handler after the rate-limit gate: authentication, the driver, then the action. */
  function Route(authHeader: Option<string>, verify: string -> Result<Option<string>>, body: Option<map<string, Value>>,
                 db: Db, today: string, calls: DbCalls): (o: Outcome)
    ensures o.alertTo != [] ==> o.reply == Success(EmergencySentMessage)
    ensures StatusOf(o.reply) != 200 ==> o.db == db && o.alertTo == []
    ensures StatusOf(o.reply) == 401 <==> LinkDriver.Caller(authHeader, verify).None? && !LinkDriver.VerifyThrows(authHeader, verify)
    ensures LinkDriver.VerifyThrows(authHeader, verify) ==> o.reply == Failure(500, InternalErrorMessage)
    ensures StatusOf(o.reply) == 403 <==>
      LinkDriver.Caller(authHeader, verify).Some?
      && (!calls.driverReadOk || ActiveDriverOf(db.drivers, LinkDriver.Caller(authHeader, verify).value).None?)
    ensures o.db.drivers == db.drivers && o.db.organizations == db.organizations && o.db.admins == db.admins
  {
    if authHeader.None? || !StartsWith(authHeader.value, "Bearer ") then Outcome(Failure(401, AuthRequiredMessage), db, "", [])
    else
      match verify(authHeader.value[7..])
      case Err(_) => Outcome(Failure(500, InternalErrorMessage), db, "", [])
      case Ok(lineUserId) =>
        if !Truthy(lineUserId) then Outcome(Failure(401, LineAuthFailedMessage), db, "", [])
        else match (if calls.driverReadOk then ActiveDriverOf(db.drivers, lineUserId.value) else None)
          case None => Outcome(Failure(403, NotRegisteredMessage), db, "", [])
          case Some(driver) =>
            match body
            case None => Outcome(Failure(500, InternalErrorMessage), db, "", [])
            case Some(fields) => Act(driver, fields, db, today, calls)
  }

  /** The action of a known driver's request: an unknown action is 400. */
  function Act(driver: Driver, fields: map<string, Value>, db: Db, today: string, calls: DbCalls): (o: Outcome)
    ensures o.alertTo != [] ==> o.reply == Success(EmergencySentMessage)
    ensures StatusOf(o.reply) != 200 ==> o.db == db && o.alertTo == []
    ensures StatusOf(o.reply) in {200, 400, 500}
    ensures o.db.drivers == db.drivers && o.db.organizations == db.organizations && o.db.admins == db.admins
    ensures !ActionIs(fields, "get_shifts") && !ActionIs(fields, "request_shift") && !ActionIs(fields, "emergency") ==>
      o == Outcome(Failure(400, BadActionMessage), db, "", [])
  {
    if ActionIs(fields, "get_shifts") then GetShifts(driver, fields, db, calls)
    else if ActionIs(fields, "request_shift") then RequestShift(driver, fields, db, calls)
    else if ActionIs(fields, "emergency") then Emergency(driver, fields, db, today, calls)
    else Outcome(Failure(400, BadActionMessage), db, "", [])
  }

  /**
   * The serve handler: the preflight answer, else one count against the caller's IP, then the route, then
   * the admin alert pushes (whose failures are ignored).
   */
  method Serve(limiter: RateLimit.RateLimiter, httpMethod: string, forwardedFor: Option<string>, realIp: Option<string>,
               now: int, authHeader: Option<string>, verify: string -> Result<Option<string>>, body: Option<map<string, Value>>,
               db: Db, today: string, calls: DbCalls, deliver: Push -> bool)
    returns (reply: Reply, after: Db, sent: seq<Push>)
    modifies limiter
    ensures httpMethod == "OPTIONS" ==> reply == Preflight && after == db && sent == [] && unchanged(limiter)
    ensures httpMethod != "OPTIONS" ==>
      var (store, last, d) := RateLimit.Check(old(limiter.store), old(limiter.lastCleanup),
                                              LimitKey(RateLimit.GetClientIp(forwardedFor, realIp)), MaxRequests, WindowMs, now);
      var o := Route(authHeader, verify, body, db, today, calls);
      limiter.store == store && limiter.lastCleanup == last
      && (!d.allowed ==> reply == TooMany(LimitMessage, CeilSeconds(d.retryAfterMs)) && after == db && sent == [])
      && (d.allowed ==> reply == o.reply && after == o.db && sent == Pushes(o.alertToken, o.alertTo))
  {
    if httpMethod == "OPTIONS" {
      return Preflight, db, [];
    }
    var clientIp := RateLimit.GetClientIp(forwardedFor, realIp);
    var d := limiter.CheckRateLimit(LimitKey(clientIp), MaxRequests, WindowMs, now);
    if !d.allowed {
      return TooMany(LimitMessage, CeilSeconds(d.retryAfterMs)), db, [];
    }
    var o := Route(authHeader, verify, body, db, today, calls);
    var n;
    sent, n := SendAll(o.alertToken, o.alertTo, deliver);
    reply, after := o.reply, o.db;
  }

  /**
   * The caller the request authenticates as, when there is one: `findDriverByLineUserId` answers null
   * on a read error as it does for no single active driver.
   */
  function Caller(authHeader: Option<string>, verify: string -> Result<Option<string>>, db: Db, calls: DbCalls): (r: Option<Driver>)
    ensures r.Some? <==> LinkDriver.Caller(authHeader, verify).Some? && calls.driverReadOk
                         && ActiveDriverOf(db.drivers, LinkDriver.Caller(authHeader, verify).value).Some?
  {
    var sub := LinkDriver.Caller(authHeader, verify);
    if sub.None? || !calls.driverReadOk then None else ActiveDriverOf(db.drivers, sub.value)
  }

  /**
   * What `get_shifts` answers a registered caller: 400 for a missing or malformed `yearMonth`, else the
   * caller's name and exactly the rows of the month query as written, each as its date, status and note
   * (none when the read fails). Nothing is written and nobody is alerted.
   */
  lemma GetShiftsReply(authHeader: Option<string>, verify: string -> Result<Option<string>>, fields: map<string, Value>,
                       db: Db, today: string, calls: DbCalls)
    requires Caller(authHeader, verify, db, calls).Some? && ActionIs(fields, "get_shifts")
    ensures var o := Route(authHeader, verify, Some(fields), db, today, calls);
      var driver := Caller(authHeader, verify, db, calls).value;
      var ym := StringField(fields, "yearMonth");
      o.db == db && o.alertTo == []
      && (!Truthy(ym) || !YearMonthShape(ym.value) ==> o.reply == Failure(400, BadYearMonthMessage))
      && (Truthy(ym) && YearMonthShape(ym.value) ==>
            o.reply == ShiftList(driver.name, Entries(if calls.shiftsReadOk then MonthRowsAsWritten(db.shifts, driver.id, ym.value) else [])))
  {
    assert !ActionIs(fields, "request_shift") && !ActionIs(fields, "emergency");
  }

  /**
   * In a month of fewer than 31 days `get_shifts` answers an empty list, whatever shifts the caller has:
   * the handler's upper bound `YYYY-MM-31` names no day of that month.
   */
  lemma GetShiftsEmptyInShortMonth(authHeader: Option<string>, verify: string -> Result<Option<string>>,
                                   fields: map<string, Value>, db: Db, today: string, calls: DbCalls)
    requires Caller(authHeader, verify, db, calls).Some? && ActionIs(fields, "get_shifts")
    requires "yearMonth" in fields && fields["yearMonth"].VStr?
    requires YearMonthShape(fields["yearMonth"].s) && fields["yearMonth"].s[5..] in ShortMonths
    ensures Route(authHeader, verify, Some(fields), db, today, calls).reply
         == ShiftList(Caller(authHeader, verify, db, calls).value.name, [])
  {
    GetShiftsReply(authHeader, verify, fields, db, today, calls);
    NoThirtyFirst(fields["yearMonth"].s);
  }

  /**
   * A granted shift request names a day the calendar has, and leaves exactly one row for the caller and the
   * date: the requested status (never absent or pending), the note as sent, submitted by the driver. No
   * emergency report is written.
   */
  lemma RequestShiftEffect(authHeader: Option<string>, verify: string -> Result<Option<string>>, fields: map<string, Value>,
                           db: Db, today: string, calls: DbCalls)
    requires UniqueShiftKeys(db.shifts)
    requires Route(authHeader, verify, Some(fields), db, today, calls).reply == Success(RequestedMessage)
    ensures Caller(authHeader, verify, db, calls).Some? && ActionIs(fields, "request_shift") && calls.requestUpsertOk
    ensures Truthy(StringField(fields, "shiftDate")) && RealDate(StringField(fields, "shiftDate").value)
    ensures var o := Route(authHeader, verify, Some(fields), db, today, calls);
      var driver := Caller(authHeader, verify, db, calls).value;
      var date := StringField(fields, "shiftDate").value;
      var status := RequestableStatus(StringField(fields, "status").value);
      status.Some? && status.value !in {Absent, Pending}
      && ShiftStatusName(status.value) == StringField(fields, "status").value
      && Filter(o.db.shifts, Slot(driver.id, date))
         == [Shift(driver.organizationId, driver.id, date, status.value, StringField(fields, "note"), "driver")]
      && UniqueShiftKeys(o.db.shifts)
      && o.db.emergencies == db.emergencies && o.alertTo == []
  {
    var driver := Caller(authHeader, verify, db, calls).value;
    var date := StringField(fields, "shiftDate").value;
    var status := RequestableStatus(StringField(fields, "status").value);
    var row := Shift(driver.organizationId, driver.id, date, status.value, StringField(fields, "note"), "driver");
    UpsertShiftLaws(db.shifts, row);
  }

  /**
   * A sent emergency is recorded once for today, and forces the caller's shift today to a single absent row
   * written by the system; when that upsert fails the shifts are left as they were.
   */
  lemma EmergencyEffect(authHeader: Option<string>, verify: string -> Result<Option<string>>, fields: map<string, Value>,
                        db: Db, today: string, calls: DbCalls)
    requires UniqueShiftKeys(db.shifts)
    requires Route(authHeader, verify, Some(fields), db, today, calls).reply == Success(EmergencySentMessage)
    ensures Caller(authHeader, verify, db, calls).Some? && ActionIs(fields, "emergency") && calls.insertOk
    ensures var o := Route(authHeader, verify, Some(fields), db, today, calls);
      var driver := Caller(authHeader, verify, db, calls).value;
      var t := ParseType(StringField(fields, "reportType").value);
      var reason := StringField(fields, "reason");
      t.Some? && TypeName(t.value) == StringField(fields, "reportType").value
      && o.db.emergencies == db.emergencies + [EmergencyReport(driver.organizationId, driver.id, today, t.value, reason, "liff")]
      && (calls.absenceUpsertOk ==>
            Filter(o.db.shifts, Slot(driver.id, today))
            == [Shift(driver.organizationId, driver.id, today, Absent, Some(AbsenceNote(t.value, reason)), "system")]
            && UniqueShiftKeys(o.db.shifts))
      && (!calls.absenceUpsertOk ==> o.db.shifts == db.shifts)
  {
    var driver := Caller(authHeader, verify, db, calls).value;
    var t := ParseType(StringField(fields, "reportType").value).value;
    var reason := StringField(fields, "reason");
    UpsertShiftLaws(db.shifts, Shift(driver.organizationId, driver.id, today, Absent, Some(AbsenceNote(t, reason)), "system"));
  }

  /**
   * The alert goes with the caller's organisation's token to exactly its admins with a non-empty LINE id,
   * each once per matching row, and only when that organisation has a token; a failed read of the
   * organisation or of its admins sends nothing.
   */
  lemma AlertsGoToOrgAdmins(authHeader: Option<string>, verify: string -> Result<Option<string>>, fields: map<string, Value>,
                            db: Db, today: string, calls: DbCalls)
    requires Route(authHeader, verify, Some(fields), db, today, calls).reply == Success(EmergencySentMessage)
    ensures Caller(authHeader, verify, db, calls).Some? && ParseType(StringField(fields, "reportType").value).Some?
    ensures var o := Route(authHeader, verify, Some(fields), db, today, calls);
      var driver := Caller(authHeader, verify, db, calls).value;
      var org := Single(db.organizations, (x: Organization) => x.id == driver.organizationId);
      var text := AlertText(driver.name, ParseType(StringField(fields, "reportType").value).value, StringField(fields, "reason"));
      (!calls.orgReadOk || org.None? || !Truthy(org.value.accessToken) || !calls.adminsReadOk ==> Pushes(o.alertToken, o.alertTo) == [])
      && (calls.orgReadOk && org.Some? && Truthy(org.value.accessToken) && calls.adminsReadOk ==>
            forall p :: p in Pushes(o.alertToken, o.alertTo) <==>
              p.token == org.value.accessToken.value && p.to != "" && p.text == text
              && exists a :: a in db.admins && a.organizationId == driver.organizationId && a.lineUserId == Some(p.to))
  {
    assert Caller(authHeader, verify, db, calls).Some? && ActionIs(fields, "emergency");
    var driver := Caller(authHeader, verify, db, calls).value;
    RouteEmergency(authHeader, verify, fields, db, today, calls);
    var o := Emergency(driver, fields, db, today, calls);
    PushesMembers(o.alertToken, o.alertTo);
  }

  /** For a known driver, the `emergency` action is answered by `Emergency`. */
  lemma RouteEmergency(authHeader: Option<string>, verify: string -> Result<Option<string>>, fields: map<string, Value>,
                       db: Db, today: string, calls: DbCalls)
    requires Caller(authHeader, verify, db, calls).Some? && ActionIs(fields, "emergency")
    ensures Route(authHeader, verify, Some(fields), db, today, calls)
         == Emergency(Caller(authHeader, verify, db, calls).value, fields, db, today, calls)
  {
    assert !ActionIs(fields, "get_shifts") && !ActionIs(fields, "request_shift");
  }
}
