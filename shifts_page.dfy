/**
 * The admin shift calendar: month navigation, the list of the month's days,
 * the weekday template (working on weekdays, off at weekends) for every
 * active driver, the lookup of each driver's status on a day, and the
 * head-count of drivers on duty per day.
 */
module ShiftsPage {
  import opened Common
  import opened Tables
  import opened Calendar

  /** `handlePrevMonth`, with 1-based months; months are counted as `year * 12 + month - 1`. */
  function PrevMonth(year: int, month: int): (r: (int, int))
    requires 1 <= month <= 12
    ensures 1 <= r.1 <= 12
    ensures r.0 * 12 + r.1 == year * 12 + month - 1
  {
    if month == 1 then (year - 1, 12) else (year, month - 1)
  }

  /** `handleNextMonth`, with 1-based months. */
  function NextMonth(year: int, month: int): (r: (int, int))
    requires 1 <= month <= 12
    ensures 1 <= r.1 <= 12
    ensures r.0 * 12 + r.1 == year * 12 + month + 1
  {
    if month == 12 then (year + 1, 1) else (year, month + 1)
  }

  /** `new Date(year, ...)` reads the years 0 to 99 as 1900 to 1999. */
  function JsYear(year: int): int {
    if 0 <= year <= 99 then 1900 + year else year
  }

  datatype DateCell = DateCell(date: string, day: nat, weekday: nat)

  /** The `i`-th cell of `dates`: the date `${year}-MM-DD`, the day number and its weekday. */
  function Cell(year: int, month: int, i: nat): DateCell
    requires 1 <= month <= 12
  {
    DateCell(YearString(year) + "-" + Pad2(month) + "-" + Pad2(i + 1), i + 1, Weekday(Date(JsYear(year), month, i + 1)))
  }

  /** `dates`: one cell per day of the month (`new Date(year, month, 0).getDate()` of them). */
  function Dates(year: int, month: int): (r: seq<DateCell>)
    requires 1 <= month <= 12
    ensures |r| == DaysInMonth(JsYear(year), month)
    ensures forall i :: 0 <= i < |r| ==> r[i] == Cell(year, month, i)
  {
    seq(DaysInMonth(JsYear(year), month), i requires 0 <= i => Cell(year, month, i))
  }

  /**
   * Each day of the month appears once, in order: cell `i` is day `i + 1`,
   * no two cells carry the same date string, and the weekday advances by one
   * from each cell to the next.
   */
  lemma DatesListEachDayOnce(year: int, month: int)
    requires 1 <= month <= 12
    ensures var r := Dates(year, month);
      (forall i :: 0 <= i < |r| ==> r[i].day == i + 1)
      && (forall i, j :: 0 <= i < j < |r| ==> r[i].date != r[j].date)
      && (forall i :: 0 <= i < |r| - 1 ==> r[i + 1].weekday == (r[i].weekday + 1) % 7)
  {
    DatesDistinct(year, month);
    DatesWeekdays(year, month);
  }

  lemma DatesDistinct(year: int, month: int)
    requires 1 <= month <= 12
    ensures var r := Dates(year, month); forall i, j :: 0 <= i < j < |r| ==> r[i].date != r[j].date
  {
    var r := Dates(year, month);
    forall i, j | 0 <= i < j < |r| ensures r[i].date != r[j].date {
      CellDatesDiffer(year, month, i, j);
    }
  }

  lemma DatesWeekdays(year: int, month: int)
    requires 1 <= month <= 12
    ensures var r := Dates(year, month); forall i :: 0 <= i < |r| - 1 ==> r[i + 1].weekday == (r[i].weekday + 1) % 7
  {
    var r := Dates(year, month);
    forall i | 0 <= i < |r| - 1 ensures r[i + 1].weekday == (r[i].weekday + 1) % 7 {
      CellWeekdayAdvances(year, month, i);
    }
  }

  /** Two cells of a month carry different date strings: their last two characters are the two day numbers. */
  lemma CellDatesDiffer(year: int, month: int, i: nat, j: nat)
    requires 1 <= month <= 12 && i < j < 31
    ensures Cell(year, month, i).date != Cell(year, month, j).date
  {
    var prefix := YearString(year) + "-" + Pad2(month) + "-";
    Pad2Value(i + 1);
    Pad2Value(j + 1);
    assert Cell(year, month, i).date[|prefix|..] == Pad2(i + 1);
    assert Cell(year, month, j).date[|prefix|..] == Pad2(j + 1);
  }

  /** The weekday of the next cell is one more, modulo 7. */
  lemma CellWeekdayAdvances(year: int, month: int, i: nat)
    requires 1 <= month <= 12 && i + 1 < DaysInMonth(JsYear(year), month)
    ensures Cell(year, month, i + 1).weekday == (Cell(year, month, i).weekday + 1) % 7
  {
    var d := Date(JsYear(year), month, i + 1);
    assert NextDay(d) == Date(JsYear(year), month, i + 2);
    WeekdayAdvances(d);
  }

  /** `drivers.filter(d => d.status === 'active')`: the only drivers shown, templated and counted. */
  function ActiveDrivers(drivers: seq<Driver>): (r: seq<Driver>)
    ensures forall d :: d in r <==> d in drivers && d.status == Active
  {
    Filter(drivers, (d: Driver) => d.status == Active)
  }

  /** One upsert entry of the template. */
  datatype Entry = Entry(driverId: string, date: string, status: ShiftStatus)

  /** The template's status for a weekday: off on Sunday (0) and Saturday (6), working otherwise. */
  function TemplateStatus(weekday: nat): ShiftStatus {
    if weekday == 0 || weekday == 6 then DayOff else Working
  }

  /** The template entry of one driver on one day. */
  function TemplateEntry(driver: Driver, d: DateCell): Entry {
    Entry(driver.id, d.date, TemplateStatus(d.weekday))
  }

  /** `dates.map(...)` for one driver. */
  function DriverRow(driver: Driver, dates: seq<DateCell>): (r: seq<Entry>)
    ensures |r| == |dates| && forall j :: 0 <= j < |dates| ==> r[j] == TemplateEntry(driver, dates[j])
  {
    seq(|dates|, j requires 0 <= j < |dates| => TemplateEntry(driver, dates[j]))
  }

  /** `drivers.flatMap(driver => dates.map(...))`. */
  function Template(drivers: seq<Driver>, dates: seq<DateCell>): (r: seq<Entry>)
    ensures |r| == |drivers| * |dates|
  {
    if drivers == [] then [] else DriverRow(drivers[0], dates) + Template(drivers[1..], dates)
  }

  /** The template holds exactly one entry per driver and day, driver by driver: day `j` of driver `i` sits at `i * |dates| + j`. */
  lemma {:induction false} TemplateAt(drivers: seq<Driver>, dates: seq<DateCell>, i: nat, j: nat)
    requires i < |drivers| && j < |dates|
    ensures i * |dates| + j < |Template(drivers, dates)|
    ensures Template(drivers, dates)[i * |dates| + j] == TemplateEntry(drivers[i], dates[j])
    decreases i
  {
    if i > 0 {
      TemplateAt(drivers[1..], dates, i - 1, j);
      assert i * |dates| + j == |dates| + ((i - 1) * |dates| + j);
    }
  }

  /** Every template entry is that of some driver of the list on some day of the list. */
  lemma {:induction false} TemplateMembers(drivers: seq<Driver>, dates: seq<DateCell>, e: Entry)
    requires e in Template(drivers, dates)
    ensures exists d, c :: d in drivers && c in dates && e == TemplateEntry(d, c)
    decreases |drivers|
  {
    var row := DriverRow(drivers[0], dates);
    if e in row {
      var j :| 0 <= j < |row| && row[j] == e;
      assert drivers[0] in drivers && dates[j] in dates;
    } else {
      TemplateMembers(drivers[1..], dates, e);
      var d, c :| d in drivers[1..] && c in dates && e == TemplateEntry(d, c);
      assert d in drivers;
    }
  }

  /** `applyWeekdayTemplate`: the entries sent to the bulk upsert. */
  function ApplyWeekdayTemplate(drivers: seq<Driver>, year: int, month: int): seq<Entry>
    requires 1 <= month <= 12
  {
    Template(ActiveDrivers(drivers), Dates(year, month))
  }

  /** Only active drivers are templated, and each on a day of the month with the weekday's status. */
  lemma TemplateOnlyActive(drivers: seq<Driver>, year: int, month: int, e: Entry)
    requires 1 <= month <= 12 && e in ApplyWeekdayTemplate(drivers, year, month)
    ensures exists d :: d in drivers && d.status == Active && d.id == e.driverId
    ensures exists c :: c in Dates(year, month) && c.date == e.date && e.status == TemplateStatus(c.weekday)
  {
    TemplateMembers(ActiveDrivers(drivers), Dates(year, month), e);
  }

  /** The `shiftMap` key: `${driverId}-${date}`. */
  function ShiftKey(driverId: string, date: string): string {
    driverId + "-" + date
  }

  function KeyOf(s: Shift): string {
    ShiftKey(s.driverId, s.shiftDate)
  }

  /** With dates of one length (every `shift_date` is `YYYY-MM-DD`), keys of different slots differ. */
  lemma ShiftKeyInjective(a: string, da: string, b: string, db: string)
    requires |da| == |db|
    ensures ShiftKey(a, da) == ShiftKey(b, db) ==> a == b && da == db
  {
    if ShiftKey(a, da) == ShiftKey(b, db) {
      var k := ShiftKey(a, da);
      assert |a| == |b|;
      assert k[..|a|] == a && ShiftKey(b, db)[..|b|] == b;
      assert k[|a| + 1..] == da && ShiftKey(b, db)[|b| + 1..] == db;
    }
  }

  /** The map after `map.set` of every row in order: a later row overwrites an earlier one with the same key. */
  function ShiftMapOf(shifts: seq<Shift>): map<string, Shift> {
    if shifts == [] then map[]
    else ShiftMapOf(shifts[..|shifts| - 1])[KeyOf(shifts[|shifts| - 1]) := shifts[|shifts| - 1]]
  }

  /** `shiftMap`'s loop. */
  method BuildShiftMap(shifts: seq<Shift>) returns (m: map<string, Shift>)
    ensures m == ShiftMapOf(shifts)
  {
    m := map[];
    var i := 0;
    while i < |shifts|
      invariant 0 <= i <= |shifts|
      invariant m == ShiftMapOf(shifts[..i])
    {
      assert shifts[..i + 1][..i] == shifts[..i];
      m := m[KeyOf(shifts[i]) := shifts[i]];
      i := i + 1;
    }
    assert shifts[..|shifts|] == shifts;
  }

  /** Row `i` has key `k` and no later row has it. */
  predicate LastWithKey(shifts: seq<Shift>, k: string, i: int) {
    0 <= i < |shifts| && KeyOf(shifts[i]) == k && forall j :: i < j < |shifts| ==> KeyOf(shifts[j]) != k
  }

  /** A key is in the map iff some row has it, and it maps to the last row that has it. */
  lemma {:induction false} LastRowWins(shifts: seq<Shift>, k: string)
    ensures k in ShiftMapOf(shifts) <==> exists i :: 0 <= i < |shifts| && KeyOf(shifts[i]) == k
    ensures k in ShiftMapOf(shifts) ==> exists i :: LastWithKey(shifts, k, i) && ShiftMapOf(shifts)[k] == shifts[i]
    decreases |shifts|
  {
    if shifts != [] {
      var n := |shifts| - 1;
      var init := shifts[..n];
      var last := shifts[n];
      var m := ShiftMapOf(shifts);
      assert m == ShiftMapOf(init)[KeyOf(last) := last];
      if KeyOf(last) == k {
        assert LastWithKey(shifts, k, n) && m[k] == shifts[n];
      } else {
        LastRowWins(init, k);
        LastRowWinsStep(shifts, k);
      }
    }
  }

  /** The step of `LastRowWins` when the last row has another key: the map and the witnesses are those of the rows before it. */
  lemma LastRowWinsStep(shifts: seq<Shift>, k: string)
    requires shifts != [] && KeyOf(shifts[|shifts| - 1]) != k
    requires var init := shifts[..|shifts| - 1];
      (k in ShiftMapOf(init) <==> exists i :: 0 <= i < |init| && KeyOf(init[i]) == k)
      && (k in ShiftMapOf(init) ==> exists i :: LastWithKey(init, k, i) && ShiftMapOf(init)[k] == init[i])
    ensures k in ShiftMapOf(shifts) <==> exists i :: 0 <= i < |shifts| && KeyOf(shifts[i]) == k
    ensures k in ShiftMapOf(shifts) ==> exists i :: LastWithKey(shifts, k, i) && ShiftMapOf(shifts)[k] == shifts[i]
  {
    var n := |shifts| - 1;
    var init := shifts[..n];
    var m := ShiftMapOf(shifts);
    assert k in m <==> k in ShiftMapOf(init);
    if k in ShiftMapOf(init) {
      var i :| LastWithKey(init, k, i) && ShiftMapOf(init)[k] == init[i];
      assert shifts[i] == init[i];
      forall j | i < j < |shifts| ensures KeyOf(shifts[j]) != k {
        if j < n {
          assert shifts[j] == init[j];
        }
      }
      assert LastWithKey(shifts, k, i) && m[k] == shifts[i];
    }
    if exists i :: 0 <= i < |shifts| && KeyOf(shifts[i]) == k {
      var i :| 0 <= i < |shifts| && KeyOf(shifts[i]) == k;
      assert i < n && init[i] == shifts[i];
    }
  }

  /** `getShiftStatus`: the status of the row under the driver's and day's key, or null. */
  function StatusAt(m: map<string, Shift>, driverId: string, date: string): Option<ShiftStatus> {
    var k := ShiftKey(driverId, date);
    if k in m then Some(m[k].status) else None
  }

  /** Statuses counted as on duty: working, morning only or afternoon only. */
  predicate OnDuty(s: Option<ShiftStatus>) {
    s == Some(Working) || s == Some(HalfAm) || s == Some(HalfPm)
  }

  /** The number of the listed drivers on duty on `date`. */
  function OnDutyCount(active: seq<Driver>, m: map<string, Shift>, date: string): (n: nat)
    ensures n <= |active|
  {
    CountWhere(active, (d: Driver) => OnDuty(StatusAt(m, d.id, date)))
  }

  lemma CountSnoc<T(!new)>(s: seq<T>, x: T, p: T -> bool)
    ensures CountWhere(s + [x], p) == CountWhere(s, p) + (if p(x) then 1 else 0)
  {
    FilterAppend(s, [x], p);
    assert Filter([x], p) == if p(x) then [x] else [];
  }

  /** The inner loop of `dailyCounts`: `count++` for each listed driver on duty that day. */
  method CountOnDuty(active: seq<Driver>, m: map<string, Shift>, date: string) returns (count: nat)
    ensures count == OnDutyCount(active, m, date)
  {
    ghost var p := (d: Driver) => OnDuty(StatusAt(m, d.id, date));
    count := 0;
    var j := 0;
    while j < |active|
      invariant 0 <= j <= |active|
      invariant count == CountWhere(active[..j], p)
    {
      CountSnoc(active[..j], active[j], p);
      assert active[..j + 1] == active[..j] + [active[j]];
      var status := StatusAt(m, active[j].id, date);
      assert p(active[j]) == OnDuty(status);
      if status == Some(Working) || status == Some(HalfAm) || status == Some(HalfPm) {
        count := count + 1;
      }
      j := j + 1;
    }
    assert active[..|active|] == active;
  }

  /**
   * `dailyCounts`: for every day of the list, the number of listed drivers on
   * duty, so never more than the number of drivers; no other keys.
   */
  method DailyCounts(dates: seq<DateCell>, active: seq<Driver>, m: map<string, Shift>) returns (counts: map<string, nat>)
    ensures forall k :: 0 <= k < |dates| ==> dates[k].date in counts && counts[dates[k].date] == OnDutyCount(active, m, dates[k].date)
    ensures forall d :: d in counts ==> counts[d] <= |active| && exists k :: 0 <= k < |dates| && dates[k].date == d
  {
    counts := map[];
    var i := 0;
    while i < |dates|
      invariant 0 <= i <= |dates|
      invariant forall k :: 0 <= k < i ==> dates[k].date in counts && counts[dates[k].date] == OnDutyCount(active, m, dates[k].date)
      invariant forall d :: d in counts ==> counts[d] <= |active| && exists k :: 0 <= k < i && dates[k].date == d
    {
      var count := CountOnDuty(active, m, dates[i].date);
      counts := counts[dates[i].date := count];
      i := i + 1;
    }
  }

  /** The options of a cell's selector besides the empty one. */
  function SelectStatus(value: string): Option<ShiftStatus> {
    if value == "working" then Some(Working)
    else if value == "day_off" then Some(DayOff)
    else if value == "half_am" then Some(HalfAm)
    else if value == "half_pm" then Some(HalfPm)
    else None
  }

  /** A cell's `onChange`: the upsert it issues; the empty option "--" issues none. */
  function OnSelect(driverId: string, date: string, value: string): (r: Option<Entry>)
    requires value == "" || SelectStatus(value).Some?
    ensures r.None? <==> value == ""
    ensures r.Some? ==> r.value.driverId == driverId && r.value.date == date && ShiftStatusName(r.value.status) == value
  {
    if value == "" then None else Some(Entry(driverId, date, SelectStatus(value).value))
  }
}
