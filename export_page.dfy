/**
 * The CSV export screen: `escapeCsv`, which writes one field per section 2 of
 * RFC 4180 and additionally neutralises spreadsheet formulas, the driver and
 * vehicle filters, the name and plate lookups, and the loop that appends one
 * line per row to the file text.
 */
module ExportPage {
  import opened Common
  import opened Tables

  /** `str.replace(/"/g, '""')`: every double quote doubled. */
  function DoubleQuotes(s: string): (r: string)
    ensures |r| >= |s|
    ensures '"' !in s ==> r == s
    decreases |s|
  {
    if s == [] then []
    else (if s[0] == '"' then "\"\"" else [s[0]]) + DoubleQuotes(s[1..])
  }

  /** `/^[=+\-@\t\r]/`: a first character a spreadsheet could read as the start of a formula. */
  predicate FormulaLead(c: char) {
    c == '=' || c == '+' || c == '-' || c == '@' || c == '\t' || c == '\r'
  }

  /** `/[,"\n\r]/`: a character that forces an RFC 4180 field into quotes. */
  predicate Special(c: char) {
    c == ',' || c == '"' || c == '\n' || c == '\r'
  }

  predicate HasSpecial(s: string) {
    exists i :: 0 <= i < |s| && Special(s[i])
  }

  /**
   * `escapeCsv` on null/undefined (None) or on `String(value)`: "" for no value;
   * a formula-looking value quoted behind a `'`; a value with a comma, quote or
   * line break quoted; any other value as it is. No result starts with a
   * character that would make a spreadsheet evaluate it.
   */
  function EscapeCsv(value: Option<string>): (r: string)
    ensures value.None? ==> r == ""
    ensures value.Some? && |value.value| > 0 && FormulaLead(value.value[0]) ==>
      r == "\"'" + DoubleQuotes(value.value) + "\""
    ensures value.Some? && !(|value.value| > 0 && FormulaLead(value.value[0])) && HasSpecial(value.value) ==>
      r == "\"" + DoubleQuotes(value.value) + "\""
    ensures value.Some? && !(|value.value| > 0 && FormulaLead(value.value[0])) && !HasSpecial(value.value) ==>
      r == value.value
    ensures |r| > 0 ==> !FormulaLead(r[0])
  {
    if value.None? then ""
    else
      var s := value.value;
      if |s| > 0 && FormulaLead(s[0]) then "\"'" + DoubleQuotes(s) + "\""
      else if HasSpecial(s) then "\"" + DoubleQuotes(s) + "\""
      else s
  }

  /** Reading the inside of a quoted field: `""` stands for one quote; a lone quote makes the field malformed. */
  function Undouble(t: string): (r: Option<string>)
    decreases |t|
  {
    if t == [] then Some([])
    else if t[0] != '"' then
      var rest := Undouble(t[1..]);
      if rest.Some? then Some([t[0]] + rest.value) else None
    else if |t| >= 2 && t[1] == '"' then
      var rest := Undouble(t[2..]);
      if rest.Some? then Some(['"'] + rest.value) else None
    else None
  }

  /**
   * A reader for one field of section 2 of RFC 4180: a quoted field (rules 5
   * to 7) is unquoted and undoubled; an unquoted field may hold no comma,
   * quote or line break.
   */
  function ParseField(f: string): (r: Option<string>) {
    if |f| >= 2 && f[0] == '"' && f[|f| - 1] == '"' then Undouble(f[1..|f| - 1])
    else if HasSpecial(f) then None
    else Some(f)
  }

  /** Doubling can always be undone. */
  lemma {:induction false} UndoubleDoubled(s: string)
    ensures Undouble(DoubleQuotes(s)) == Some(s)
    decreases |s|
  {
    if s != [] {
      var rest := DoubleQuotes(s[1..]);
      UndoubleDoubled(s[1..]);
      if s[0] == '"' {
        var t := "\"\"" + rest;
        assert t[2..] == rest;
      } else {
        var t := [s[0]] + rest;
        assert t[1..] == rest;
      }
      assert s == [s[0]] + s[1..];
    }
  }

  /**
   * Every escaped value reads back as an RFC 4180 field: the value itself, or,
   * when it looked like a formula, the value behind a `'`.
   */
  lemma EscapeRoundTrip(s: string)
    ensures ParseField(EscapeCsv(Some(s))) == Some(if |s| > 0 && FormulaLead(s[0]) then "'" + s else s)
  {
    if |s| > 0 && FormulaLead(s[0]) {
      FormulaReadsBack(s);
    } else if HasSpecial(s) {
      QuotedReadsBack(s);
    } else {
      PlainReadsBack(s);
    }
  }

  /** A formula-looking value reads back behind its `'`. */
  lemma FormulaReadsBack(s: string)
    requires |s| > 0 && FormulaLead(s[0])
    ensures ParseField(EscapeCsv(Some(s))) == Some("'" + s)
  {
    var body := "'" + s;
    assert body[1..] == s;
    assert DoubleQuotes(body) == "'" + DoubleQuotes(s);
    Regroup('"', '\'', DoubleQuotes(s), '"');
    QuotedReadsBack(body);
  }

  lemma Regroup<T>(a: T, b: T, m: seq<T>, z: T)
    ensures [a, b] + m + [z] == [a] + ([b] + m) + [z]
  {
  }

  /** A value with nothing to quote is written and read as it is. */
  lemma PlainReadsBack(s: string)
    requires !(|s| > 0 && FormulaLead(s[0])) && !HasSpecial(s)
    ensures ParseField(EscapeCsv(Some(s))) == Some(s)
  {
    assert |s| > 0 ==> !Special(s[0]);
  }

  /** A value doubled and put in quotes reads back as the value. */
  lemma QuotedReadsBack(body: string)
    ensures ParseField("\"" + DoubleQuotes(body) + "\"") == Some(body)
  {
    var f := "\"" + DoubleQuotes(body) + "\"";
    assert f[1..|f| - 1] == DoubleQuotes(body);
    UndoubleDoubled(body);
  }

  /** `filterByDriver`: everything for 'all', else the rows of that driver, in order. */
  function FilterByDriver(rows: seq<Report>, selected: string): (r: seq<Report>)
    ensures selected == "all" ==> r == rows
    ensures selected != "all" ==> forall x :: x in r <==> x in rows && x.driverId == selected
  {
    if selected == "all" then rows else Filter(rows, (x: Report) => x.driverId == selected)
  }

  /** `filterByVehicle`: everything for 'all', else the rows of that vehicle (a row without one never matches), in order. */
  function FilterByVehicle(rows: seq<Report>, selected: string): (r: seq<Report>)
    ensures selected == "all" ==> r == rows
    ensures selected != "all" ==> forall x :: x in r <==> x in rows && x.vehicleId == Some(selected)
  {
    if selected == "all" then rows else Filter(rows, (x: Report) => x.vehicleId == Some(selected))
  }

  /** Both filters keep the input order: they distribute over concatenation. */
  lemma FiltersKeepOrder(a: seq<Report>, b: seq<Report>, driver: string, vehicle: string)
    ensures FilterByDriver(a + b, driver) == FilterByDriver(a, driver) + FilterByDriver(b, driver)
    ensures FilterByVehicle(a + b, vehicle) == FilterByVehicle(a, vehicle) + FilterByVehicle(b, vehicle)
  {
    FilterAppend(a, b, (x: Report) => x.driverId == driver);
    FilterAppend(a, b, (x: Report) => x.vehicleId == Some(vehicle));
  }

  datatype ExportType = PreWork | PostWork | Inspection | Accident

  /** The rows one export writes: both filters, except that the accident export ignores the vehicle selection. */
  function ExportRows(kind: ExportType, rows: seq<Report>, driver: string, vehicle: string): (r: seq<Report>)
    ensures kind == Accident ==> r == FilterByDriver(rows, driver)
    ensures kind != Accident ==> forall x :: x in r <==>
      x in rows && (driver == "all" || x.driverId == driver) && (vehicle == "all" || x.vehicleId == Some(vehicle))
  {
    if kind == Accident then FilterByDriver(rows, driver)
    else FilterByVehicle(FilterByDriver(rows, driver), vehicle)
  }

  /** `drivers.find(d => d.id === id)?.name ?? '-'`. */
  function DriverName(drivers: seq<Driver>, id: string): (r: string)
    ensures (forall d :: d in drivers ==> d.id != id) ==> r == "-"
    ensures forall j :: 0 <= j < |drivers| && drivers[j].id == id && (forall k :: 0 <= k < j ==> drivers[k].id != id) ==>
      r == drivers[j].name
  {
    var i := FindIndex(drivers, (d: Driver) => d.id == id);
    if i.Some? then drivers[i.value].name else "-"
  }

  /** `id ? (vehicles.find(v => v.id === id)?.plateNumber ?? '-') : '-'`: no id (null or "") and an unknown id both show "-". */
  function VehiclePlate(vehicles: seq<Vehicle>, id: Option<string>): (r: string)
    ensures id.None? || id.value == "" ==> r == "-"
    ensures id.Some? && (forall v :: v in vehicles ==> v.id != id.value) ==> r == "-"
    ensures id.Some? && id.value != "" ==> forall j :: 0 <= j < |vehicles| && vehicles[j].id == id.value && (forall k :: 0 <= k < j ==> vehicles[k].id != id.value) ==>
      r == vehicles[j].plateNumber
  {
    if id.None? || id.value == "" then "-"
    else
      var i := FindIndex(vehicles, (v: Vehicle) => v.id == id.value);
      if i.Some? then vehicles[i.value].plateNumber else "-"
  }

  /** One line of the file: the cells joined by commas, then a line feed. */
  function Line(cells: seq<string>): string {
    Join(cells, ",") + "\n"
  }

  /** The lines of `rows`, in order. */
  function Lines(rows: seq<seq<string>>): string {
    if rows == [] then "" else Lines(rows[..|rows| - 1]) + Line(rows[|rows| - 1])
  }

  /** The file has one line per row, after the header: `Lines` distributes over concatenation. */
  lemma {:induction false} LinesAppend(a: seq<seq<string>>, b: seq<seq<string>>)
    ensures Lines(a + b) == Lines(a) + Lines(b)
    decreases |b|
  {
    if b == [] {
      assert a + b == a;
    } else {
      var c := a + b;
      var init := b[..|b| - 1];
      assert c[..|c| - 1] == a + init;
      assert c[|c| - 1] == b[|b| - 1];
      LinesAppend(a, init);
      assert Lines(c) == (Lines(a) + Lines(init)) + Line(b[|b| - 1]);
    }
  }

  /** `handleExport`'s loop: start from the header and append one line per row with `+=`. */
  method BuildCsv(header: string, rows: seq<seq<string>>) returns (csv: string)
    ensures csv == header + Lines(rows)
  {
    csv := header;
    var i := 0;
    while i < |rows|
      invariant 0 <= i <= |rows|
      invariant csv == header + Lines(rows[..i])
    {
      assert rows[..i + 1][..i] == rows[..i];
      csv := csv + Line(rows[i]);
      i := i + 1;
    }
    assert rows[..|rows|] == rows;
  }
}
