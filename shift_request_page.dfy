/**
 * The driver's shift-request screen (LIFF): month navigation with 0-based
 * months, the `yearMonth` it asks the submit-shift function for, the local
 * list of the driver's shifts and how a request changes it, and which days
 * offer a selector.
 */
module ShiftRequestPage {
  import opened Common
  import opened Tables
  import opened Calendar
  import SubmitShift
  import ShiftsPage

  type ShiftEntry = SubmitShift.ShiftEntry

  /** `prevMonth`, with 0-based months; months are counted as `year * 12 + month`. */
  function PrevMonth(year: int, month: int): (r: (int, int))
    requires 0 <= month <= 11
    ensures 0 <= r.1 <= 11
    ensures r.0 * 12 + r.1 == year * 12 + month - 1
  {
    if month == 0 then (year - 1, 11) else (year, month - 1)
  }

  /** `nextMonth`, with 0-based months. */
  function NextMonth(year: int, month: int): (r: (int, int))
    requires 0 <= month <= 11
    ensures 0 <= r.1 <= 11
    ensures r.0 * 12 + r.1 == year * 12 + month + 1
  {
    if month == 11 then (year + 1, 0) else (year, month + 1)
  }

  /** `yearMonth`: the year, a dash and the 1-based month with two digits. */
  function YearMonth(year: int, month: int): string
    requires 0 <= month <= 11
  {
    YearString(year) + "-" + Pad2(month + 1)
  }

  /** For a four-digit year the string has the `YYYY-MM` shape the submit-shift function demands, and names that month. */
  lemma YearMonthAccepted(year: int, month: int)
    requires 1000 <= year <= 9999 && 0 <= month <= 11
    ensures var ym := YearMonth(year, month);
      RealMonth(ym) && YearOf(ym) == year && MonthOf(ym) == month + 1
  {
    var ym := YearMonth(year, month);
    FourDigitYear(year);
    Pad2Value(month + 1);
    assert ym[..4] == YearString(year);
    assert ym[5..] == Pad2(month + 1);
  }

  /**
   * The list after an accepted request: the entries of other dates, in order,
   * then one entry for the date with the new status and no note.
   */
  function Replace(shifts: seq<ShiftEntry>, date: string, status: ShiftStatus): (r: seq<ShiftEntry>)
    ensures |r| > 0 && r[|r| - 1] == SubmitShift.ShiftEntry(date, status, None)
  {
    Filter(shifts, (s: ShiftEntry) => s.shiftDate != date) + [SubmitShift.ShiftEntry(date, status, None)]
  }

  /** After the replacement the date has exactly one entry, the new one, and every other date keeps its entries in order. */
  lemma ReplaceOnePerDate(shifts: seq<ShiftEntry>, date: string, status: ShiftStatus, other: string)
    requires other != date
    ensures Filter(Replace(shifts, date, status), (s: ShiftEntry) => s.shiftDate == date) == [SubmitShift.ShiftEntry(date, status, None)]
    ensures Filter(Replace(shifts, date, status), (s: ShiftEntry) => s.shiftDate == other) == Filter(shifts, (s: ShiftEntry) => s.shiftDate == other)
  {
    var keep := (s: ShiftEntry) => s.shiftDate != date;
    var isDate := (s: ShiftEntry) => s.shiftDate == date;
    var isOther := (s: ShiftEntry) => s.shiftDate == other;
    var kept := Filter(shifts, keep);
    var entry := SubmitShift.ShiftEntry(date, status, None);
    FilterAppend(kept, [entry], isDate);
    FilterNone(kept, isDate);
    assert Filter([entry], isDate) == [entry];
    FilterAppend(kept, [entry], isOther);
    assert Filter([entry], isOther) == [];
    FilterFilter(shifts, keep, isOther, isOther);
  }

  /** What the function answered: 2xx with its message, another status with its message, or a failed fetch or unreadable body. */
  datatype Response = Accepted(message: Option<string>) | Rejected(message: Option<string>) | NetworkError

  datatype Message = Success(text: string) | Failure(text: string)

  datatype PageState = PageState(shifts: seq<ShiftEntry>, submitting: Option<string>, message: Option<Message>)

  /**
   * `handleShiftRequest` outside demo mode, from the state before the call to
   * the state after `finally`: an accepted request replaces the date's entry;
   * a rejected one or a network error leaves the list as it was. Either way
   * nothing is left submitting and a message is shown.
   */
  function HandleShiftRequest(st: PageState, date: string, status: ShiftStatus, response: Response): (r: PageState)
    ensures r.submitting.None? && r.message.Some?
    ensures response.Accepted? ==> r.shifts == Replace(st.shifts, date, status) && r.message.value.Success?
    ensures !response.Accepted? ==> r.shifts == st.shifts && r.message.value.Failure?
    ensures response.Accepted? && response.message.Some? ==> r.message == Some(Success(response.message.value))
    ensures response.Rejected? && response.message.Some? ==> r.message == Some(Failure(response.message.value))
  {
    match response
    case Accepted(m) => PageState(Replace(st.shifts, date, status), None, Some(Success(GetOr(m, "申請しました"))))
    case Rejected(m) => PageState(st.shifts, None, Some(Failure(GetOr(m, "申請に失敗しました"))))
    case NetworkError => PageState(st.shifts, None, Some(Failure("通信エラーが発生しました")))
  }

  function StatusLabel(status: ShiftStatus): string {
    match status
    case Working => "出勤"
    case DayOff => "休み"
    case HalfAm => "午前のみ"
    case HalfPm => "午後のみ"
    case _ => ""
  }

  /** The state the `catch` and `finally` leave: the list as it was, nothing submitting, the network-error message. */
  function CaughtState(st: PageState): (r: PageState)
    ensures r.shifts == st.shifts && r.submitting.None?
    ensures r.message == Some(Failure("通信エラーが発生しました"))
  {
    PageState(st.shifts, None, Some(Failure("通信エラーが発生しました")))
  }

  /**
   * `handleShiftRequest` in demo mode as the page is written: the demo store
   * has no `shiftService`, so `demoShiftService` is undefined and the call to
   * its `upsert` throws before the list is touched; the `catch` shows the
   * network error and the list keeps its old entries.
   */
  function HandleDemoRequestAsWritten(st: PageState, date: string, status: ShiftStatus): (r: PageState)
    ensures r.shifts == st.shifts && r.submitting.None?
    ensures r.message == Some(Failure("通信エラーが発生しました"))
  {
    CaughtState(st)
  }

  /**
   * `handleShiftRequest` in demo mode with an upsert that exists: when it
   * resolves the list is replaced the same way as for an accepted request and
   * the message names the date and the status label; when it rejects the
   * `catch` keeps the list and shows the network error.
   */
  function HandleDemoRequest(st: PageState, date: string, status: ShiftStatus, upsertOk: bool): (r: PageState)
    ensures r.submitting.None?
    ensures upsertOk ==> r.shifts == Replace(st.shifts, date, status)
    ensures upsertOk ==> r.message == Some(Success(date + " を「" + StatusLabel(status) + "」に設定しました"))
    ensures !upsertOk ==> r == CaughtState(st)
  {
    if upsertOk then PageState(Replace(st.shifts, date, status), None, Some(Success(date + " を「" + StatusLabel(status) + "」に設定しました")))
    else CaughtState(st)
  }

  /**
   * As written, a demo request never takes effect: from an empty list the
   * chosen day is still missing afterwards and an error is shown, where the
   * intended handler adds the day's entry and reports success.
   */
  lemma DemoRequestLost(date: string, status: ShiftStatus)
    ensures var st := PageState([], None, None);
      HandleDemoRequestAsWritten(st, date, status).shifts == []
      && HandleDemoRequestAsWritten(st, date, status).message.value.Failure?
      && HandleDemoRequest(st, date, status, true).shifts == [SubmitShift.ShiftEntry(date, status, None)]
      && HandleDemoRequest(st, date, status, true).message.value.Success?
  {
    var st := PageState([], None, None);
    assert Filter(st.shifts, (s: ShiftEntry) => s.shiftDate != date) == [];
  }

  /** With a working upsert the demo branch and an accepted request leave the same list, both cleared and both reporting success. */
  lemma DemoMatchesAccepted(st: PageState, date: string, status: ShiftStatus, m: Option<string>)
    ensures HandleDemoRequest(st, date, status, true).shifts == HandleShiftRequest(st, date, status, Accepted(m)).shifts
    ensures HandleDemoRequest(st, date, status, false) == HandleShiftRequest(st, date, status, NetworkError)
  {
  }

  /** A day offers a selector unless it lies before today (string order) or its request is in flight. */
  predicate HasSelector(date: string, today: string, submitting: Option<string>) {
    !StrLess(date, today) && submitting != Some(date)
  }

  /**
   * A choice in a day's selector: nothing for the empty option, else a request
   * for that day; days without a selector issue none.
   */
  function OnSelect(date: string, today: string, submitting: Option<string>, value: string): (r: Option<(string, ShiftStatus)>)
    requires value == "" || ShiftsPage.SelectStatus(value).Some?
    ensures r.Some? <==> value != "" && HasSelector(date, today, submitting)
    ensures r.Some? ==> r.value.0 == date && ShiftStatusName(r.value.1) == value
    ensures StrLess(date, today) ==> r.None?
  {
    if value == "" || !HasSelector(date, today, submitting) then None
    else Some((date, ShiftsPage.SelectStatus(value).value))
  }
}
