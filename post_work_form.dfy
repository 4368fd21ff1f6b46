/**
 * The post-work report form (LIFF): the editable list of rest periods, which
 * of them are submitted, and the payload it sends, with the optional fields
 * sent as null when left empty.
 */
module PostWorkForm {
  import opened Common

  datatype RestPeriod = RestPeriod(start: string, end: string, location: string)

  datatype RestField = Start | End | Location

  /** The list the form opens with: one lunch break from 12:00 to 13:00. */
  const InitialRests: seq<RestPeriod> := [RestPeriod("12:00", "13:00", "")]

  /** `addRest`: one more period, all fields empty, at the end. */
  function AddRest(rs: seq<RestPeriod>): (r: seq<RestPeriod>)
    ensures |r| == |rs| + 1 && r[..|rs|] == rs && r[|rs|] == RestPeriod("", "", "")
  {
    rs + [RestPeriod("", "", "")]
  }

  /** `removeRest(i)`: `prev.filter((_, idx) => idx !== i)`, walking the list with the index counting down. */
  function RemoveRest(rs: seq<RestPeriod>, i: int): (r: seq<RestPeriod>)
    decreases |rs|
  {
    if rs == [] then [] else (if i == 0 then [] else [rs[0]]) + RemoveRest(rs[1..], i - 1)
  }

  /** Removing drops exactly the `i`-th period and keeps the others in order; an index outside the list removes nothing. */
  lemma {:induction false} RemoveRestDropsOne(rs: seq<RestPeriod>, i: int)
    ensures 0 <= i < |rs| ==> RemoveRest(rs, i) == rs[..i] + rs[i + 1..]
    ensures !(0 <= i < |rs|) ==> RemoveRest(rs, i) == rs
    decreases |rs|
  {
    if rs != [] {
      RemoveRestDropsOne(rs[1..], i - 1);
      if i == 0 {
        assert rs[..0] + rs[1..] == rs[1..];
      } else if 0 < i < |rs| {
        ConsSplit(rs, i);
      } else {
        assert [rs[0]] + rs[1..] == rs;
      }
    }
  }

  /** Dropping position `i - 1` of the tail and putting the head back drops position `i`. */
  lemma ConsSplit<T>(rs: seq<T>, i: int)
    requires 0 < i < |rs|
    ensures [rs[0]] + (rs[1..][..i - 1] + rs[1..][i..]) == rs[..i] + rs[i + 1..]
  {
    assert rs[1..][..i - 1] == rs[1..i] && rs[1..][i..] == rs[i + 1..];
    assert [rs[0]] + rs[1..i] == rs[..i];
  }

  /** `{ ...r, [field]: value }`: that field set, the other two kept. */
  function SetField(p: RestPeriod, field: RestField, value: string): (r: RestPeriod)
    ensures r.start == if field == Start then value else p.start
    ensures r.end == if field == End then value else p.end
    ensures r.location == if field == Location then value else p.location
  {
    match field
    case Start => p.(start := value)
    case End => p.(end := value)
    case Location => p.(location := value)
  }

  /** `updateRest(i, field, value)`: field `field` of period `i` set; every other field and period unchanged. */
  function UpdateRest(rs: seq<RestPeriod>, i: int, field: RestField, value: string): (r: seq<RestPeriod>)
    ensures |r| == |rs|
    ensures forall j :: 0 <= j < |rs| && j != i ==> r[j] == rs[j]
    ensures 0 <= i < |rs| ==> r[i] == SetField(rs[i], field, value)
  {
    seq(|rs|, j requires 0 <= j < |rs| => if j == i then SetField(rs[j], field, value) else rs[j])
  }

  /** `restPeriods.filter(r => r.start && r.end)`: the submitted periods. */
  function SubmittedRests(rs: seq<RestPeriod>): (r: seq<RestPeriod>)
    ensures forall p :: p in r <==> p in rs && p.start != "" && p.end != ""
  {
    Filter(rs, (p: RestPeriod) => p.start != "" && p.end != "")
  }

  /** The submitted periods keep the form's order. */
  lemma SubmittedRestsKeepOrder(a: seq<RestPeriod>, b: seq<RestPeriod>)
    ensures SubmittedRests(a + b) == SubmittedRests(a) + SubmittedRests(b)
  {
    FilterAppend(a, b, (p: RestPeriod) => p.start != "" && p.end != "");
  }

  /** The delete control is shown only while there is more than one period. */
  predicate DeleteShown(rs: seq<RestPeriod>) {
    |rs| > 1
  }

  /** What a user can do to the list; a delete is only possible where its control is shown. */
  datatype Edit = Add | Remove(i: int) | Update(i: int, field: RestField, value: string)

  function ApplyEdit(rs: seq<RestPeriod>, e: Edit): seq<RestPeriod> {
    match e
    case Add => AddRest(rs)
    case Remove(i) => if DeleteShown(rs) && 0 <= i < |rs| then RemoveRest(rs, i) else rs
    case Update(i, f, v) => UpdateRest(rs, i, f, v)
  }

  function ApplyEdits(rs: seq<RestPeriod>, edits: seq<Edit>): seq<RestPeriod>
    decreases |edits|
  {
    if edits == [] then rs else ApplyEdits(ApplyEdit(rs, edits[0]), edits[1..])
  }

  /** From a non-empty list, such as `InitialRests`, no sequence of edits leaves the form without a period. */
  lemma {:induction false} NeverEmpty(rs: seq<RestPeriod>, edits: seq<Edit>)
    requires |rs| >= 1
    ensures |ApplyEdits(rs, edits)| >= 1
    decreases |edits|
  {
    if edits != [] {
      var next := ApplyEdit(rs, edits[0]);
      if edits[0].Remove? && DeleteShown(rs) && 0 <= edits[0].i < |rs| {
        RemoveRestDropsOne(rs, edits[0].i);
      }
      NeverEmpty(next, edits[1..]);
    }
  }
  /** The form's text fields, as the inputs hold them. */
  datatype FormFields = FormFields(endLocation: string, actualDestinations: string, distanceKm: string,
                                   alcoholCheckResult: string, alcoholCheckerName: string,
                                   roadConditionNote: string, cargoDeliveredCount: string)

  /** The fields the form opens with: the head office as end location, a negative check by the default checker, the rest empty. */
  const InitialFields: FormFields := FormFields("市川市南八幡 本社", "", "", "negative", "田中 一郎", "", "")

  /** The report the form hands to the store or the edge function. */
  datatype Payload = Payload(organizationId: string, driverId: string, vehicleId: string, reportDate: string,
                             clockOutAt: string, endLocation: string, actualDestinations: string, distanceKm: real,
                             restPeriods: seq<RestPeriod>, alcoholCheckResult: string, alcoholCheckValue: int,
                             alcoholCheckerName: string, roadConditionNote: Option<string>,
                             cargoDeliveredCount: Option<int>, submittedVia: string)

  /**
   * `parseFloat(text) || 0`: the empty field parses to NaN, which becomes 0;
   * other text is read by `parseFloat`, and a reading of 0 stays 0.
   */
  function DistanceKm(text: string, parseFloat: string -> real): (r: real)
    ensures text == "" ==> r == 0.0
    ensures text != "" ==> r == parseFloat(text)
  {
    if text == "" then 0.0 else parseFloat(text)
  }

  /** `text ? parseInt(text) : null`: null exactly for the empty field, otherwise the parsed count. */
  function CargoCount(text: string, parseInt: string -> int): (r: Option<int>)
    ensures r.None? <==> text == ""
    ensures text != "" ==> r == Some(parseInt(text))
  {
    if text == "" then None else Some(parseInt(text))
  }

  /**
   * `handleSubmit`'s payload: the driver's and vehicle's ids, today's date and
   * the clock-out time, the text fields copied, the distance and cargo count
   * parsed, only the complete rest periods, a check value of 0, the road note
   * null when empty, and `liff` as the channel.
   */
  function SubmitPayload(organizationId: string, driverId: string, vehicleId: string, today: string, clockOutAt: string,
                         form: FormFields, rests: seq<RestPeriod>,
                         parseFloat: string -> real, parseInt: string -> int): (p: Payload)
    ensures p.organizationId == organizationId && p.driverId == driverId && p.vehicleId == vehicleId
    ensures p.reportDate == today && p.clockOutAt == clockOutAt
    ensures p.endLocation == form.endLocation && p.actualDestinations == form.actualDestinations
    ensures p.alcoholCheckResult == form.alcoholCheckResult && p.alcoholCheckerName == form.alcoholCheckerName
    ensures p.alcoholCheckValue == 0 && p.submittedVia == "liff"
    ensures form.distanceKm == "" ==> p.distanceKm == 0.0
    ensures forall q :: q in p.restPeriods <==> q in rests && q.start != "" && q.end != ""
    ensures p.roadConditionNote.None? <==> form.roadConditionNote == ""
    ensures p.roadConditionNote.Some? ==> p.roadConditionNote.value == form.roadConditionNote
    ensures p.cargoDeliveredCount.None? <==> form.cargoDeliveredCount == ""
    ensures form.cargoDeliveredCount != "" ==> p.cargoDeliveredCount == Some(parseInt(form.cargoDeliveredCount))
  {
    Payload(organizationId, driverId, vehicleId, today, clockOutAt, form.endLocation, form.actualDestinations,
            DistanceKm(form.distanceKm, parseFloat), SubmittedRests(rests), form.alcoholCheckResult, 0,
            form.alcoholCheckerName, OrNull(form.roadConditionNote),
            CargoCount(form.cargoDeliveredCount, parseInt), "liff")
  }

  /**
   * Submitting the form as it opens sends the lunch break, a distance of 0,
   * no road note and no cargo count, whatever the parsers would read.
   */
  lemma UntouchedFormPayload(organizationId: string, driverId: string, vehicleId: string, today: string, clockOutAt: string,
                             parseFloat: string -> real, parseInt: string -> int)
    ensures var p := SubmitPayload(organizationId, driverId, vehicleId, today, clockOutAt, InitialFields, InitialRests,
                                   parseFloat, parseInt);
      p.restPeriods == InitialRests && p.distanceKm == 0.0
      && p.roadConditionNote.None? && p.cargoDeliveredCount.None?
      && p.endLocation == "市川市南八幡 本社" && p.alcoholCheckResult == "negative"
  {
    var keep := (q: RestPeriod) => q.start != "" && q.end != "";
    assert Filter(InitialRests, keep) == [InitialRests[0]] + Filter([], keep);
  }
}
