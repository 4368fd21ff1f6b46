/**
 * The daily-inspection form (LIFF): thirteen check items in four categories,
 * each unset, OK (true) or NG (false); the "all OK" button; the conditions
 * under which the form may be submitted; and the payload it sends.
 */
module InspectionForm {
  import opened Common

  /** The checklist by category, in display order. */
  const Categories: seq<(string, seq<string>)> := [
    ("エンジンルーム", ["engineOil", "coolantLevel", "battery"]),
    ("ライト類", ["headlights", "turnSignals", "brakeLights"]),
    ("タイヤ", ["tirePressure", "tireTread", "tireDamage"]),
    ("運転席周り", ["mirrors", "seatbelt", "brakes", "steering"])]

  /** `inspectionItems.flatMap(c => c.items.map(i => i.key))`. */
  function Flatten(cats: seq<(string, seq<string>)>): seq<string> {
    if cats == [] then [] else cats[0].1 + Flatten(cats[1..])
  }

  const AllKeys: seq<string> := Flatten(Categories)

  /** There are exactly thirteen keys over the four categories, and no key is listed twice. */
  lemma ThirteenKeys()
    ensures |Categories| == 4 && |AllKeys| == 13
    ensures forall i, j :: 0 <= i < j < |AllKeys| ==> AllKeys[i] != AllKeys[j]
  {
    assert AllKeys == ["engineOil", "coolantLevel", "battery", "headlights", "turnSignals", "brakeLights",
      "tirePressure", "tireTread", "tireDamage", "mirrors", "seatbelt", "brakes", "steering"];
  }

  /** The form's answers: a key that was never touched is absent (`undefined`). */
  type Checks = map<string, bool>

  /** `toggle`: `!prev[key]`, so unset becomes true, true becomes false and false becomes true; other keys stay. */
  function Toggle(checks: Checks, key: string): (r: Checks)
    ensures key in r && r.Keys == checks.Keys + {key}
    ensures key !in checks ==> r[key]
    ensures key in checks ==> r[key] == !checks[key]
    ensures forall k :: k in checks && k != key ==> r[k] == checks[k]
  {
    checks[key := !(key in checks && checks[key])]
  }

  /** `checks[k] === true` for every key. */
  predicate AllChecked(checks: Checks) {
    forall k :: k in AllKeys ==> k in checks && checks[k]
  }

  /** `checks[k] === false` for some key. */
  predicate HasAnyFalse(checks: Checks) {
    exists k :: k in AllKeys && k in checks && !checks[k]
  }

  /** `setAllOk`: a fresh record with every key set to true. */
  method SetAllOk() returns (checks: Checks)
    ensures checks.Keys == set k | k in AllKeys
    ensures forall k :: k in checks ==> checks[k]
  {
    checks := map[];
    var i := 0;
    while i < |AllKeys|
      invariant 0 <= i <= |AllKeys|
      invariant checks.Keys == set k | k in AllKeys[..i]
      invariant forall k :: k in checks ==> checks[k]
    {
      assert AllKeys[..i + 1] == AllKeys[..i] + [AllKeys[i]];
      checks := checks[AllKeys[i] := true];
      i := i + 1;
    }
    assert AllKeys[..|AllKeys|] == AllKeys;
  }

  /** The submit button is disabled while submitting or while some key is unset. */
  predicate SubmitDisabled(submitting: bool, checks: Checks) {
    submitting || exists k :: k in AllKeys && k !in checks
  }

  /** While an item is unset the button is disabled, and every item set is needed to enable it. */
  lemma SubmitNeedsEveryItem(checks: Checks, key: string)
    requires key in AllKeys
    ensures key !in checks ==> SubmitDisabled(false, checks)
    ensures !SubmitDisabled(false, checks) ==> forall k :: k in AllKeys ==> k in checks
  {
  }

  /** After "all OK" every item passes, none fails, and the button is enabled. */
  lemma AllOkEnablesSubmit(checks: Checks)
    requires checks.Keys == (set k | k in AllKeys) && forall k :: k in checks ==> checks[k]
    ensures AllChecked(checks) && !HasAnyFalse(checks) && !SubmitDisabled(false, checks)
  {
    assert forall k :: k in AllKeys ==> k in checks;
  }

  datatype Payload = Payload(
    organizationId: string,
    driverId: string,
    vehicleId: string,
    inspectionDate: string,
    items: seq<bool>,
    allPassed: bool,
    abnormalityNote: Option<string>,
    submittedVia: string)

  /** `checks[k] ?? false` for each key, in checklist order. */
  function Items(checks: Checks): (r: seq<bool>)
    ensures |r| == |AllKeys|
    ensures forall i :: 0 <= i < |AllKeys| ==> r[i] == (AllKeys[i] in checks && checks[AllKeys[i]])
  {
    seq(|AllKeys|, i requires 0 <= i < |AllKeys| => AllKeys[i] in checks && checks[AllKeys[i]])
  }

  /**
   * `handleSubmit`: nothing is sent when some item failed and the note is
   * empty; otherwise the payload for the given organisation, driver and
   * vehicle, with unset items sent as false, `allPassed` from `allChecked`,
   * and an empty note sent as null.
   */
  function Submit(checks: Checks, note: string, organizationId: string, driverId: string, vehicleId: string, today: string): (r: Option<Payload>)
    ensures r.None? <==> HasAnyFalse(checks) && note == ""
    ensures r.Some? ==> r.value.organizationId == organizationId && r.value.driverId == driverId && r.value.vehicleId == vehicleId
    ensures r.Some? ==> r.value.items == Items(checks) && r.value.inspectionDate == today && r.value.submittedVia == "liff"
    ensures r.Some? ==> r.value.abnormalityNote == if note == "" then None else Some(note)
  {
    if HasAnyFalse(checks) && note == "" then None
    else Some(Payload(organizationId, driverId, vehicleId, today, Items(checks), AllChecked(checks),
                      if note == "" then None else Some(note), "liff"))
  }

  /** The payload passes the inspection exactly when it sends every item as true. */
  lemma AllPassedIffEveryItem(checks: Checks, note: string, o: string, d: string, v: string, today: string)
    requires Submit(checks, note, o, d, v, today).Some?
    ensures var p := Submit(checks, note, o, d, v, today).value;
      p.allPassed <==> forall i :: 0 <= i < |p.items| ==> p.items[i]
  {
    var p := Submit(checks, note, o, d, v, today).value;
    if forall i :: 0 <= i < |p.items| ==> p.items[i] {
      forall k | k in AllKeys ensures k in checks && checks[k] {
        var i :| 0 <= i < |AllKeys| && AllKeys[i] == k;
        assert p.items[i];
      }
    }
  }
}
