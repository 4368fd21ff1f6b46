/**
 * The check-submissions cron function: after a constant-time check of the
 * Authorization header against the cron secret or the service-role key, it
 * visits every organisation with a LINE channel token and, by the requested
 * check type, pushes a reminder to each active LINE-linked driver who has not
 * submitted today's pre-work or post-work report, or pushes one summary text
 * to every LINE-linked admin. `today` is the UTC+9 date; the database tables
 * are values, a failed read (`readOk`) yields no rows, `encode` is the
 * TextEncoder, and `deliver` says whether a push call returned without throwing.
 */
module CheckSubmissions {
  import opened Common
  import opened Tables
  import opened Bytes
  import opened Messaging

  /** What `timingSafeEqual` decides: equal lengths and no differing byte over `a`'s encoding. */
  predicate SafeEqual(a: string, b: string, encode: string -> seq<bv8>) {
    |a| == |b| && XorDiff(encode(a), encode(b), |encode(a)|) == 0
  }

  /** `timingSafeEqual(a, b)`: the length check, then an OR-of-XOR scan over every byte of `a`. */
  method TimingSafeEqual(a: string, b: string, encode: string -> seq<bv8>) returns (r: bool)
    ensures r == SafeEqual(a, b, encode)
  {
    if |a| != |b| {
      return false;
    }
    var bufA := encode(a);
    var bufB := encode(b);
    var diff: bv8 := 0;
    var i := 0;
    while i < |bufA|
      invariant 0 <= i <= |bufA|
      invariant diff == XorDiff(bufA, bufB, i)
    {
      diff := diff | (bufA[i] ^ At(bufB, i));
      i := i + 1;
    }
    r := diff == 0;
  }

  /** The comparison accepts exactly when every byte of `a` matches `b` at the same place. */
  lemma SafeEqualMeaning(a: string, b: string, encode: string -> seq<bv8>)
    ensures SafeEqual(a, b, encode) <==>
      |a| == |b| && forall i :: 0 <= i < |encode(a)| ==> encode(a)[i] == At(encode(b), i)
  {
    XorDiffZero(encode(a), encode(b), |encode(a)|);
  }

  /** For encodings of equal length by an encoder that tells the two strings apart, the comparison is equality. */
  lemma SafeEqualIsEquality(a: string, b: string, encode: string -> seq<bv8>)
    requires |encode(a)| == |encode(b)|
    requires encode(a) == encode(b) ==> a == b
    ensures SafeEqual(a, b, encode) <==> a == b
  {
    SameLengthDiff(encode(a), encode(b));
  }

  /** `isAuthorized`: the header matches "Bearer " and a configured (non-empty) cron secret or service-role key. */
  predicate Authorized(authHeader: Option<string>, cronSecret: Option<string>, serviceRoleKey: Option<string>,
                       encode: string -> seq<bv8>) {
    (Truthy(authHeader) && Truthy(cronSecret) && SafeEqual(authHeader.value, "Bearer " + cronSecret.value, encode))
    || (Truthy(authHeader) && Truthy(serviceRoleKey) && SafeEqual(authHeader.value, "Bearer " + serviceRoleKey.value, encode))
  }

  method Authorize(authHeader: Option<string>, cronSecret: Option<string>, serviceRoleKey: Option<string>,
                   encode: string -> seq<bv8>) returns (ok: bool)
    ensures ok == Authorized(authHeader, cronSecret, serviceRoleKey, encode)
  {
    ok := false;
    if Truthy(authHeader) && Truthy(cronSecret) {
      ok := TimingSafeEqual(authHeader.value, "Bearer " + cronSecret.value, encode);
    }
    if !ok && Truthy(authHeader) && Truthy(serviceRoleKey) {
      ok := TimingSafeEqual(authHeader.value, "Bearer " + serviceRoleKey.value, encode);
    }
  }

  /** The right header is accepted, and with neither secret configured nothing is. */
  lemma AuthorizationLaws(authHeader: Option<string>, cronSecret: Option<string>, serviceRoleKey: Option<string>,
                          encode: string -> seq<bv8>)
    ensures Truthy(cronSecret) && authHeader == Some("Bearer " + cronSecret.value) ==>
      Authorized(authHeader, cronSecret, serviceRoleKey, encode)
    ensures Truthy(serviceRoleKey) && authHeader == Some("Bearer " + serviceRoleKey.value) ==>
      Authorized(authHeader, cronSecret, serviceRoleKey, encode)
    ensures !Truthy(cronSecret) && !Truthy(serviceRoleKey) ==> !Authorized(authHeader, cronSecret, serviceRoleKey, encode)
    ensures !Truthy(authHeader) ==> !Authorized(authHeader, cronSecret, serviceRoleKey, encode)
  {
    if Truthy(cronSecret) && authHeader == Some("Bearer " + cronSecret.value) {
      SafeEqualMeaning(authHeader.value, authHeader.value, encode);
    }
    if Truthy(serviceRoleKey) && authHeader == Some("Bearer " + serviceRoleKey.value) {
      SafeEqualMeaning(authHeader.value, authHeader.value, encode);
    }
  }

  datatype Kind = PreWork | PostWork | AdminSummary | Unknown

  /**
   * `checkType`: `body.type ?? 'pre_work'`, where a body that does not parse, or is not an object
   * (None), leaves the default. Any other value of `type`, a non-string included, is kept.
   */
  function CheckType(body: Option<map<string, Value>>): (t: Value)
    ensures body.None? || "type" !in body.value || body.value["type"].VNull? ==> t == VStr("pre_work")
    ensures body.Some? && "type" in body.value && !body.value["type"].VNull? ==> t == body.value["type"]
  {
    if body.None? || "type" !in body.value || body.value["type"].VNull? then VStr("pre_work") else body.value["type"]
  }

  function KindOf(t: Value): Kind {
    if t == VStr("pre_work") then PreWork
    else if t == VStr("post_work") then PostWork
    else if t == VStr("admin_summary") then AdminSummary
    else Unknown
  }

  /** The toggle of `notification` that gates a kind; the unknown kind has none. */
  function ToggleKey(k: Kind): string
    requires k != Unknown
  {
    match k
    case PreWork => "preWorkAlert"
    case PostWork => "postWorkAlert"
    case AdminSummary => "adminSummary"
  }

  /**
   * An organisation is passed over when its access token is empty, or when it has notification
   * settings and the kind's toggle is missing or off. The unknown kind is never switched off.
   */
  predicate Skipped(org: Organization, k: Kind) {
    !Truthy(org.accessToken)
    || (org.settings.notification.Some? && k != Unknown
        && !(ToggleKey(k) in org.settings.notification.value && org.settings.notification.value[ToggleKey(k)].enabled))
  }

  /** The tables the function reads. */
  datatype Db = Db(drivers: seq<Driver>, preWork: seq<Report>, postWork: seq<Report>, inspections: seq<Report>,
                   admins: seq<Admin>)

  function IdsOf(roster: seq<Driver>): set<string> {
    set d | d in roster :: d.id
  }

  /** The submitter ids: the roster drivers with a row dated `today`. */
  function Submitted(reports: seq<Report>, today: string, roster: seq<Driver>): (r: set<string>)
    ensures r <= IdsOf(roster)
    ensures forall id :: id in r <==> id in IdsOf(roster) && exists x :: x in reports && x.date == today && x.driverId == id
  {
    set x | x in reports && x.date == today && x.driverId in IdsOf(roster) :: x.driverId
  }

  /** The reminder a missing driver receives. */
  function AlertText(k: Kind, name: string): string
    requires k == PreWork || k == PostWork
  {
    if k == PreWork then name + "さん、業務前報告が未提出です。\n\n安全確認のため、早めの提出をお願いします。"
    else name + "さん、業務後報告が未提出です。\n\n本日の業務後報告の提出をお願いします。"
  }

  const AllDoneLine: string := "\n\U{2705} 全員提出済みです。"
  const PendingLine: string := "\n\U{26A0}\U{FE0F} 未提出者がいます。確認をお願いします。"

  /** The part of the summary before its closing line. */
  function SummaryBody(orgName: string, today: string, preCount: nat, inspCount: nat, total: nat,
                       preMissing: seq<string>, inspMissing: seq<string>): string {
    "【" + orgName + "】本日の提出状況（" + today + "）\n\n"
    + "\U{1F4CB} 業務前報告: " + NatToString(preCount) + "/" + NatToString(total) + "名\n"
    + (if |preMissing| > 0 then "  未提出: " + Join(preMissing, "、") + "\n" else "")
    + "\n\U{1F527} 日常点検: " + NatToString(inspCount) + "/" + NatToString(total) + "名\n"
    + (if |inspMissing| > 0 then "  未提出: " + Join(inspMissing, "、") + "\n" else "")
  }

  /** The admin summary text. */
  function SummaryText(orgName: string, today: string, preCount: nat, inspCount: nat, total: nat,
                       preMissing: seq<string>, inspMissing: seq<string>): string {
    SummaryBody(orgName, today, preCount, inspCount, total, preMissing, inspMissing)
    + (if preMissing == [] && inspMissing == [] then AllDoneLine else PendingLine)
  }

  /** The summary closes with the all-submitted line exactly when both missing lists are empty. */
  lemma AllDoneIffNoneMissing(orgName: string, today: string, preCount: nat, inspCount: nat, total: nat,
                              preMissing: seq<string>, inspMissing: seq<string>)
    ensures var text := SummaryText(orgName, today, preCount, inspCount, total, preMissing, inspMissing);
      (EndsWith(text, AllDoneLine) <==> preMissing == [] && inspMissing == [])
      && (EndsWith(text, PendingLine) <==> !(preMissing == [] && inspMissing == []))
  {
    var body := SummaryBody(orgName, today, preCount, inspCount, total, preMissing, inspMissing);
    var text := SummaryText(orgName, today, preCount, inspCount, total, preMissing, inspMissing);
    if preMissing == [] && inspMissing == [] {
      assert text[|text| - |AllDoneLine|..] == AllDoneLine;
      assert text[|text| - 1] == AllDoneLine[|AllDoneLine| - 1];
      assert !EndsWith(text, PendingLine) by {
        if |PendingLine| <= |text| {
          assert text[|text| - 3] == AllDoneLine[|AllDoneLine| - 3] != PendingLine[|PendingLine| - 3];
        }
      }
    } else {
      assert text[|text| - |PendingLine|..] == PendingLine;
      assert !EndsWith(text, AllDoneLine) by {
        if |AllDoneLine| <= |text| {
          assert text[|text| - 3] == PendingLine[|PendingLine| - 3] != AllDoneLine[|AllDoneLine| - 3];
        }
      }
    }
  }

  /** The missing drivers as reminder recipients. */
  function Reminders(missing: seq<Driver>, k: Kind): (r: seq<Recipient>)
    requires forall d :: d in missing ==> d.lineUserId.Some?
    requires k == PreWork || k == PostWork
    ensures |r| == |missing|
    ensures forall i :: 0 <= i < |r| ==> r[i].lineUserId == missing[i].lineUserId.value
    ensures forall i :: 0 <= i < |r| ==> r[i].text == AlertText(k, missing[i].name)
  {
    seq(|missing|, i requires 0 <= i < |missing| =>
      assert missing[i] in missing;
      Recipient(missing[i].lineUserId.value, AlertText(k, missing[i].name)))
  }

  /** The LINE-linked admins of an organisation. */
  function LinkedAdmins(admins: seq<Admin>, orgId: string): seq<Admin> {
    Filter(admins, (a: Admin) => a.organizationId == orgId && a.lineUserId.Some?)
  }

  /** Every linked admin as a recipient of the same text. */
  function SummaryRecipients(admins: seq<Admin>, text: string): (r: seq<Recipient>)
    requires forall a :: a in admins ==> a.lineUserId.Some?
    ensures |r| == |admins|
    ensures forall i :: 0 <= i < |r| ==> r[i] == Recipient(admins[i].lineUserId.value, text)
  {
    seq(|admins|, i requires 0 <= i < |admins| => assert admins[i] in admins; Recipient(admins[i].lineUserId.value, text))
  }

  /** The admin summary of one organisation's roster (the counts are distinct submitters). */
  function OrgSummary(org: Organization, today: string, roster: seq<Driver>, pre: set<string>, insp: set<string>): string {
    SummaryText(org.name, today, |pre|, |insp|, |roster|, Names(NotIn(roster, pre)), Names(NotIn(roster, insp)))
  }

  /** The recipients the inner loop of one organisation visits. */
  function OrgRecipients(org: Organization, k: Kind, today: string, db: Db, readOk: (string, string) -> bool)
    : seq<Recipient>
  {
    if Skipped(org, k) then []
    else
      var roster := if readOk("drivers", org.id) then Roster(db.drivers, org.id) else [];
      if roster == [] then []
      else
        match k
        case PreWork =>
          var submitted := if readOk("pre_work_reports", org.id) then Submitted(db.preWork, today, roster) else {};
          Reminders(NotIn(roster, submitted), PreWork)
        case PostWork =>
          var submitted := if readOk("post_work_reports", org.id) then Submitted(db.postWork, today, roster) else {};
          Reminders(NotIn(roster, submitted), PostWork)
        case AdminSummary =>
          var pre := PreSubmitted(org, today, db, readOk);
          var insp := InspSubmitted(org, today, db, readOk);
          var admins := if readOk("admin_users", org.id) then LinkedAdmins(db.admins, org.id) else [];
          SummaryRecipients(admins, OrgSummary(org, today, roster, pre, insp))
        case Unknown => []
  }

  /** The pushes attempted for the first `n` organisations. */
  function Attempted(orgs: seq<Organization>, n: nat, k: Kind, today: string, db: Db, readOk: (string, string) -> bool)
    : seq<Push>
    requires n <= |orgs|
  {
    if n == 0 then []
    else
      Attempted(orgs, n - 1, k, today, db, readOk) + OrgPushes(orgs[n - 1], k, today, db, readOk)
  }

  /** The pushes attempted for one organisation. */
  function OrgPushes(org: Organization, k: Kind, today: string, db: Db, readOk: (string, string) -> bool): seq<Push> {
    if Skipped(org, k) then [] else Pushes(org.accessToken.value, OrgRecipients(org, k, today, db, readOk))
  }

  lemma AttemptedStep(orgs: seq<Organization>, i: nat, k: Kind, today: string, db: Db, readOk: (string, string) -> bool)
    requires i < |orgs|
    ensures Attempted(orgs, i + 1, k, today, db, readOk)
            == Attempted(orgs, i, k, today, db, readOk) + OrgPushes(orgs[i], k, today, db, readOk)
  {
  }

  datatype CheckResponse = Unauthorized | NoOrganizations | Done(checkType: Value, alerts: nat)

  /** The serve handler: the response and the pushes attempted, in order. */
  method Handle(authHeader: Option<string>, cronSecret: Option<string>, serviceRoleKey: Option<string>,
                encode: string -> seq<bv8>, body: Option<map<string, Value>>, today: string,
                organizations: Option<seq<Organization>>, db: Db, readOk: (string, string) -> bool,
                deliver: Push -> bool)
    returns (res: CheckResponse, sent: seq<Push>)
    ensures !Authorized(authHeader, cronSecret, serviceRoleKey, encode) ==> res == Unauthorized && sent == []
    ensures Authorized(authHeader, cronSecret, serviceRoleKey, encode) ==>
      var orgs := if organizations.Some? then Filter(organizations.value, (o: Organization) => o.accessToken.Some?) else [];
      if orgs == [] then res == NoOrganizations && sent == []
      else
        sent == Attempted(orgs, |orgs|, KindOf(CheckType(body)), today, db, readOk)
        && res == Done(CheckType(body), Delivered(sent, deliver))
  {
    var ok := Authorize(authHeader, cronSecret, serviceRoleKey, encode);
    if !ok {
      return Unauthorized, [];
    }
    var checkType := CheckType(body);
    var k := KindOf(checkType);
    var orgs := if organizations.Some? then Filter(organizations.value, (o: Organization) => o.accessToken.Some?) else [];
    if orgs == [] {
      return NoOrganizations, [];
    }
    var totalAlerts;
    sent, totalAlerts := AlertOrgs(orgs, k, today, db, readOk, deliver);
    res := Done(checkType, totalAlerts);
  }

  /** The loop over the organisations, counting the delivered pushes in `totalAlerts`. */
  method AlertOrgs(orgs: seq<Organization>, k: Kind, today: string, db: Db, readOk: (string, string) -> bool,
                   deliver: Push -> bool)
    returns (sent: seq<Push>, totalAlerts: nat)
    ensures sent == Attempted(orgs, |orgs|, k, today, db, readOk)
    ensures totalAlerts == Delivered(sent, deliver)
  {
    totalAlerts := 0;
    sent := [];
    var i := 0;
    while i < |orgs|
      invariant 0 <= i <= |orgs|
      invariant sent == Attempted(orgs, i, k, today, db, readOk)
      invariant totalAlerts == Delivered(sent, deliver)
    {
      var more, n := AlertOrg(orgs[i], k, today, db, readOk, deliver);
      AttemptedStep(orgs, i, k, today, db, readOk);
      DeliveredAppend(sent, more, deliver);
      var next := sent + more;
      assert Delivered(next, deliver) == totalAlerts + n;
      sent := next;
      totalAlerts := totalAlerts + n;
      i := i + 1;
    }
  }

  /** One organisation: passed over, or its recipients visited. */
  method AlertOrg(org: Organization, k: Kind, today: string, db: Db, readOk: (string, string) -> bool,
                  deliver: Push -> bool)
    returns (sent: seq<Push>, n: nat)
    ensures sent == OrgPushes(org, k, today, db, readOk)
    ensures n == Delivered(sent, deliver)
  {
    if Skipped(org, k) {
      return [], 0;
    }
    sent, n := SendAll(org.accessToken.value, OrgRecipients(org, k, today, db, readOk), deliver);
  }

  /** The report table a reminder kind checks. */
  function ReportsOf(k: Kind, db: Db): seq<Report>
    requires k == PreWork || k == PostWork
  {
    if k == PreWork then db.preWork else db.postWork
  }

  function ReportsTable(k: Kind): string
    requires k == PreWork || k == PostWork
  {
    if k == PreWork then "pre_work_reports" else "post_work_reports"
  }

  /** `p` is the reminder for `d`, an active driver of `org` with no report dated `today`. */
  predicate MissingReminder(d: Driver, p: Push, org: Organization, k: Kind, today: string, db: Db)
    requires k == PreWork || k == PostWork
  {
    d in db.drivers && d.organizationId == org.id && d.status == Active && d.lineUserId == Some(p.to)
    && p.text == AlertText(k, d.name) && forall x :: x in ReportsOf(k, db) && x.date == today ==> x.driverId != d.id
  }

  /** The roster drivers with no report of the kind dated `today`. */
  function MissingOf(org: Organization, k: Kind, today: string, db: Db): seq<Driver>
    requires k == PreWork || k == PostWork
  {
    var roster := Roster(db.drivers, org.id);
    NotIn(roster, Submitted(ReportsOf(k, db), today, roster))
  }

  /** The missing set is the active LINE-linked drivers of the organisation with no such report. */
  lemma MissingOfMeaning(org: Organization, k: Kind, today: string, db: Db)
    requires k == PreWork || k == PostWork
    ensures forall d :: d in MissingOf(org, k, today, db) <==>
      d in db.drivers && d.organizationId == org.id && d.status == Active && d.lineUserId.Some?
      && forall x :: x in ReportsOf(k, db) && x.date == today ==> x.driverId != d.id
  {
    var roster := Roster(db.drivers, org.id);
    forall d | d in roster ensures d.id in IdsOf(roster) {
    }
  }

  /** With the reads succeeding, a reminder run visits the missing drivers as recipients. */
  lemma ReminderPushes(org: Organization, k: Kind, today: string, db: Db, readOk: (string, string) -> bool)
    requires k == PreWork || k == PostWork
    requires !Skipped(org, k) && readOk("drivers", org.id) && readOk(ReportsTable(k), org.id)
    ensures OrgPushes(org, k, today, db, readOk) == Pushes(org.accessToken.value, Reminders(MissingOf(org, k, today, db), k))
  {
    if Roster(db.drivers, org.id) == [] {
      assert MissingOf(org, k, today, db) == [];
    }
  }

  /** The reminders to a list of drivers: one per driver with a non-empty LINE id, with that driver's text. */
  lemma ReminderTargets(token: string, missing: seq<Driver>, k: Kind)
    requires forall d :: d in missing ==> d.lineUserId.Some?
    requires k == PreWork || k == PostWork
    ensures forall p :: p in Pushes(token, Reminders(missing, k)) <==>
      p.token == token && p.to != "" && exists d :: d in missing && d.lineUserId == Some(p.to) && p.text == AlertText(k, d.name)
  {
    var rs := Reminders(missing, k);
    PushesMembers(token, rs);
    forall p | p in Pushes(token, rs)
      ensures exists d :: d in missing && d.lineUserId == Some(p.to) && p.text == AlertText(k, d.name)
    {
      var i :| 0 <= i < |rs| && rs[i] == Recipient(p.to, p.text);
      assert missing[i] in missing;
    }
    forall p: Push | p.token == token && p.to != "" && exists d :: d in missing && d.lineUserId == Some(p.to) && p.text == AlertText(k, d.name)
      ensures Recipient(p.to, p.text) in rs
    {
      var d :| d in missing && d.lineUserId == Some(p.to) && p.text == AlertText(k, d.name);
      var i :| 0 <= i < |missing| && missing[i] == d;
      assert rs[i] == Recipient(p.to, p.text);
    }
  }

  /**
   * A reminder run pushes, for an organisation it does not pass over, exactly one reminder to each
   * active driver of the organisation with a non-empty LINE id and no report dated today, and nothing else.
   */
  lemma RemindersGoToMissingDrivers(org: Organization, k: Kind, today: string, db: Db, readOk: (string, string) -> bool)
    requires k == PreWork || k == PostWork
    requires !Skipped(org, k) && readOk("drivers", org.id) && readOk(ReportsTable(k), org.id)
    ensures forall p :: p in OrgPushes(org, k, today, db, readOk) <==>
      p.token == org.accessToken.value && p.to != "" && exists d :: MissingReminder(d, p, org, k, today, db)
  {
    var missing := MissingOf(org, k, today, db);
    ReminderPushes(org, k, today, db, readOk);
    MissingOfMeaning(org, k, today, db);
    ReminderTargets(org.accessToken.value, missing, k);
    forall p: Push ensures (exists d :: MissingReminder(d, p, org, k, today, db))
                           <==> exists d :: d in missing && d.lineUserId == Some(p.to) && p.text == AlertText(k, d.name)
    {
      if exists d :: d in missing && d.lineUserId == Some(p.to) && p.text == AlertText(k, d.name) {
        var d :| d in missing && d.lineUserId == Some(p.to) && p.text == AlertText(k, d.name);
        assert MissingReminder(d, p, org, k, today, db);
      }
    }
  }

  /** An unknown check type sends nothing, to any organisation. */
  lemma {:induction false} UnknownTypeSendsNothing(orgs: seq<Organization>, n: nat, today: string, db: Db,
                                                   readOk: (string, string) -> bool)
    requires n <= |orgs|
    ensures Attempted(orgs, n, Unknown, today, db, readOk) == []
  {
    if n > 0 {
      UnknownTypeSendsNothing(orgs, n - 1, today, db, readOk);
      UnknownOrgSendsNothing(orgs[n - 1], today, db, readOk);
    }
  }

  lemma UnknownOrgSendsNothing(org: Organization, today: string, db: Db, readOk: (string, string) -> bool)
    ensures OrgPushes(org, Unknown, today, db, readOk) == []
  {
    assert OrgRecipients(org, Unknown, today, db, readOk) == [];
  }

  /** The summary recipients: every linked admin with a non-empty LINE id, all with the same text. */
  lemma SummaryTargets(token: string, admins: seq<Admin>, text: string)
    requires forall a :: a in admins ==> a.lineUserId.Some?
    ensures forall p :: p in Pushes(token, SummaryRecipients(admins, text)) <==>
      p.token == token && p.to != "" && p.text == text && exists a :: a in admins && a.lineUserId == Some(p.to)
  {
    var rs := SummaryRecipients(admins, text);
    PushesMembers(token, rs);
    forall p | p in Pushes(token, rs) ensures p.text == text && exists a :: a in admins && a.lineUserId == Some(p.to) {
      var i :| 0 <= i < |rs| && rs[i] == Recipient(p.to, p.text);
      assert admins[i] in admins;
    }
    forall p: Push | p.token == token && p.to != "" && p.text == text && exists a :: a in admins && a.lineUserId == Some(p.to)
      ensures Recipient(p.to, p.text) in rs
    {
      var a :| a in admins && a.lineUserId == Some(p.to);
      var i :| 0 <= i < |admins| && admins[i] == a;
      assert rs[i] == Recipient(p.to, p.text);
    }
  }

  /** The submitter sets the summary's counts and missing lists are built from. */
  function PreSubmitted(org: Organization, today: string, db: Db, readOk: (string, string) -> bool): set<string> {
    if readOk("pre_work_reports", org.id) then Submitted(db.preWork, today, Roster(db.drivers, org.id)) else {}
  }

  function InspSubmitted(org: Organization, today: string, db: Db, readOk: (string, string) -> bool): set<string> {
    if readOk("daily_inspections", org.id) then Submitted(db.inspections, today, Roster(db.drivers, org.id)) else {}
  }

  lemma SummaryPushes(org: Organization, today: string, db: Db, readOk: (string, string) -> bool)
    requires !Skipped(org, AdminSummary) && readOk("drivers", org.id) && readOk("admin_users", org.id)
    requires Roster(db.drivers, org.id) != []
    ensures OrgPushes(org, AdminSummary, today, db, readOk)
      == Pushes(org.accessToken.value, SummaryRecipients(LinkedAdmins(db.admins, org.id),
           OrgSummary(org, today, Roster(db.drivers, org.id), PreSubmitted(org, today, db, readOk), InspSubmitted(org, today, db, readOk))))
  {
    var roster := Roster(db.drivers, org.id);
    var text := OrgSummary(org, today, roster, PreSubmitted(org, today, db, readOk), InspSubmitted(org, today, db, readOk));
    assert OrgRecipients(org, AdminSummary, today, db, readOk) == SummaryRecipients(LinkedAdmins(db.admins, org.id), text);
  }

  /**
   * The admin summary goes, with one text for the whole organisation, to every admin of it with a
   * non-empty LINE id, and to no one when it has no LINE-linked admin.
   */
  lemma SummaryGoesToLinkedAdmins(org: Organization, today: string, db: Db, readOk: (string, string) -> bool)
    requires !Skipped(org, AdminSummary) && readOk("drivers", org.id) && readOk("admin_users", org.id)
    requires Roster(db.drivers, org.id) != []
    ensures var text := OrgSummary(org, today, Roster(db.drivers, org.id), PreSubmitted(org, today, db, readOk),
                                   InspSubmitted(org, today, db, readOk));
      forall p :: p in OrgPushes(org, AdminSummary, today, db, readOk) <==>
        p.token == org.accessToken.value && p.to != "" && p.text == text
        && exists a :: a in db.admins && a.organizationId == org.id && a.lineUserId == Some(p.to)
  {
    var text := OrgSummary(org, today, Roster(db.drivers, org.id), PreSubmitted(org, today, db, readOk),
                           InspSubmitted(org, today, db, readOk));
    var admins := LinkedAdmins(db.admins, org.id);
    SummaryPushes(org, today, db, readOk);
    SummaryTargets(org.accessToken.value, admins, text);
  }

  lemma {:induction false} UniqueTail(roster: seq<Driver>)
    requires roster != [] && UniqueDriverIds(roster)
    ensures UniqueDriverIds(roster[1..])
    ensures forall x :: x in roster[1..] ==> x.id != roster[0].id
  {
    var rest := roster[1..];
    forall i, j | 0 <= i < j < |rest| ensures rest[i].id != rest[j].id {
      assert rest[i] == roster[i + 1] && rest[j] == roster[j + 1];
    }
    forall x | x in rest ensures x.id != roster[0].id {
      var j :| 0 <= j < |rest| && rest[j] == x;
      assert roster[j + 1] == x;
    }
  }

  lemma IdsOfCons(roster: seq<Driver>)
    requires roster != []
    ensures IdsOf(roster) == {roster[0].id} + IdsOf(roster[1..])
  {
    forall x | x in roster ensures x == roster[0] || x in roster[1..] {
      var j :| 0 <= j < |roster| && roster[j] == x;
      if j > 0 {
        assert roster[1..][j - 1] == x;
      }
    }
  }

  /**
   * The summary's counts are distinct drivers: with unique driver ids, the submitted count and the
   * number of names on the missing list add up to the roster size.
   */
  lemma {:induction false} CountsAddUp(roster: seq<Driver>, s: set<string>)
    requires UniqueDriverIds(roster)
    requires s <= IdsOf(roster)
    ensures |s| + |NotIn(roster, s)| == |roster|
  {
    if roster == [] {
      assert s == {};
    } else {
      var d := roster[0];
      var rest := roster[1..];
      UniqueTail(roster);
      IdsOfCons(roster);
      assert d.id !in IdsOf(rest);
      if d.id in s {
        var s' := s - {d.id};
        CountsAddUp(rest, s');
        FilterCongruent(rest, (x: Driver) => x.id !in s, (x: Driver) => x.id !in s');
        assert NotIn(roster, s) == NotIn(rest, s);
      } else {
        CountsAddUp(rest, s);
        assert NotIn(roster, s) == [d] + NotIn(rest, s);
      }
    }
  }

  /** Hence preCount plus the pre-work missing names make the roster total, and likewise for inspections. */
  lemma SummaryCountsAddUp(org: Organization, today: string, db: Db, readOk: (string, string) -> bool)
    requires UniqueDriverIds(db.drivers)
    ensures var roster := Roster(db.drivers, org.id);
      var pre := PreSubmitted(org, today, db, readOk);
      var insp := InspSubmitted(org, today, db, readOk);
      |pre| + |NotIn(roster, pre)| == |roster| && |insp| + |NotIn(roster, insp)| == |roster|
  {
    var roster := Roster(db.drivers, org.id);
    assert UniqueDriverIds(roster) by {
      FilterUniqueIds(db.drivers, (d: Driver) => d.organizationId == org.id && d.status == Active && d.lineUserId.Some?);
    }
    var pre := PreSubmitted(org, today, db, readOk);
    var insp := InspSubmitted(org, today, db, readOk);
    CountsAddUp(roster, pre);
    CountsAddUp(roster, insp);
  }

  /** A filter keeps ids unique. */
  lemma {:induction false} FilterUniqueIds(drivers: seq<Driver>, p: Driver -> bool)
    requires UniqueDriverIds(drivers)
    ensures UniqueDriverIds(Filter(drivers, p))
  {
    if drivers != [] {
      var rest := drivers[1..];
      UniqueTail(drivers);
      FilterUniqueIds(rest, p);
      if p(drivers[0]) {
        ConsUniqueIds(drivers[0], Filter(rest, p));
      }
    }
  }

  lemma ConsUniqueIds(d: Driver, f: seq<Driver>)
    requires UniqueDriverIds(f) && forall x :: x in f ==> x.id != d.id
    ensures UniqueDriverIds([d] + f)
  {
    var g := [d] + f;
    forall i, j | 0 <= i < j < |g| ensures g[i].id != g[j].id {
      if i == 0 {
        assert g[j] in f;
      } else {
        assert g[i] == f[i - 1] && g[j] == f[j - 1];
      }
    }
  }
}
