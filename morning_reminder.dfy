/**
 * The morning-reminder cron function: with the exact service-role bearer
 * header, it pushes the morning greeting to every active LINE-linked driver
 * of every organisation with a LINE channel token, and reports how many
 * pushes returned without throwing. The tables are values; `readOk` says
 * whether the drivers read of an organisation succeeded.
 */
module MorningReminder {
  import opened Common
  import opened Tables
  import opened Messaging

  /** The header check: present, a configured key, and exactly "Bearer " + key (a plain comparison). */
  predicate Authorized(authHeader: Option<string>, serviceRoleKey: Option<string>) {
    Truthy(authHeader) && Truthy(serviceRoleKey) && authHeader.value == "Bearer " + serviceRoleKey.value
  }

  function MorningText(name: string): string {
    "おはようございます、" + name + "さん。\n\n本日も安全運転でお願いします。\n業務前報告の提出をお願いします。"
  }

  /** The roster as recipients of the greeting. */
  function Greetings(roster: seq<Driver>): (r: seq<Recipient>)
    requires forall d :: d in roster ==> d.lineUserId.Some?
    ensures |r| == |roster|
    ensures forall i :: 0 <= i < |r| ==> r[i] == Recipient(roster[i].lineUserId.value, MorningText(roster[i].name))
  {
    seq(|roster|, i requires 0 <= i < |roster| =>
      assert roster[i] in roster;
      Recipient(roster[i].lineUserId.value, MorningText(roster[i].name)))
  }

  /** The pushes attempted for one organisation: none without a token or a roster. */
  function OrgPushes(org: Organization, drivers: seq<Driver>, readOk: string -> bool): seq<Push> {
    if !Truthy(org.accessToken) then []
    else
      var roster := if readOk(org.id) then Roster(drivers, org.id) else [];
      Pushes(org.accessToken.value, Greetings(roster))
  }

  /** The pushes attempted for the first `n` organisations. */
  function Attempted(orgs: seq<Organization>, n: nat, drivers: seq<Driver>, readOk: string -> bool): seq<Push>
    requires n <= |orgs|
  {
    if n == 0 then [] else Attempted(orgs, n - 1, drivers, readOk) + OrgPushes(orgs[n - 1], drivers, readOk)
  }

  lemma AttemptedStep(orgs: seq<Organization>, i: nat, drivers: seq<Driver>, readOk: string -> bool)
    requires i < |orgs|
    ensures Attempted(orgs, i + 1, drivers, readOk) == Attempted(orgs, i, drivers, readOk) + OrgPushes(orgs[i], drivers, readOk)
  {
  }

  datatype ReminderResponse = Unauthorized | NoOrganizations | Sent(sent: nat)

  /** The serve handler: the response and the pushes attempted, in order. */
  method Handle(authHeader: Option<string>, serviceRoleKey: Option<string>, organizations: Option<seq<Organization>>,
                drivers: seq<Driver>, readOk: string -> bool, deliver: Push -> bool)
    returns (res: ReminderResponse, sent: seq<Push>)
    ensures !Authorized(authHeader, serviceRoleKey) ==> res == Unauthorized && sent == []
    ensures Authorized(authHeader, serviceRoleKey) ==>
      var orgs := if organizations.Some? then Filter(organizations.value, (o: Organization) => o.accessToken.Some?) else [];
      if orgs == [] then res == NoOrganizations && sent == []
      else sent == Attempted(orgs, |orgs|, drivers, readOk) && res == Sent(Delivered(sent, deliver))
  {
    if !Authorized(authHeader, serviceRoleKey) {
      return Unauthorized, [];
    }
    var orgs := if organizations.Some? then Filter(organizations.value, (o: Organization) => o.accessToken.Some?) else [];
    if orgs == [] {
      return NoOrganizations, [];
    }
    var totalSent;
    sent, totalSent := GreetOrgs(orgs, drivers, readOk, deliver);
    res := Sent(totalSent);
  }

  /** The loop over the organisations, counting the pushes that returned. */
  method GreetOrgs(orgs: seq<Organization>, drivers: seq<Driver>, readOk: string -> bool, deliver: Push -> bool)
    returns (sent: seq<Push>, totalSent: nat)
    ensures sent == Attempted(orgs, |orgs|, drivers, readOk)
    ensures totalSent == Delivered(sent, deliver)
  {
    totalSent := 0;
    sent := [];
    var i := 0;
    while i < |orgs|
      invariant 0 <= i <= |orgs|
      invariant sent == Attempted(orgs, i, drivers, readOk)
      invariant totalSent == Delivered(sent, deliver)
    {
      var more, n := GreetOrg(orgs[i], drivers, readOk, deliver);
      AttemptedStep(orgs, i, drivers, readOk);
      DeliveredAppend(sent, more, deliver);
      var next := sent + more;
      assert Delivered(next, deliver) == totalSent + n;
      sent := next;
      totalSent := totalSent + n;
      i := i + 1;
    }
  }

  /** One organisation: passed over without a token, else its roster greeted (none when the read fails). */
  method GreetOrg(org: Organization, drivers: seq<Driver>, readOk: string -> bool, deliver: Push -> bool)
    returns (sent: seq<Push>, n: nat)
    ensures sent == OrgPushes(org, drivers, readOk)
    ensures n == Delivered(sent, deliver)
  {
    if !Truthy(org.accessToken) {
      return [], 0;
    }
    var roster := if readOk(org.id) then Roster(drivers, org.id) else [];
    sent, n := SendAll(org.accessToken.value, Greetings(roster), deliver);
  }

  /**
   * Every active driver of an organisation with a token, a successful read and a non-empty LINE id is
   * greeted by name, and no one else is.
   */
  lemma GreetsEveryLinkedDriver(org: Organization, drivers: seq<Driver>, readOk: string -> bool)
    requires Truthy(org.accessToken) && readOk(org.id)
    ensures forall p :: p in OrgPushes(org, drivers, readOk) <==>
      p.token == org.accessToken.value && p.to != ""
      && exists d :: d in drivers && d.organizationId == org.id && d.status == Active && d.lineUserId == Some(p.to)
                     && p.text == MorningText(d.name)
  {
    var roster := Roster(drivers, org.id);
    var rs := Greetings(roster);
    PushesMembers(org.accessToken.value, rs);
    forall p | p in Pushes(org.accessToken.value, rs)
      ensures exists d :: d in roster && d.lineUserId == Some(p.to) && p.text == MorningText(d.name)
    {
      var i :| 0 <= i < |rs| && rs[i] == Recipient(p.to, p.text);
      assert roster[i] in roster;
    }
    forall p: Push | p.token == org.accessToken.value && p.to != ""
                     && exists d :: d in roster && d.lineUserId == Some(p.to) && p.text == MorningText(d.name)
      ensures Recipient(p.to, p.text) in rs
    {
      var d :| d in roster && d.lineUserId == Some(p.to) && p.text == MorningText(d.name);
      var i :| 0 <= i < |roster| && roster[i] == d;
      assert rs[i] == Recipient(p.to, p.text);
    }
  }

  /** The reminder consults no notification setting: organisations differing only in settings get the same pushes. */
  lemma {:induction false} SettingsIgnored(orgs: seq<Organization>, others: seq<Organization>, n: nat,
                                           drivers: seq<Driver>, readOk: string -> bool)
    requires n <= |orgs| == |others|
    requires forall i :: 0 <= i < |orgs| ==> others[i] == orgs[i].(settings := others[i].settings)
    ensures Attempted(orgs, n, drivers, readOk) == Attempted(others, n, drivers, readOk)
  {
    if n > 0 {
      SettingsIgnored(orgs, others, n - 1, drivers, readOk);
      assert others[n - 1] == orgs[n - 1].(settings := others[n - 1].settings);
    }
  }
}
