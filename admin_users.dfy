/**
 * The staff (admin user) service of the management console, against the
 * `admin_users` table: removal refuses to delete an organisation's last
 * org_admin, a LINE link token is issued by writing a fresh UUID to the row,
 * and unlinking clears both LINE columns. Every write is scoped to the
 * caller's organisation. A database error is the oracle `Option<string>`
 * (None for success, else the error message that `handleSupabaseError` throws);
 * `crypto.randomUUID()` is the parameter `token`.
 */
module AdminUsers {
  import opened Common
  import opened Tables
  import opened LineWebhook
  import opened Records
  import Supabase

  const LastAdminMessage: string := "管理者が1名のみのため削除できません。先に別の管理者を追加してください。"
  const LoginRequiredMessage: string := "ログインが必要です"
  const CreateFailedMessage: string := "スタッフの追加に失敗しました"

  /** The row an update or delete addresses: this id within this organisation. */
  function Addressed(id: string, orgId: string): Admin -> bool {
    (a: Admin) => a.id == id && a.organizationId == orgId
  }

  /** The rows a delete by id and organisation leaves. */
  function Kept(id: string, orgId: string): Admin -> bool {
    (a: Admin) => !(a.id == id && a.organizationId == orgId)
  }

  /** The organisation's org_admins, as the guard's query returns them. */
  function IsOrgAdminOf(orgId: string): Admin -> bool {
    (a: Admin) => a.organizationId == orgId && a.role == OrgAdmin
  }

  /** The guard's condition: the target is among the organisation's org_admins, and they number at most one. */
  predicate IsLastOrgAdmin(admins: seq<Admin>, id: string, orgId: string) {
    (exists a :: a in admins && IsOrgAdminOf(orgId)(a) && a.id == id) && CountWhere(admins, IsOrgAdminOf(orgId)) <= 1
  }

  /** `remove(id, organizationId)`: the table after the delete, or the error thrown. */
  function Remove(admins: seq<Admin>, id: string, orgId: string, readError: Option<string>, deleteError: Option<string>)
    : (r: Result<seq<Admin>>)
    ensures readError.Some? ==> r == Err(readError.value)
    ensures readError.None? && IsLastOrgAdmin(admins, id, orgId) ==> r == Err(LastAdminMessage)
    ensures r.Ok? <==> readError.None? && deleteError.None? && !IsLastOrgAdmin(admins, id, orgId)
    ensures r.Ok? ==> r.value == Filter(admins, Kept(id, orgId))
  {
    if readError.Some? then Err(readError.value)
    else
      var orgAdmins := Filter(admins, IsOrgAdminOf(orgId));
      var isTarget := exists a :: a in orgAdmins && a.id == id;
      if isTarget && |orgAdmins| <= 1 then Err(LastAdminMessage)
      else if deleteError.Some? then Err(deleteError.value)
      else Ok(Filter(admins, Kept(id, orgId)))
  }

  /**
   * The guard keeps every organisation administered: with unique ids, an organisation that had an
   * org_admin still has one after any successful removal, whichever row and organisation it names.
   */
  lemma RemoveKeepsAnOrgAdmin(admins: seq<Admin>, id: string, orgId: string, org: string)
    requires UniqueAdminIds(admins)
    requires CountWhere(admins, IsOrgAdminOf(org)) >= 1
    requires Remove(admins, id, orgId, None, None).Ok?
    ensures CountWhere(Remove(admins, id, orgId, None, None).value, IsOrgAdminOf(org)) >= 1
  {
    var keep := Kept(id, orgId);
    var isOA := IsOrgAdminOf(org);
    var hit := (a: Admin) => a.id == id && a.organizationId == orgId;
    var kept := (a: Admin) => keep(a) && isOA(a);
    var removed := (a: Admin) => isOA(a) && hit(a);
    var stays := (a: Admin) => isOA(a) && !hit(a);
    CountFilter(admins, keep, isOA, kept);
    CountCongruent(admins, kept, stays);
    CountSplit(admins, isOA, hit, removed, stays);
    // At most one org_admin of `org` is the removed row.
    FilterAtMostOne(admins, removed);
    if org == orgId && exists a :: a in admins && isOA(a) && a.id == id {
      assert CountWhere(admins, isOA) >= 2;
    } else {
      FilterNone(admins, removed);
    }
  }

  /** `generateLineToken(id, organizationId)`: the addressed row now holds `token`, which is returned. */
  function GenerateLineToken(admins: seq<Admin>, id: string, orgId: string, token: string, writeError: Option<string>)
    : (r: Result<(seq<Admin>, string)>)
    ensures writeError.Some? <==> r.Err?
    ensures r.Err? ==> r.message == writeError.value
    ensures r.Ok? ==> r.value.1 == token && |r.value.0| == |admins|
    ensures r.Ok? ==> forall i :: 0 <= i < |admins| ==>
      r.value.0[i] == (if Addressed(id, orgId)(admins[i]) then admins[i].(lineRegistrationToken := Some(token)) else admins[i])
  {
    if writeError.Some? then Err(writeError.value)
    else Ok((UpdateWhere(admins, Addressed(id, orgId), (a: Admin) => a.(lineRegistrationToken := Some(token))), token))
  }

  /** `unlinkLine(id, organizationId)`: the addressed row loses its LINE id and any pending token. */
  function UnlinkLine(admins: seq<Admin>, id: string, orgId: string, writeError: Option<string>)
    : (r: Result<seq<Admin>>)
    ensures writeError.Some? <==> r.Err?
    ensures r.Err? ==> r.message == writeError.value
    ensures r.Ok? ==> |r.value| == |admins|
    ensures r.Ok? ==> forall i :: 0 <= i < |admins| ==>
      r.value[i] == (if Addressed(id, orgId)(admins[i]) then admins[i].(lineUserId := None, lineRegistrationToken := None) else admins[i])
  {
    if writeError.Some? then Err(writeError.value)
    else Ok(UpdateWhere(admins, Addressed(id, orgId), (a: Admin) => a.(lineUserId := None, lineRegistrationToken := None)))
  }

  /** After unlinking, the addressed admin neither receives LINE summaries nor holds a claimable token. */
  lemma UnlinkClearsLink(admins: seq<Admin>, id: string, orgId: string)
    ensures var after := UnlinkLine(admins, id, orgId, None).value;
      forall a :: a in after && Addressed(id, orgId)(a) ==> a.lineUserId.None? && a.lineRegistrationToken.None?
  {
    var after := UnlinkLine(admins, id, orgId, None).value;
    forall a | a in after && Addressed(id, orgId)(a) ensures a.lineUserId.None? && a.lineRegistrationToken.None? {
      var i :| 0 <= i < |after| && after[i] == a;
    }
  }

  /**
   * An issued token is held by exactly one admin when it was fresh and the id names one row: it is then
   * what the webhook's `.single()` lookup by token finds.
   */
  lemma IssuedTokenHasOneHolder(admins: seq<Admin>, id: string, orgId: string, token: string, k: nat)
    requires UniqueAdminIds(admins)
    requires k < |admins| && Addressed(id, orgId)(admins[k])
    requires forall a :: a in admins ==> a.lineRegistrationToken != Some(token)
    ensures var after := GenerateLineToken(admins, id, orgId, token, None).value.0;
      Filter(after, (a: Admin) => a.lineRegistrationToken == Some(token)) == [after[k]]
      && after[k] == admins[k].(lineRegistrationToken := Some(token))
  {
    var after := GenerateLineToken(admins, id, orgId, token, None).value.0;
    forall i | 0 <= i < |after| && i != k ensures after[i].lineRegistrationToken != Some(token) {
      assert admins[i] in admins;
    }
    FilterExactlyOne(after, (a: Admin) => a.lineRegistrationToken == Some(token), k);
  }

  /**
   * Issuing and claiming fit together: the LINE message carrying a freshly issued token links the
   * sender to exactly the admin it was issued for, when the conditional write succeeds.
   */
  lemma IssuedTokenIsClaimed(admins: seq<Admin>, drivers: seq<Driver>, id: string, orgId: string, token: string,
                             k: nat, ev: Event)
    requires UniqueAdminIds(admins)
    requires k < |admins| && Addressed(id, orgId)(admins[k])
    requires forall a :: a in admins ==> a.lineRegistrationToken != Some(token)
    requires ClaimAttempted(ev) && MessageText(ev) == token
    ensures var after := GenerateLineToken(admins, id, orgId, token, None).value.0;
      var e := HandleEvent(after, drivers, ev, true);
      e.reply == Some(Linked(admins[k].name)) && e.admins == ClaimWrite(after, id, token, ev.userId.value)
  {
    var after := GenerateLineToken(admins, id, orgId, token, None).value.0;
    assert TokenHolder(after, token) == Some(after[k]) by {
      IssuedTokenHasOneHolder(admins, id, orgId, token, k);
    }
    assert Filter(after, CasGuard(id, token)) == [after[k]] by {
      IssuedTokenHasOneHolder(admins, id, orgId, token, k);
      forall i | 0 <= i < |after| && i != k ensures !CasGuard(id, token)(after[i]) {
        assert admins[i] in admins;
      }
      FilterExactlyOne(after, CasGuard(id, token), k);
    }
  }

  /** The request body sent to the create-admin-user function. */
  datatype CreateAdminInput = CreateAdminInput(email: string, password: string, name: string, role: AdminRole)

  /**
   * What `fetch` and `res.json()` yield: `res.ok`, `result.message` and `result.adminUser`, the
   * created row as the function replies it, under its snake_case column names.
   */
  datatype CreateResponse = CreateResponse(ok: bool, message: Option<string>, adminUser: Record)

  /**
   * `create(input)`: without a session no request is made; otherwise the request carries the session's
   * access token, and a non-ok reply throws its message (or the default one); an ok reply's row is
   * passed through `fromDb`, which renames every column to camelCase.
   */
  function Create(session: Option<string>, input: CreateAdminInput, send: (string, CreateAdminInput) -> CreateResponse)
    : (r: Result<Record>)
    ensures session.None? ==> r == Err(LoginRequiredMessage)
    ensures session.Some? && !send(session.value, input).ok ==>
      r == Err(if send(session.value, input).message.Some? then send(session.value, input).message.value else CreateFailedMessage)
    ensures r.Ok? <==> session.Some? && send(session.value, input).ok
    ensures r.Ok? ==> r.value == Supabase.Renamed(send(session.value, input).adminUser, Supabase.SnakeToCamel)
  {
    match session
    case None => Err(LoginRequiredMessage)
    case Some(accessToken) =>
      var res := send(accessToken, input);
      if !res.ok then Err(if res.message.Some? then res.message.value else CreateFailedMessage)
      else Ok(Supabase.Renamed(res.adminUser, Supabase.SnakeToCamel))
  }

  /**
   * A created row whose column names are distinct and lower case comes back entry for entry:
   * the same values, in the same order, each under the camelCase form of its column name.
   */
  lemma CreateKeepsRow(session: Option<string>, input: CreateAdminInput, send: (string, CreateAdminInput) -> CreateResponse)
    requires session.Some? && send(session.value, input).ok
    requires UniqueKeys(send(session.value, input).adminUser)
    requires forall e :: e in send(session.value, input).adminUser ==> Supabase.NoAsciiUpper(e.0)
    ensures var row := send(session.value, input).adminUser;
      Create(session, input, send).Ok? && |Create(session, input, send).value| == |row| &&
      forall i :: 0 <= i < |row| ==> Create(session, input, send).value[i] == (Supabase.SnakeToCamel(row[i].0), row[i].1)
  {
    Supabase.FromDbKeepsEntries(send(session.value, input).adminUser);
  }
}
