/**
 * The edge function through which an org_admin creates a staff account: the
 * caller is authenticated and must be an org_admin, the body is validated in a
 * fixed order, an auth user is created, and the `admin_users` row is inserted
 * in the caller's organisation; when that insert fails the auth user is deleted
 * again. The auth service's user list and the `admin_users` table are values;
 * `auth.getUser` is the oracle `getUser` (the user's id, None when it reports
 * an error or no user, `Err` when it throws), and the outcomes of `createUser`,
 * of the insert and of `deleteUser` are parameters. Every throw is caught and
 * answered with 500.
 * A body is None when `req.json()` throws or yields null (destructuring null
 * throws); a JSON primitive or array has none of the four fields, so it is the
 * empty map.
 */
module CreateAdminUser {
  import opened Common
  import opened Tables

  /** An account of the auth service. */
  datatype AuthUser = AuthUser(id: string, email: string)

  /** The validated request: trimmed email and name, the password as given, and the role. */
  datatype NewAdmin = NewAdmin(email: string, password: string, name: string, role: AdminRole)

  datatype Reply = Preflight | Failure(status: nat, message: string) | Created(admin: Admin)

  function StatusOf(r: Reply): nat {
    match r
    case Preflight => 200
    case Failure(status, _) => status
    case Created(_) => 201
  }

  const MethodNotAllowedMessage: string := "Method not allowed"
  const AuthRequiredMessage: string := "認証が必要です"
  const AuthFailedMessage: string := "認証に失敗しました"
  const ForbiddenMessage: string := "この操作にはorg_admin権限が必要です"
  const BadEmailMessage: string := "有効なメールアドレスを入力してください"
  const BadPasswordMessage: string := "パスワードは8文字以上で入力してください"
  const BadNameMessage: string := "氏名は必須です"
  const BadRoleMessage: string := "無効な権限です"
  const DuplicateMessage: string := "このメールアドレスは既に登録されています"
  const CreateFailedMessage: string := "ユーザー作成に失敗しました"
  const InsertFailedMessage: string := "スタッフ登録に失敗しました。再度お試しください。"
  const InternalMessage: string := "内部エラーが発生しました"

  /** The string under `key`, when the body has one there. */
  function StringField(body: map<string, Value>, key: string): Option<string> {
    if key in body && body[key].VStr? then Some(body[key].s) else None
  }

  predicate ValidEmail(body: map<string, Value>) {
    var e := StringField(body, "email"); e.Some? && Contains(e.value, "@")
  }

  predicate ValidPassword(body: map<string, Value>) {
    var p := StringField(body, "password"); p.Some? && |p.value| >= 8
  }

  predicate ValidName(body: map<string, Value>) {
    var n := StringField(body, "name"); n.Some? && |Trim(n.value)| > 0
  }

  /** `['org_admin', 'manager'].includes(role)`. */
  function RoleOf(body: map<string, Value>): Option<AdminRole> {
    match StringField(body, "role")
    case Some("org_admin") => Some(OrgAdmin)
    case Some("manager") => Some(Manager)
    case _ => None
  }

  /** The validation chain: the first failing check, in source order, decides the message. */
  function Validate(body: map<string, Value>): (r: Result<NewAdmin>)
    ensures r.Ok? <==> ValidEmail(body) && ValidPassword(body) && ValidName(body) && RoleOf(body).Some?
    ensures !ValidEmail(body) ==> r == Err(BadEmailMessage)
    ensures ValidEmail(body) && !ValidPassword(body) ==> r == Err(BadPasswordMessage)
    ensures ValidEmail(body) && ValidPassword(body) && !ValidName(body) ==> r == Err(BadNameMessage)
    ensures ValidEmail(body) && ValidPassword(body) && ValidName(body) && RoleOf(body).None? ==> r == Err(BadRoleMessage)
    ensures r.Ok? ==>
      r.value == NewAdmin(Trim(body["email"].s), body["password"].s, Trim(body["name"].s), RoleOf(body).value)
      && Contains(body["email"].s, "@") && |r.value.password| >= 8 && |r.value.name| > 0
  {
    if !ValidEmail(body) then Err(BadEmailMessage)
    else if !ValidPassword(body) then Err(BadPasswordMessage)
    else if !ValidName(body) then Err(BadNameMessage)
    else match RoleOf(body)
      case None => Err(BadRoleMessage)
      case Some(role) =>
        Ok(NewAdmin(Trim(body["email"].s), body["password"].s, Trim(body["name"].s), role))
  }

  /** The caller's user id, when the header is `Bearer <jwt>` and the auth service accepts the jwt. */
  function CallerId(authHeader: Option<string>, getUser: string -> Result<Option<string>>): Option<string> {
    if authHeader.None? || !StartsWith(authHeader.value, "Bearer ") then None
    else match getUser(authHeader.value[7..])
      case Ok(id) => id
      case Err(_) => None
  }

  /** `auth.getUser` throws on the bearer token of the header. */
  predicate GetUserThrows(authHeader: Option<string>, getUser: string -> Result<Option<string>>) {
    authHeader.Some? && StartsWith(authHeader.value, "Bearer ") && getUser(authHeader.value[7..]).Err?
  }

  /**
   * The caller's `admin_users` row (`.single()` on the id), when it is an org_admin; a failed read
   * (`callerError`) is answered as no such row.
   */
  function CallerAdmin(admins: seq<Admin>, callerId: string, readOk: bool): (r: Option<Admin>)
    ensures r.Some? ==> readOk && r.value in admins && r.value.id == callerId && r.value.role == OrgAdmin
    ensures !readOk ==> r.None?
    ensures readOk && |Filter(admins, (a: Admin) => a.id == callerId)| == 1 ==>
      (r.Some? <==> Filter(admins, (a: Admin) => a.id == callerId)[0].role == OrgAdmin)
  {
    var row := Single(admins, (a: Admin) => a.id == callerId);
    if readOk && row.Some? && row.value.role == OrgAdmin then row else None
  }

  /** The row the function inserts for a validated request from an org_admin. */
  function NewRow(id: string, caller: Admin, req: NewAdmin): Admin {
    Admin(id, caller.organizationId, req.email, req.name, req.role, None, None)
  }

  /** The auth service's users without `id`: what a successful `deleteUser` leaves. */
  function WithoutUser(users: seq<AuthUser>, id: string): (r: seq<AuthUser>)
    ensures forall u :: u in r <==> u in users && u.id != id
  {
    Filter(users, (u: AuthUser) => u.id != id)
  }

  /**
   * The serve handler: the reply, the auth users and the `admin_users` table afterwards.
   * `created` is what `createUser` returns (the new user's id, or an error message),
   * `insertOk` whether the insert succeeds, `deleteOk` whether the compensating delete does.
   */
  function Handle(httpMethod: string, authHeader: Option<string>, getUser: string -> Result<Option<string>>,
                  body: Option<map<string, Value>>, users: seq<AuthUser>, admins: seq<Admin>, callerReadOk: bool,
                  created: Result<string>, insertOk: bool, deleteOk: bool)
    : (r: (Reply, seq<AuthUser>, seq<Admin>))
    ensures httpMethod == "OPTIONS" ==> r.0 == Preflight
    ensures httpMethod != "OPTIONS" && httpMethod != "POST" ==> r.0 == Failure(405, MethodNotAllowedMessage)
    ensures httpMethod == "POST" ==>
      (StatusOf(r.0) == 401 <==> CallerId(authHeader, getUser).None? && !GetUserThrows(authHeader, getUser))
      && (StatusOf(r.0) == 403 <==>
            CallerId(authHeader, getUser).Some? && CallerAdmin(admins, CallerId(authHeader, getUser).value, callerReadOk).None?)
    ensures httpMethod == "POST" && GetUserThrows(authHeader, getUser) ==> r == (Failure(500, InternalMessage), users, admins)
    ensures httpMethod == "POST" && CallerId(authHeader, getUser).Some? && !callerReadOk ==>
      r == (Failure(403, ForbiddenMessage), users, admins)
    ensures httpMethod == "POST" && CallerId(authHeader, getUser).Some? && CallerAdmin(admins, CallerId(authHeader, getUser).value, callerReadOk).Some?
            && body.None?
      ==> r == (Failure(500, InternalMessage), users, admins)
    ensures httpMethod == "POST" && CallerId(authHeader, getUser).Some? && CallerAdmin(admins, CallerId(authHeader, getUser).value, callerReadOk).Some?
            && body.Some? && Validate(body.value).Ok?
      ==> r == Provision(users, admins, CallerAdmin(admins, CallerId(authHeader, getUser).value, callerReadOk).value, Validate(body.value).value,
                         created, insertOk, deleteOk)
    ensures StatusOf(r.0) == 400 <==>
      httpMethod == "POST" && CallerId(authHeader, getUser).Some?
      && CallerAdmin(admins, CallerId(authHeader, getUser).value, callerReadOk).Some?
      && body.Some? && Validate(body.value).Err?
    ensures StatusOf(r.0) == 400 ==> r.0 == Failure(400, Validate(body.value).message)
    ensures r.0.Created? ==>
      httpMethod == "POST" && CallerId(authHeader, getUser).Some? && body.Some? && Validate(body.value).Ok?
      && created.Ok? && insertOk
      && var caller := CallerAdmin(admins, CallerId(authHeader, getUser).value, callerReadOk);
         caller.Some?
         && r.0.admin == NewRow(created.value, caller.value, Validate(body.value).value)
         && r.1 == users + [AuthUser(created.value, Validate(body.value).value.email)]
         && r.2 == admins + [r.0.admin]
    ensures !r.0.Created? ==> r.2 == admins
    ensures !r.0.Created? && !(StatusOf(r.0) == 500 && created.Ok? && !insertOk) ==> r.1 == users
    ensures StatusOf(r.0) !in {200, 201, 409, 500} ==> r.1 == users && r.2 == admins
  {
    if httpMethod == "OPTIONS" then (Preflight, users, admins)
    else if httpMethod != "POST" then (Failure(405, MethodNotAllowedMessage), users, admins)
    else if authHeader.None? || !StartsWith(authHeader.value, "Bearer ") then
      (Failure(401, AuthRequiredMessage), users, admins)
    else if GetUserThrows(authHeader, getUser) then (Failure(500, InternalMessage), users, admins)
    else match CallerId(authHeader, getUser)
      case None => (Failure(401, AuthFailedMessage), users, admins)
      case Some(callerId) =>
        match CallerAdmin(admins, callerId, callerReadOk)
        case None => (Failure(403, ForbiddenMessage), users, admins)
        case Some(caller) =>
          match body
          case None => (Failure(500, InternalMessage), users, admins)
          case Some(fields) =>
            match Validate(fields)
            case Err(message) => (Failure(400, message), users, admins)
            case Ok(req) => Provision(users, admins, caller, req, created, insertOk, deleteOk)
  }

  /** `createUser`, the insert, and on a failed insert the compensating `deleteUser`. */
  function Provision(users: seq<AuthUser>, admins: seq<Admin>, caller: Admin, req: NewAdmin,
                     created: Result<string>, insertOk: bool, deleteOk: bool)
    : (r: (Reply, seq<AuthUser>, seq<Admin>))
    ensures StatusOf(r.0) in {201, 409, 500}
    ensures created.Err? ==> r == (Failure(if Contains(created.message, "already") then 409 else 500,
                                           if Contains(created.message, "already") then DuplicateMessage else CreateFailedMessage),
                                   users, admins)
    ensures r.0.Created? <==> created.Ok? && insertOk
    ensures r.0.Created? ==>
      r.0.admin == NewRow(created.value, caller, req)
      && r.1 == users + [AuthUser(created.value, req.email)] && r.2 == admins + [r.0.admin]
    ensures created.Ok? && !insertOk ==>
      r.0 == Failure(500, InsertFailedMessage) && r.2 == admins
      && r.1 == if deleteOk then WithoutUser(users + [AuthUser(created.value, req.email)], created.value)
                else users + [AuthUser(created.value, req.email)]
  {
    match created
    case Err(message) =>
      if Contains(message, "already") then (Failure(409, DuplicateMessage), users, admins)
      else (Failure(500, CreateFailedMessage), users, admins)
    case Ok(id) =>
      var withUser := users + [AuthUser(id, req.email)];
      if !insertOk then
        (Failure(500, InsertFailedMessage), if deleteOk then WithoutUser(withUser, id) else withUser, admins)
      else
        var row := NewRow(id, caller, req);
        (Created(row), withUser, admins + [row])
  }

  /** With a fresh id, a failed insert followed by a successful delete leaves the auth users as they were. */
  lemma RollbackRestores(users: seq<AuthUser>, admins: seq<Admin>, caller: Admin, req: NewAdmin, id: string)
    requires forall u :: u in users ==> u.id != id
    ensures Provision(users, admins, caller, req, Ok(id), false, true).1 == users
  {
    var withUser := users + [AuthUser(id, req.email)];
    FilterAppend(users, [AuthUser(id, req.email)], (u: AuthUser) => u.id != id);
    FilterAll(users, (u: AuthUser) => u.id != id);
  }

  /** Every auth user has an `admin_users` row. */
  predicate Paired(users: seq<AuthUser>, admins: seq<Admin>) {
    forall u :: u in users ==> exists a :: a in admins && a.id == u.id
  }

  /**
   * The compensating delete keeps the pairing: when `deleteUser` does its work, no request leaves an
   * auth user without an admin row. A fresh id (one the auth service does not hold yet) is assumed of `createUser`.
   */
  lemma NoOrphanAuthUser(httpMethod: string, authHeader: Option<string>, getUser: string -> Result<Option<string>>,
                         body: Option<map<string, Value>>, users: seq<AuthUser>, admins: seq<Admin>, callerReadOk: bool,
                         created: Result<string>, insertOk: bool)
    requires Paired(users, admins)
    requires created.Ok? ==> forall u :: u in users ==> u.id != created.value
    ensures var r := Handle(httpMethod, authHeader, getUser, body, users, admins, callerReadOk, created, insertOk, true);
      Paired(r.1, r.2)
  {
    var r := Handle(httpMethod, authHeader, getUser, body, users, admins, callerReadOk, created, insertOk, true);
    if httpMethod == "POST" && authHeader.Some? && StartsWith(authHeader.value, "Bearer ")
       && CallerId(authHeader, getUser).Some? && CallerAdmin(admins, CallerId(authHeader, getUser).value, callerReadOk).Some?
       && body.Some? && Validate(body.value).Ok? {
      var caller := CallerAdmin(admins, CallerId(authHeader, getUser).value, callerReadOk).value;
      var req := Validate(body.value).value;
      assert r == Provision(users, admins, caller, req, created, insertOk, true);
      ProvisionKeepsPairing(users, admins, caller, req, created, insertOk);
    } else {
      assert r.1 == users && r.2 == admins;
    }
  }

  /** `Provision` with a working compensating delete keeps every auth user paired with an admin row. */
  lemma ProvisionKeepsPairing(users: seq<AuthUser>, admins: seq<Admin>, caller: Admin, req: NewAdmin,
                              created: Result<string>, insertOk: bool)
    requires Paired(users, admins)
    requires created.Ok? ==> forall u :: u in users ==> u.id != created.value
    ensures var r := Provision(users, admins, caller, req, created, insertOk, true); Paired(r.1, r.2)
  {
    var r := Provision(users, admins, caller, req, created, insertOk, true);
    if created.Ok? && insertOk {
      forall u | u in r.1 ensures exists a :: a in r.2 && a.id == u.id {
        if u in users {
          var a :| a in admins && a.id == u.id;
          assert a in r.2;
        } else {
          assert r.0.admin in r.2;
        }
      }
    } else if created.Ok? {
      RollbackRestores(users, admins, caller, req, created.value);
    }
  }

  /** The new admin belongs to the caller's organisation, whatever organisation the body names. */
  lemma InheritsCallerOrganisation(authHeader: Option<string>, getUser: string -> Result<Option<string>>,
                                   fields: map<string, Value>, users: seq<AuthUser>, admins: seq<Admin>, callerReadOk: bool,
                                   created: Result<string>, org: Value)
    ensures var r := Handle("POST", authHeader, getUser, Some(fields["organization_id" := org]), users, admins, callerReadOk, created, true, true);
      r.0.Created? ==>
        exists caller :: caller in admins && caller.id == CallerId(authHeader, getUser).value
          && caller.role == OrgAdmin && r.0.admin.organizationId == caller.organizationId
  {
    var r := Handle("POST", authHeader, getUser, Some(fields["organization_id" := org]), users, admins, callerReadOk, created, true, true);
    if r.0.Created? {
      var caller := CallerAdmin(admins, CallerId(authHeader, getUser).value, callerReadOk).value;
      assert caller in admins;
    }
  }

  /** A duplicate e-mail (an error that mentions "already") gives 409, any other creation error 500. */
  lemma CreationErrorStatus(authHeader: Option<string>, getUser: string -> Result<Option<string>>,
                            fields: map<string, Value>, users: seq<AuthUser>, admins: seq<Admin>, callerReadOk: bool,
                            message: string, insertOk: bool, deleteOk: bool)
    requires CallerId(authHeader, getUser).Some? && CallerAdmin(admins, CallerId(authHeader, getUser).value, callerReadOk).Some?
    requires Validate(fields).Ok?
    ensures var r := Handle("POST", authHeader, getUser, Some(fields), users, admins, callerReadOk, Err(message), insertOk, deleteOk);
      StatusOf(r.0) == (if Contains(message, "already") then 409 else 500) && r.1 == users && r.2 == admins
  {
  }
}
