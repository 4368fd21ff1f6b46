/**
 * The driver LINE link: a LIFF client that proves a LINE identity (an ID
 * token, checked by the oracle `verify`: `Ok` of the LINE user id, or of None
 * when the channel id is missing, the check is refused or yields no `sub`;
 * `Err` when `fetch` or `res.json()` throws) presents a driver's one-time
 * registration token; the unbound driver holding it is bound to that LINE id,
 * unless the id is already bound. A request body is None when `req.json()`
 * throws or yields null. Every throw in the handler is answered with 500.
 * The handler's three database calls can each fail: a failed token lookup is
 * answered like a missing holder, a failed update throws, and a failed
 * lookup of a driver already bound to the caller is not looked at at all.
 */
module LinkDriver {
  import opened Common
  import opened Tables

  datatype Response = Response(status: nat, driverName: Option<string>)

  /** `typeof body.registrationToken === 'string' ? body.registrationToken : null`. */
  function TokenField(body: map<string, Value>): Option<string> {
    if "registrationToken" in body && body["registrationToken"].VStr? then Some(body["registrationToken"].s) else None
  }

  /** The driver the token may claim: exactly one driver holding it whose LINE id is null. */
  function UnboundHolder(drivers: seq<Driver>, token: string): Option<Driver> {
    Single(drivers, (d: Driver) => d.registrationToken == Some(token) && d.lineUserId.None?)
  }

  /** `.eq('line_user_id', lineUserId).single()`: a driver already bound to the caller. */
  function BoundTo(drivers: seq<Driver>, sub: string): Option<Driver> {
    Single(drivers, (d: Driver) => d.lineUserId == Some(sub))
  }

  /** Whether each database call of the handler succeeds: the token lookup, the lookup of `existing`, the update. */
  datatype Calls = Calls(findOk: bool, boundReadOk: bool, updateOk: bool)

  /** `driver` after the token lookup: the unbound holder, or null when the lookup fails (`findError`). */
  function Holder(drivers: seq<Driver>, token: string, calls: Calls): (r: Option<Driver>)
    ensures !calls.findOk ==> r.None?
    ensures calls.findOk ==> r == UnboundHolder(drivers, token)
  {
    if calls.findOk then UnboundHolder(drivers, token) else None
  }

  /** `existing` after its lookup: the bound driver, or null when the lookup fails, whose error is dropped. */
  function Existing(drivers: seq<Driver>, sub: string, calls: Calls): (r: Option<Driver>)
    ensures !calls.boundReadOk ==> r.None?
    ensures calls.boundReadOk ==> r == BoundTo(drivers, sub)
  {
    if calls.boundReadOk then BoundTo(drivers, sub) else None
  }

  /** The update by id: bind the caller, void the token, refresh `updated_at`. */
  function Bind(drivers: seq<Driver>, id: string, sub: string, now: string): seq<Driver> {
    UpdateWhere(drivers, (d: Driver) => d.id == id,
                (d: Driver) => d.(lineUserId := Some(sub), registrationToken := None, updatedAt := now))
  }

  /** The caller's LINE id when the Authorization header carries a verifiable ID token. */
  function Caller(authHeader: Option<string>, verify: string -> Result<Option<string>>): Option<string> {
    if authHeader.None? || !StartsWith(authHeader.value, "Bearer ") then None
    else
      match verify(authHeader.value[7..])
      case Ok(sub) => if Truthy(sub) then sub else None
      case Err(_) => None
  }

  /** `verifyLineIdToken` throws on the bearer token of the header. */
  predicate VerifyThrows(authHeader: Option<string>, verify: string -> Result<Option<string>>) {
    authHeader.Some? && StartsWith(authHeader.value, "Bearer ") && verify(authHeader.value[7..]).Err?
  }

  /**
   * The serve handler: the response and the drivers table after it. Every status is stated both ways:
   * 401 exactly for a missing or refused ID token, 500 for a throwing check, an unreadable body or a failed
   * update, 400 for a missing token, 404 when the lookup finds no unbound driver holding it or fails, 409
   * when the lookup of `existing` finds the caller's LINE id already bound, and otherwise 200 with the
   * binding written, which includes the case where that lookup failed.
   */
  function Handle(httpMethod: string, authHeader: Option<string>, body: Option<map<string, Value>>,
                  drivers: seq<Driver>, verify: string -> Result<Option<string>>, calls: Calls, now: string)
    : (r: (Response, seq<Driver>))
    ensures r.0.status != 200 || httpMethod == "OPTIONS" ==> r.1 == drivers
    ensures httpMethod == "OPTIONS" ==> r == (Response(200, None), drivers)
    ensures httpMethod != "OPTIONS" ==>
      (r.0.status == 401 <==> Caller(authHeader, verify).None? && !VerifyThrows(authHeader, verify))
    ensures httpMethod != "OPTIONS" && VerifyThrows(authHeader, verify) ==> r == (Response(500, None), drivers)
    ensures httpMethod != "OPTIONS" && Caller(authHeader, verify).Some? && body.None? ==> r == (Response(500, None), drivers)
    ensures r.0.status == 400 <==>
      httpMethod != "OPTIONS" && Caller(authHeader, verify).Some? && body.Some? && !Truthy(TokenField(body.value))
    ensures httpMethod != "OPTIONS" && Caller(authHeader, verify).Some? && body.Some? && Truthy(TokenField(body.value)) ==>
      var holder := Holder(drivers, TokenField(body.value).value, calls);
      var bound := Existing(drivers, Caller(authHeader, verify).value, calls);
      (holder.None? ==> r == (Response(404, None), drivers))
      && (holder.Some? && bound.Some? ==> r == (Response(409, None), drivers))
      && (holder.Some? && bound.None? && !calls.updateOk ==> r == (Response(500, None), drivers))
      && (holder.Some? && bound.None? && calls.updateOk ==>
            r == (Response(200, Some(holder.value.name)), Bind(drivers, holder.value.id, Caller(authHeader, verify).value, now)))
    ensures r.0.status == 404 ==>
      body.Some? && Truthy(TokenField(body.value)) && Holder(drivers, TokenField(body.value).value, calls).None?
    ensures r.0.status == 409 ==>
      calls.boundReadOk && Caller(authHeader, verify).Some? && BoundTo(drivers, Caller(authHeader, verify).value).Some?
    ensures r.0.status == 200 && httpMethod != "OPTIONS" ==>
      Caller(authHeader, verify).Some? && body.Some? && Truthy(TokenField(body.value))
      && calls.findOk && calls.updateOk && UnboundHolder(drivers, TokenField(body.value).value).Some?
      && Existing(drivers, Caller(authHeader, verify).value, calls).None?
      && r.1 == Bind(drivers, UnboundHolder(drivers, TokenField(body.value).value).value.id, Caller(authHeader, verify).value, now)
      && r.0.driverName == Some(UnboundHolder(drivers, TokenField(body.value).value).value.name)
  {
    if httpMethod == "OPTIONS" then (Response(200, None), drivers)
    else if VerifyThrows(authHeader, verify) then (Response(500, None), drivers)
    else
      match Caller(authHeader, verify)
      case None => (Response(401, None), drivers)
      case Some(sub) =>
        match body
        case None => (Response(500, None), drivers)
        case Some(fields) =>
          var token := TokenField(fields);
          if !Truthy(token) then (Response(400, None), drivers)
          else
            match Holder(drivers, token.value, calls)
            case None => (Response(404, None), drivers)
            case Some(holder) =>
              if Existing(drivers, sub, calls).Some? then (Response(409, None), drivers)
              else if !calls.updateOk then (Response(500, None), drivers)
              else (Response(200, Some(holder.name)), Bind(drivers, holder.id, sub, now))
  }

  /**
   * Authentication failures are decided before any table is read: without an identified caller the answer
   * is 401, or 500 when the check threw, whatever the table and the outcome of the database calls.
   */
  lemma AuthFailureReadsNothing(authHeader: Option<string>, body: Option<map<string, Value>>, d1: seq<Driver>,
                                d2: seq<Driver>, verify: string -> Result<Option<string>>, c1: Calls, c2: Calls, now: string)
    requires Caller(authHeader, verify).None?
    ensures Handle("POST", authHeader, body, d1, verify, c1, now)
         == (Response(if VerifyThrows(authHeader, verify) then 500 else 401, None), d1)
    ensures Handle("POST", authHeader, body, d2, verify, c2, now).0 == Handle("POST", authHeader, body, d1, verify, c1, now).0
  {
  }

  /** No LINE id is bound to two drivers. */
  predicate UniqueLineIds(drivers: seq<Driver>) {
    forall i, j :: 0 <= i < j < |drivers| && drivers[i].lineUserId.Some? ==> drivers[i].lineUserId != drivers[j].lineUserId
  }

  /** With unique LINE ids, a LINE id that `.single()` does not find is held by no driver. */
  lemma UnboundLineId(drivers: seq<Driver>, sub: string)
    requires UniqueLineIds(drivers) && BoundTo(drivers, sub).None?
    ensures forall d :: d in drivers ==> d.lineUserId != Some(sub)
  {
    var p := (d: Driver) => d.lineUserId == Some(sub);
    FilterAtMostOne(drivers, p);
    assert |Filter(drivers, p)| == 0;
  }

  /** Binding a LINE id nobody holds, on a table with unique ids, keeps LINE ids unique. */
  lemma BindKeepsUnique(drivers: seq<Driver>, id: string, sub: string, now: string)
    requires UniqueDriverIds(drivers) && UniqueLineIds(drivers)
    requires forall d :: d in drivers ==> d.lineUserId != Some(sub)
    ensures UniqueLineIds(Bind(drivers, id, sub, now))
  {
    var after := Bind(drivers, id, sub, now);
    forall i, j | 0 <= i < j < |after| && after[i].lineUserId.Some?
      ensures after[i].lineUserId != after[j].lineUserId
    {
      assert drivers[i] in drivers && drivers[j] in drivers;
    }
  }

  /**
   * Under unique driver ids, a request whose lookup of `existing` succeeds binds no LINE id to two
   * drivers (a failed lookup is `FailedReadBindsTwice`).
   */
  lemma NoDoubleBinding(httpMethod: string, authHeader: Option<string>, body: Option<map<string, Value>>,
                        drivers: seq<Driver>, verify: string -> Result<Option<string>>, calls: Calls, now: string)
    requires UniqueDriverIds(drivers) && UniqueLineIds(drivers)
    ensures calls.boundReadOk ==> UniqueLineIds(Handle(httpMethod, authHeader, body, drivers, verify, calls, now).1)
  {
    var r := Handle(httpMethod, authHeader, body, drivers, verify, calls, now);
    if calls.boundReadOk && r.1 != drivers {
      var sub := Caller(authHeader, verify).value;
      UnboundLineId(drivers, sub);
      BindKeepsUnique(drivers, UnboundHolder(drivers, TokenField(body.value).value).value.id, sub, now);
    }
  }

  /**
   * The guard as written fails open: when the caller's LINE id is already bound to one driver and the
   * lookup of `existing` fails, the handler binds the same LINE id to the token's holder as well.
   */
  lemma FailedReadBindsTwice(authHeader: Option<string>, body: Option<map<string, Value>>,
                             drivers: seq<Driver>, verify: string -> Result<Option<string>>, calls: Calls, now: string)
    requires UniqueDriverIds(drivers)
    requires Caller(authHeader, verify).Some? && body.Some? && Truthy(TokenField(body.value))
    requires UnboundHolder(drivers, TokenField(body.value).value).Some?
    requires BoundTo(drivers, Caller(authHeader, verify).value).Some?
    requires calls == Calls(true, false, true)
    ensures Handle("POST", authHeader, body, drivers, verify, calls, now).0.status == 200
    ensures !UniqueLineIds(Handle("POST", authHeader, body, drivers, verify, calls, now).1)
  {
    var sub := Caller(authHeader, verify).value;
    var holder := UnboundHolder(drivers, TokenField(body.value).value).value;
    var bound := BoundTo(drivers, sub).value;
    var after := Bind(drivers, holder.id, sub, now);
    var k :| 0 <= k < |drivers| && drivers[k] == holder;
    var j :| 0 <= j < |drivers| && drivers[j] == bound;
    assert j != k;
    assert after[k].lineUserId == Some(sub);
    assert after[j] == drivers[j];
    if j < k {
      assert after[j].lineUserId.Some? && after[j].lineUserId == after[k].lineUserId;
    } else {
      assert after[k].lineUserId.Some? && after[k].lineUserId == after[j].lineUserId;
    }
  }

  /**
   * The handler as intended: a failed lookup of `existing` is an error (500) rather than a sign that the
   * LINE id is free; otherwise it answers as `Handle`.
   */
  function HandleChecked(httpMethod: string, authHeader: Option<string>, body: Option<map<string, Value>>,
                         drivers: seq<Driver>, verify: string -> Result<Option<string>>, calls: Calls, now: string)
    : (r: (Response, seq<Driver>))
    ensures calls.boundReadOk ==> r == Handle(httpMethod, authHeader, body, drivers, verify, calls, now)
    ensures !calls.boundReadOk ==> r.1 == drivers
    ensures !calls.boundReadOk && Handle(httpMethod, authHeader, body, drivers, verify, calls, now).0.status != 200 ==>
      r == Handle(httpMethod, authHeader, body, drivers, verify, calls, now)
  {
    var r := Handle(httpMethod, authHeader, body, drivers, verify, calls, now);
    if !calls.boundReadOk && httpMethod != "OPTIONS" && r.0.status == 200 then (Response(500, None), drivers) else r
  }

  /** With the failed lookup answered as an error, no request binds one LINE id to two drivers, whatever the database calls do. */
  lemma NoDoubleBindingChecked(httpMethod: string, authHeader: Option<string>, body: Option<map<string, Value>>,
                               drivers: seq<Driver>, verify: string -> Result<Option<string>>, calls: Calls, now: string)
    requires UniqueDriverIds(drivers) && UniqueLineIds(drivers)
    ensures UniqueLineIds(HandleChecked(httpMethod, authHeader, body, drivers, verify, calls, now).1)
  {
    NoDoubleBinding(httpMethod, authHeader, body, drivers, verify, calls, now);
  }

  /** The token is single use: after a successful link, the same token finds no unbound driver. */
  lemma TokenSingleUse(httpMethod: string, authHeader: Option<string>, body: Option<map<string, Value>>,
                       drivers: seq<Driver>, verify: string -> Result<Option<string>>, calls: Calls, now: string)
    requires httpMethod != "OPTIONS"
    requires Handle(httpMethod, authHeader, body, drivers, verify, calls, now).0.status == 200
    ensures var after := Handle(httpMethod, authHeader, body, drivers, verify, calls, now).1;
      UnboundHolder(after, TokenField(body.value).value).None?
      && forall a2, v2, c2, n2 :: Handle(httpMethod, a2, body, after, v2, c2, n2).0.status
           == if Caller(a2, v2).Some? then 404 else if VerifyThrows(a2, v2) then 500 else 401
  {
    var token := TokenField(body.value).value;
    var holder := UnboundHolder(drivers, token).value;
    var sub := Caller(authHeader, verify).value;
    var after := Bind(drivers, holder.id, sub, now);
    var p := (d: Driver) => d.registrationToken == Some(token) && d.lineUserId.None?;
    forall d | d in after ensures !p(d) {
      var i :| 0 <= i < |after| && after[i] == d;
      if drivers[i].id != holder.id {
        assert drivers[i] in drivers;
      }
    }
    FilterNone(after, p);
  }
}
