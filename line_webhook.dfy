/**
 * The LINE webhook: an HMAC-SHA256 signature check over the raw body, then a
 * loop over the delivered events. A follow event greets the sender; a text
 * message that looks like a UUID may claim an admin's one-time LINE link
 * token by one conditional write; "help" gets the menu. HMAC, base64 decoding
 * and JSON parsing are the oracle parameters `hmac`, `atob` and `parse`; a
 * reply is sent only when an access token is configured, and sending it may
 * throw (`replyOk`). Replies are recorded as (replyToken, reply) pairs.
 */
module LineWebhook {
  import opened Common
  import opened Tables
  import opened Bytes

  datatype Env = Env(channelSecret: Option<string>, accessToken: Option<string>)

  datatype Message = Message(kind: string, text: Option<string>)

  /** One element of `events`; `NullEvent` is a `null` element, on which reading `.type` throws. */
  datatype Event =
    | NullEvent
    | Event(kind: string, userId: Option<string>, replyToken: string, message: Option<Message>)

  /** What `JSON.parse(body)` yields as far as the handler reads it; `Unparsable` also covers a `null` body. */
  datatype Parsed = Unparsable | NoEventArray | Events(events: seq<Event>)

  datatype Reply = Welcome(driverName: string) | Greeting | Linked(adminName: string) | LinkFailed | Help

  function ReplyText(r: Reply): string {
    match r
    case Welcome(n) => n + " さん、ECXIA安全管理システムへようこそ！\n\n画面下部のメニューから日報の提出ができます。"
    case Greeting => "ECXIA安全管理システムです。\n\n管理者から受け取った登録URLを開いて、LINE連携を完了してください。"
    case Linked(n) => n + "さん、LINE連携が完了しました！\n\n今後、提出状況のサマリー通知がこのLINEに届きます。"
    case LinkFailed => "LINE連携の処理中にエラーが発生しました。管理画面から再度お試しください。"
    case Help =>
      "ECXIA安全管理システム\n\n画面下部のメニューから以下の操作ができます：\n・出勤 → 業務前報告\n・点検 → 日常点検\n・退勤 → 業務後報告\n・事故 → 事故報告"
  }

  /**
   * `verifySignature`: false without a channel secret; None when `atob` throws; otherwise whether
   * the decoded signature equals the HMAC of the body, decided by scanning every byte of it.
   */
  method VerifySignature(secret: Option<string>, body: string, signature: string,
                         hmac: (string, string) -> seq<bv8>, atob: string -> Option<seq<bv8>>)
    returns (r: Option<bool>)
    ensures !Truthy(secret) ==> r == Some(false)
    ensures Truthy(secret) && atob(signature).None? ==> r.None?
    ensures Truthy(secret) && atob(signature).Some? ==> r == Some(hmac(secret.value, body) == atob(signature).value)
  {
    if !Truthy(secret) {
      return Some(false);
    }
    var expected := hmac(secret.value, body);
    var decoded := atob(signature);
    if decoded.None? {
      return None;
    }
    var received := decoded.value;
    if |expected| != |received| {
      return Some(false);
    }
    var diff: bv8 := 0;
    var i := 0;
    while i < |expected|
      invariant 0 <= i <= |expected|
      invariant diff == XorDiff(expected, received, i)
    {
      diff := diff | (expected[i] ^ received[i]);
      i := i + 1;
    }
    SameLengthDiff(expected, received);
    r := Some(diff == 0);
  }

  predicate IsTextMessage(ev: Event) {
    ev.Event? && ev.kind == "message" && ev.message.Some? && ev.message.value.kind == "text"
  }

  /** `(event.message.text ?? '').trim()`. */
  function MessageText(ev: Event): string
    requires IsTextMessage(ev)
  {
    match ev.message.value.text
    case Some(t) => Trim(t)
    case None => ""
  }

  /** `textLower.includes('ヘルプ') || textLower === 'help'`. */
  predicate IsHelpRequest(text: string) {
    var lower := LowerAscii(text);
    Contains(lower, "ヘルプ") || lower == "help"
  }

  /** The follow greeting: the driver's name when exactly one driver has the sender's LINE id. */
  function FollowReply(drivers: seq<Driver>, sender: string): (r: Reply)
    ensures r.Welcome? <==> Single(drivers, (d: Driver) => d.lineUserId == Some(sender)).Some?
    ensures r.Welcome? ==> exists d :: d in drivers && d.lineUserId == Some(sender) && r.driverName == d.name
  {
    match Single(drivers, (d: Driver) => d.lineUserId == Some(sender))
    case Some(d) => Welcome(d.name)
    case None => Greeting
  }

  /** `.eq('line_registration_token', text).single()` on `admin_users`. */
  function TokenHolder(admins: seq<Admin>, text: string): Option<Admin> {
    Single(admins, (a: Admin) => a.lineRegistrationToken == Some(text))
  }

  /** The guard of the conditional write: this admin, while it still holds the token. */
  function CasGuard(id: string, text: string): Admin -> bool {
    (a: Admin) => a.id == id && a.lineRegistrationToken == Some(text)
  }

  /** The conditional write: `line_user_id := sender, line_registration_token := null` where the guard holds. */
  function ClaimWrite(admins: seq<Admin>, id: string, text: string, sender: string): seq<Admin> {
    UpdateWhere(admins, CasGuard(id, text), (a: Admin) => a.(lineUserId := Some(sender), lineRegistrationToken := None))
  }

  /** The claim attempt is made for a text message from a sender whose trimmed text has the UUID form. */
  predicate ClaimAttempted(ev: Event) {
    IsTextMessage(ev) && Truthy(ev.userId) && IsUuidText(MessageText(ev))
  }

  /** A claim attempt that found the token's holder: this event is then answered by the link reply only. */
  predicate ClaimFound(admins: seq<Admin>, ev: Event) {
    ClaimAttempted(ev) && TokenHolder(admins, MessageText(ev)).Some?
  }

  /** The effect of one event on the admins table, its reply, and whether reading it throws. */
  datatype Effect = Effect(admins: seq<Admin>, reply: Option<Reply>, throws: bool)

  function HandleEvent(admins: seq<Admin>, drivers: seq<Driver>, ev: Event, updateOk: bool): (e: Effect)
    ensures e.throws <==> ev.NullEvent?
    ensures e.admins != admins ==> ClaimFound(admins, ev) && updateOk
    ensures e.admins == admins || e.admins == ClaimWrite(admins, TokenHolder(admins, MessageText(ev)).value.id, MessageText(ev), ev.userId.value)
    ensures ClaimFound(admins, ev) ==> e.reply.Some? && (e.reply.value.Linked? || e.reply.value == LinkFailed)
    ensures e.reply == Some(Help) <==> IsTextMessage(ev) && !ClaimFound(admins, ev) && IsHelpRequest(MessageText(ev))
    ensures ev.Event? && ev.kind == "follow" ==> (e.reply.Some? <==> Truthy(ev.userId))
  {
    if ev.NullEvent? then Effect(admins, None, true)
    else if ev.kind == "follow" then
      if !Truthy(ev.userId) then Effect(admins, None, false)
      else Effect(admins, Some(FollowReply(drivers, ev.userId.value)), false)
    else if IsTextMessage(ev) then
      var text := MessageText(ev);
      if ClaimFound(admins, ev) then
        var holder := TokenHolder(admins, text).value;
        if updateOk && CountWhere(admins, CasGuard(holder.id, text)) == 1 then
          Effect(ClaimWrite(admins, holder.id, text, ev.userId.value), Some(Linked(holder.name)), false)
        else
          Effect(admins, Some(LinkFailed), false)
      else if IsHelpRequest(text) then Effect(admins, Some(Help), false)
      else Effect(admins, None, false)
    else Effect(admins, None, false)
  }

  /** A successful claim empties the token: no admin holds it afterwards, and the sender is linked. */
  lemma ClaimConsumesToken(admins: seq<Admin>, drivers: seq<Driver>, ev: Event, updateOk: bool)
    requires HandleEvent(admins, drivers, ev, updateOk).admins != admins
    ensures var after := HandleEvent(admins, drivers, ev, updateOk).admins;
      var text := MessageText(ev);
      (forall a :: a in after ==> a.lineRegistrationToken != Some(text))
      && (exists a :: a in after && a.id == TokenHolder(admins, text).value.id && a.lineUserId == ev.userId)
  {
    var text := MessageText(ev);
    var holder := TokenHolder(admins, text).value;
    var after := HandleEvent(admins, drivers, ev, updateOk).admins;
    var g := CasGuard(holder.id, text);
    assert after == ClaimWrite(admins, holder.id, text, ev.userId.value);
    forall a | a in after ensures a.lineRegistrationToken != Some(text) {
      var i :| 0 <= i < |after| && after[i] == a;
      if !g(admins[i]) {
        assert admins[i] in admins;
      }
    }
    var k :| 0 <= k < |admins| && admins[k] == holder;
    assert g(admins[k]);
    assert after[k] in after;
  }

  /**
   * Every branch of `handleEvent`: a follow with a sender gets the follow reply;
   * a found claim writes and replies linked exactly when the update succeeds
   * on the one guarded row, and otherwise writes nothing and replies failed;
   * a text message that is not a claim writes nothing and gets the help reply
   * or none; a follow without a sender and any other event do nothing.
   */
  lemma HandleEventCases(admins: seq<Admin>, drivers: seq<Driver>, ev: Event, updateOk: bool)
    ensures var e := HandleEvent(admins, drivers, ev, updateOk);
      ev.Event? && ev.kind == "follow" && Truthy(ev.userId) ==>
        e.reply == Some(FollowReply(drivers, ev.userId.value)) && e.admins == admins
    ensures var e := HandleEvent(admins, drivers, ev, updateOk);
      ClaimFound(admins, ev) ==>
        var text := MessageText(ev);
        var holder := TokenHolder(admins, text).value;
        if updateOk && CountWhere(admins, CasGuard(holder.id, text)) == 1
        then e.admins == ClaimWrite(admins, holder.id, text, ev.userId.value) && e.reply == Some(Linked(holder.name))
        else e.admins == admins && e.reply == Some(LinkFailed)
    ensures ev.Event? && ev.kind != "follow" && !IsTextMessage(ev) ==>
      HandleEvent(admins, drivers, ev, updateOk) == Effect(admins, None, false)
    ensures ev.Event? && ev.kind == "follow" && !Truthy(ev.userId) ==>
      HandleEvent(admins, drivers, ev, updateOk) == Effect(admins, None, false)
    ensures var e := HandleEvent(admins, drivers, ev, updateOk);
      ev.Event? && ev.kind != "follow" && IsTextMessage(ev) && !ClaimFound(admins, ev) ==>
        e.admins == admins && !e.throws && (if IsHelpRequest(MessageText(ev)) then e.reply == Some(Help) else e.reply.None?)
  {
  }

  /** The same message again, after it claimed the token, no longer finds a holder: no second claim. */
  lemma RepeatCannotClaim(admins: seq<Admin>, drivers: seq<Driver>, ev: Event, updateOk: bool, updateOk2: bool)
    requires HandleEvent(admins, drivers, ev, updateOk).admins != admins
    ensures var after := HandleEvent(admins, drivers, ev, updateOk).admins;
      !ClaimFound(after, ev) && HandleEvent(after, drivers, ev, updateOk2).admins == after
  {
    var after := HandleEvent(admins, drivers, ev, updateOk).admins;
    var text := MessageText(ev);
    ClaimConsumesToken(admins, drivers, ev, updateOk);
    assert TokenHolder(after, text).None?;
    assert !ClaimFound(after, ev);
  }

  /** Progress through the events array: the admins table, the replies sent, and whether an exception escaped. */
  datatype Progress = Progress(admins: seq<Admin>, replies: seq<(string, Reply)>, aborted: bool)

  /** One loop iteration; the admins write of an event is kept even when sending its reply then throws. */
  function Apply(p: Progress, drivers: seq<Driver>, ev: Event, i: nat, accessToken: Option<string>,
                 updateOk: nat -> bool, replyOk: nat -> bool): Progress
  {
    var e := HandleEvent(p.admins, drivers, ev, updateOk(i));
    if e.throws then Progress(p.admins, p.replies, true)
    else match e.reply
      case None => Progress(e.admins, p.replies, false)
      case Some(r) =>
        if !Truthy(accessToken) then Progress(e.admins, p.replies, false)
        else if !replyOk(i) then Progress(e.admins, p.replies, true)
        else Progress(e.admins, p.replies + [(ev.replyToken, r)], false)
  }

  /** The state after the first `n` events, stopping at the first exception. */
  function Processed(admins: seq<Admin>, drivers: seq<Driver>, events: seq<Event>, n: nat, accessToken: Option<string>,
                     updateOk: nat -> bool, replyOk: nat -> bool): Progress
    requires n <= |events|
  {
    if n == 0 then Progress(admins, [], false)
    else
      var p := Processed(admins, drivers, events, n - 1, accessToken, updateOk, replyOk);
      if p.aborted then p else Apply(p, drivers, events[n - 1], n - 1, accessToken, updateOk, replyOk)
  }

  /** Once an exception escapes, no later event has any effect. */
  lemma {:induction false} AbortIsFinal(admins: seq<Admin>, drivers: seq<Driver>, events: seq<Event>, n: nat, m: nat,
                                        accessToken: Option<string>, updateOk: nat -> bool, replyOk: nat -> bool)
    requires n <= m <= |events|
    requires Processed(admins, drivers, events, n, accessToken, updateOk, replyOk).aborted
    ensures Processed(admins, drivers, events, m, accessToken, updateOk, replyOk)
         == Processed(admins, drivers, events, n, accessToken, updateOk, replyOk)
    decreases m - n
  {
    if m > n {
      AbortIsFinal(admins, drivers, events, n, m - 1, accessToken, updateOk, replyOk);
    }
  }

  /** The `for ... of events` loop: 200 when it completes, 500 when an event throws. */
  method ProcessEvents(admins: seq<Admin>, drivers: seq<Driver>, events: seq<Event>, accessToken: Option<string>,
                       updateOk: nat -> bool, replyOk: nat -> bool)
    returns (status: nat, adminsAfter: seq<Admin>, replies: seq<(string, Reply)>)
    ensures var p := Processed(admins, drivers, events, |events|, accessToken, updateOk, replyOk);
      status == (if p.aborted then 500 else 200) && adminsAfter == p.admins && replies == p.replies
  {
    adminsAfter, replies := admins, [];
    var i := 0;
    while i < |events|
      invariant 0 <= i <= |events|
      invariant Processed(admins, drivers, events, i, accessToken, updateOk, replyOk) == Progress(adminsAfter, replies, false)
    {
      var p := Apply(Progress(adminsAfter, replies, false), drivers, events[i], i, accessToken, updateOk, replyOk);
      if p.aborted {
        AbortIsFinal(admins, drivers, events, i + 1, |events|, accessToken, updateOk, replyOk);
        return 500, p.admins, p.replies;
      }
      adminsAfter, replies := p.admins, p.replies;
      i := i + 1;
    }
    status := 200;
  }

  datatype Outcome = Outcome(status: nat, admins: seq<Admin>, replies: seq<(string, Reply)>)

  /**
   * The serve handler. Non-POST: 405. No channel secret: 503 before the body is read. A signature
   * that does not decode: 500; one that does not match: 403. A body that does not parse: 500; one
   * without an events array: 200. In none of these is any event processed.
   */
  method HandleRequest(httpMethod: string, body: string, signatureHeader: Option<string>, env: Env,
                       admins: seq<Admin>, drivers: seq<Driver>,
                       hmac: (string, string) -> seq<bv8>, atob: string -> Option<seq<bv8>>, parse: string -> Parsed,
                       updateOk: nat -> bool, replyOk: nat -> bool)
    returns (out: Outcome)
    ensures httpMethod != "POST" ==> out == Outcome(405, admins, [])
    ensures httpMethod == "POST" && !Truthy(env.channelSecret) ==> out == Outcome(503, admins, [])
    ensures out.status !in {200, 500} ==> out.admins == admins && out.replies == []
    ensures httpMethod == "POST" && Truthy(env.channelSecret) ==>
      var signature := if signatureHeader.Some? then signatureHeader.value else "";
      match atob(signature)
      case None => out == Outcome(500, admins, [])
      case Some(received) =>
        if hmac(env.channelSecret.value, body) != received then out == Outcome(403, admins, [])
        else match parse(body)
          case Unparsable => out == Outcome(500, admins, [])
          case NoEventArray => out == Outcome(200, admins, [])
          case Events(evs) =>
            var p := Processed(admins, drivers, evs, |evs|, env.accessToken, updateOk, replyOk);
            out == Outcome(if p.aborted then 500 else 200, p.admins, p.replies)
  {
    if httpMethod != "POST" {
      return Outcome(405, admins, []);
    }
    if !Truthy(env.channelSecret) {
      return Outcome(503, admins, []);
    }
    var signature := if signatureHeader.Some? then signatureHeader.value else "";
    var valid := VerifySignature(env.channelSecret, body, signature, hmac, atob);
    if valid.None? {
      return Outcome(500, admins, []);
    }
    if !valid.value {
      return Outcome(403, admins, []);
    }
    match parse(body)
    case Unparsable =>
      out := Outcome(500, admins, []);
    case NoEventArray =>
      out := Outcome(200, admins, []);
    case Events(evs) =>
      var status, after, replies := ProcessEvents(admins, drivers, evs, env.accessToken, updateOk, replyOk);
      out := Outcome(status, after, replies);
  }
}
