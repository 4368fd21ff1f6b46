/**
 * The LINE push fan-out the cron functions share: a loop over recipients
 * that skips an empty LINE id, pushes one text message with the
 * organisation's channel token, and counts the push when the call returns
 * without throwing (`deliver`; the HTTP status is never inspected).
 */
module Messaging {
  /** A push: the channel token it is sent with, the recipient's LINE id, and the text. */
  datatype Push = Push(token: string, to: string, text: string)

  /** One recipient of the inner loop: the LINE id as read (possibly empty) and its text. */
  datatype Recipient = Recipient(lineUserId: string, text: string)

  /** The pushes attempted for the recipients: the ones with a non-empty LINE id, in order. */
  function Pushes(token: string, rs: seq<Recipient>): (ps: seq<Push>)
    ensures |ps| <= |rs|
  {
    if rs == [] then []
    else
      (if rs[0].lineUserId != "" then [Push(token, rs[0].lineUserId, rs[0].text)] else [])
      + Pushes(token, rs[1..])
  }

  /** A push is attempted exactly for each recipient with a non-empty LINE id, with its own text. */
  lemma {:induction false} PushesMembers(token: string, rs: seq<Recipient>)
    ensures forall p :: p in Pushes(token, rs) <==> p.token == token && p.to != "" && Recipient(p.to, p.text) in rs
  {
    if rs != [] {
      PushesMembers(token, rs[1..]);
      assert forall r :: r in rs <==> r == rs[0] || r in rs[1..];
    }
  }

  /** The pushes of recipients one more: those before, then this one's if its LINE id is non-empty. */
  lemma {:induction false} PushesSnoc(token: string, rs: seq<Recipient>, r: Recipient)
    ensures Pushes(token, rs + [r]) == Pushes(token, rs) + (if r.lineUserId != "" then [Push(token, r.lineUserId, r.text)] else [])
  {
    if rs == [] {
      assert [] + [r] == [r];
    } else {
      assert (rs + [r])[1..] == rs[1..] + [r];
      PushesSnoc(token, rs[1..], r);
    }
  }

  /** The counter the loops increment: the attempted pushes that returned without throwing. */
  function Delivered(ps: seq<Push>, deliver: Push -> bool): (n: nat)
    ensures n <= |ps|
  {
    if ps == [] then 0 else (if deliver(ps[0]) then 1 else 0) + Delivered(ps[1..], deliver)
  }

  lemma {:induction false} DeliveredAppend(ps: seq<Push>, qs: seq<Push>, deliver: Push -> bool)
    ensures Delivered(ps + qs, deliver) == Delivered(ps, deliver) + Delivered(qs, deliver)
  {
    if ps == [] {
      assert ps + qs == qs;
    } else {
      assert (ps + qs)[1..] == ps[1..] + qs;
      DeliveredAppend(ps[1..], qs, deliver);
    }
  }

  /** The inner loop: skip an empty LINE id, push, and count the push when it does not throw. */
  method SendAll(token: string, rs: seq<Recipient>, deliver: Push -> bool) returns (sent: seq<Push>, n: nat)
    ensures sent == Pushes(token, rs)
    ensures n == Delivered(sent, deliver)
  {
    sent := [];
    n := 0;
    var j := 0;
    while j < |rs|
      invariant 0 <= j <= |rs|
      invariant sent == Pushes(token, rs[..j])
      invariant n == Delivered(sent, deliver)
    {
      PushesSnoc(token, rs[..j], rs[j]);
      assert rs[..j + 1] == rs[..j] + [rs[j]];
      if rs[j].lineUserId != "" {
        var p := Push(token, rs[j].lineUserId, rs[j].text);
        DeliveredAppend(sent, [p], deliver);
        assert Delivered([p], deliver) == if deliver(p) then 1 else 0;
        sent := sent + [p];
        if deliver(p) {
          n := n + 1;
        }
      }
      j := j + 1;
    }
    assert rs[..|rs|] == rs;
  }
}
