/**
 * The per-process fixed-window rate limiter of the edge functions: a map from
 * key to (count, resetAt) that every call updates in place, swept of expired
 * entries at most once a minute. The clock is the parameter `now`.
 */
module RateLimit {
  import opened Common

  datatype Entry = Entry(count: int, resetAt: int)

  datatype Decision = Decision(allowed: bool, remaining: int, retryAfterMs: int)

  const CleanupInterval: int := 60000

  /** The store left by a due sweep at `now`: the entries whose window has not ended before `now`. */
  function Swept(store: map<string, Entry>, now: int): (r: map<string, Entry>)
    ensures r.Keys <= store.Keys
    ensures forall k :: k in store ==> (k in r <==> !(store[k].resetAt < now))
    ensures forall k :: k in r ==> r[k] == store[k]
  {
    map k | k in store && store[k].resetAt >= now :: store[k]
  }

  /** The sweep `cleanup` performs: none before the interval has elapsed, else a full sweep. */
  function Sweep(store: map<string, Entry>, lastCleanup: int, now: int): (r: (map<string, Entry>, int))
    ensures now - lastCleanup < CleanupInterval ==> r == (store, lastCleanup)
    ensures now - lastCleanup >= CleanupInterval ==> r == (Swept(store, now), now)
  {
    if now - lastCleanup < CleanupInterval then (store, lastCleanup) else (Swept(store, now), now)
  }

  /** True when the key has a window that is still open at `now` (expiry is strict: `resetAt == now` is open). */
  predicate InWindow(store: map<string, Entry>, key: string, now: int) {
    key in store && !(store[key].resetAt < now)
  }

  /** One admission decision on a swept store, and the store it leaves. */
  function Admit(store: map<string, Entry>, key: string, maxRequests: int, windowMs: int, now: int)
    : (r: (map<string, Entry>, Decision))
    ensures key in r.0
    ensures forall k :: k != key ==> (k in r.0 <==> k in store) && (k in store ==> r.0[k] == store[k])
    ensures !InWindow(store, key, now) ==>
      r.0[key] == Entry(1, now + windowMs) && r.1 == Decision(true, maxRequests - 1, 0)
    ensures InWindow(store, key, now) && store[key].count >= maxRequests ==>
      r.0[key] == store[key] && r.1 == Decision(false, 0, store[key].resetAt - now) && r.1.retryAfterMs >= 0
    ensures InWindow(store, key, now) && store[key].count < maxRequests ==>
      r.0[key] == Entry(store[key].count + 1, store[key].resetAt)
      && r.1 == Decision(true, maxRequests - (store[key].count + 1), 0)
  {
    if !InWindow(store, key, now) then
      (store[key := Entry(1, now + windowMs)], Decision(true, maxRequests - 1, 0))
    else if store[key].count >= maxRequests then
      (store, Decision(false, 0, store[key].resetAt - now))
    else
      var e := store[key];
      (store[key := Entry(e.count + 1, e.resetAt)], Decision(true, maxRequests - (e.count + 1), 0))
  }

  /** `checkRateLimit` on the abstract state: sweep if due, then admit. */
  function Check(store: map<string, Entry>, lastCleanup: int, key: string, maxRequests: int, windowMs: int, now: int)
    : (map<string, Entry>, int, Decision)
  {
    var (swept, last) := Sweep(store, lastCleanup, now);
    var (next, d) := Admit(swept, key, maxRequests, windowMs, now);
    (next, last, d)
  }

  /** The sweep never changes the decision for the calling key, nor the entry it leaves for that key. */
  lemma SweepIrrelevant(store: map<string, Entry>, lastCleanup: int, key: string, maxRequests: int, windowMs: int, now: int)
    ensures var (s, _) := Sweep(store, lastCleanup, now);
      Admit(s, key, maxRequests, windowMs, now).1 == Admit(store, key, maxRequests, windowMs, now).1
      && Admit(s, key, maxRequests, windowMs, now).0[key] == Admit(store, key, maxRequests, windowMs, now).0[key]
  {
    var (s, _) := Sweep(store, lastCleanup, now);
    assert InWindow(s, key, now) <==> InWindow(store, key, now);
  }

  /** The decisions of successive calls for one key at the instants `times`. */
  function Run(store: map<string, Entry>, lastCleanup: int, key: string, maxRequests: int, windowMs: int, times: seq<int>)
    : (ds: seq<Decision>)
    decreases |times|
  {
    if times == [] then []
    else
      var (next, last, d) := Check(store, lastCleanup, key, maxRequests, windowMs, times[0]);
      [d] + Run(next, last, key, maxRequests, windowMs, times[1..])
  }

  /**
   * Inside an open window of count c, the i-th further call is admitted iff c + i < maxRequests;
   * the admitted ones report the remaining budget, the refused ones the time left in the window.
   */
  lemma {:induction false} RunInsideWindow(store: map<string, Entry>, lastCleanup: int, key: string,
                                           maxRequests: int, windowMs: int, times: seq<int>, c: int, resetAt: int)
    requires key in store && store[key] == Entry(c, resetAt)
    requires forall i :: 0 <= i < |times| ==> times[i] <= resetAt
    ensures var ds := Run(store, lastCleanup, key, maxRequests, windowMs, times);
      |ds| == |times|
      && (forall i :: 0 <= i < |times| ==> (ds[i].allowed <==> c + i < maxRequests))
      && (forall i :: 0 <= i < |times| && ds[i].allowed ==> ds[i].remaining == maxRequests - (c + i + 1))
      && (forall i :: 0 <= i < |times| && !ds[i].allowed ==> ds[i].remaining == 0 && ds[i].retryAfterMs == resetAt - times[i] >= 0)
    decreases |times|
  {
    if times != [] {
      var t := times[0];
      var (swept, last) := Sweep(store, lastCleanup, t);
      assert key in swept && swept[key] == Entry(c, resetAt);
      var (next, d) := Admit(swept, key, maxRequests, windowMs, t);
      var c' := if c < maxRequests then c + 1 else c;
      assert next[key] == Entry(c', resetAt);
      var rest := Run(next, last, key, maxRequests, windowMs, times[1..]);
      RunInsideWindow(next, last, key, maxRequests, windowMs, times[1..], c', resetAt);
      var ds := Run(store, lastCleanup, key, maxRequests, windowMs, times);
      assert ds == [d] + rest;
      forall i | 1 <= i < |times|
        ensures (ds[i].allowed <==> c + i < maxRequests)
        ensures ds[i].allowed ==> ds[i].remaining == maxRequests - (c + i + 1)
        ensures !ds[i].allowed ==> ds[i].remaining == 0 && ds[i].retryAfterMs == resetAt - times[i] >= 0
      {
        assert ds[i] == rest[i - 1] && times[1..][i - 1] == times[i];
      }
    }
  }

  /**
   * A window opened by the first call admits exactly maxRequests calls in all (the opening call is
   * admitted even when maxRequests < 1), and refuses every later call made before the window ends.
   */
  lemma ExactlyMaxPerWindow(store: map<string, Entry>, lastCleanup: int, key: string,
                            maxRequests: int, windowMs: int, times: seq<int>)
    requires |times| > 0 && !InWindow(store, key, times[0])
    requires forall i :: 0 <= i < |times| ==> times[i] <= times[0] + windowMs
    ensures var ds := Run(store, lastCleanup, key, maxRequests, windowMs, times);
      |ds| == |times| && forall i :: 0 <= i < |times| ==> (ds[i].allowed <==> i == 0 || i < maxRequests)
  {
    var t := times[0];
    var (swept, last) := Sweep(store, lastCleanup, t);
    assert !InWindow(swept, key, t);
    var (next, d) := Admit(swept, key, maxRequests, windowMs, t);
    assert d.allowed && next[key] == Entry(1, t + windowMs);
    var rest := Run(next, last, key, maxRequests, windowMs, times[1..]);
    RunInsideWindow(next, last, key, maxRequests, windowMs, times[1..], 1, t + windowMs);
    var ds := Run(store, lastCleanup, key, maxRequests, windowMs, times);
    assert ds == [d] + rest;
    forall i | 1 <= i < |times| ensures (ds[i].allowed <==> i < maxRequests) {
      assert ds[i] == rest[i - 1];
    }
  }

  /** The in-place limiter: the module-level `store` map and `lastCleanup` instant. */
  class RateLimiter {
    var store: map<string, Entry>
    var lastCleanup: int

    /** Module load: an empty store, and the load instant as the last sweep. */
    constructor(loadedAt: int)
      ensures store == map[] && lastCleanup == loadedAt
    {
      store := map[];
      lastCleanup := loadedAt;
    }

    /** `cleanup`: deletes the expired entries one by one, at most once per interval. */
    method Cleanup(now: int)
      modifies this
      ensures (store, lastCleanup) == Sweep(old(store), old(lastCleanup), now)
    {
      if now - lastCleanup < CleanupInterval {
        return;
      }
      lastCleanup := now;
      var pending := store.Keys;
      while pending != {}
        invariant pending <= old(store).Keys
        invariant lastCleanup == now
        invariant forall k :: k in store <==> k in old(store) && (k in pending || old(store)[k].resetAt >= now)
        invariant forall k :: k in store ==> store[k] == old(store)[k]
        decreases pending
      {
        var k :| k in pending;
        if store[k].resetAt < now {
          store := store - {k};
        }
        pending := pending - {k};
      }
      assert store == Swept(old(store), now);
    }

    /** `checkRateLimit(key, maxRequests, windowMs)` at the instant `now`. */
    method CheckRateLimit(key: string, maxRequests: int, windowMs: int, now: int) returns (d: Decision)
      modifies this
      ensures (store, lastCleanup, d) == Check(old(store), old(lastCleanup), key, maxRequests, windowMs, now)
    {
      Cleanup(now);
      if key !in store || store[key].resetAt < now {
        store := store[key := Entry(1, now + windowMs)];
        return Decision(true, maxRequests - 1, 0);
      }
      var entry := store[key];
      if entry.count >= maxRequests {
        return Decision(false, 0, entry.resetAt - now);
      }
      store := store[key := Entry(entry.count + 1, entry.resetAt)];
      d := Decision(true, maxRequests - (entry.count + 1), 0);
    }
  }

  /** The text before the first occurrence of `sep` (all of `s` when there is none): `split(sep)[0]`. */
  function FirstField(s: string, sep: char): (r: string)
    ensures StartsWith(s, r) && sep !in r
    ensures |r| == |s| || s[|r|] == sep
  {
    if s == [] || s[0] == sep then [] else [s[0]] + FirstField(s[1..], sep)
  }

  /**
   * `getClientIp`: the trimmed first comma-separated element of `x-forwarded-for` when that header
   * is present (even if it is empty), else `x-real-ip`, else "unknown".
   */
  function GetClientIp(forwardedFor: Option<string>, realIp: Option<string>): (r: string)
    ensures forwardedFor.Some? ==> r == Trim(FirstField(forwardedFor.value, ',')) && ',' !in r
    ensures forwardedFor.None? ==> r == (if realIp.Some? then realIp.value else "unknown")
  {
    match forwardedFor
    case Some(xff) =>
      var first := FirstField(xff, ',');
      TrimSpec(first);
      Trim(first)
    case None => if realIp.Some? then realIp.value else "unknown"
  }
}
