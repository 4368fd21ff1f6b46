/**
 * The edge functions' own masking for log lines: `safeLog` copies the object
 * and, for each of six personal keys present with a string value, stores the
 * masked name (for `name` and `driverName`) or "***" (for the others). The
 * console output itself is not modelled; the model is the masked copy.
 */
module EdgePiiMask {
  import opened Common
  import opened Records
  import PiiMask

  /** The edge `maskName`: the first character and three stars; "***" for null, undefined or "". */
  function MaskName(name: Option<string>): (r: string)
    ensures !Truthy(name) ==> r == "***"
    ensures Truthy(name) ==> r == [name.value[0]] + "***"
  {
    if name.None? || name.value == "" || |name.value| == 0 then "***" else [name.value[0]] + "***"
  }

  /** The console's `maskName` and the edge functions' one agree on every input. */
  lemma SameNameMask(name: Option<string>)
    ensures MaskName(name) == PiiMask.MaskName(name)
  {
  }

  const PiiKeys: seq<string> := ["name", "driverName", "phone", "email", "licenseNumber", "lineUserId"]

  /** `key in masked && typeof masked[key] === 'string'`: the string under `key`, if any. */
  function StringAt(r: Record, key: string): Option<string> {
    var v := Get(r, key);
    if v.Some? && v.value.VStr? then Some(v.value.s) else None
  }

  /** The keys of a list, as a set. */
  function KeySet(ks: seq<string>): (r: set<string>)
    ensures forall k :: k in r <==> k in ks
  {
    set k | k in ks
  }

  /** What `safeLog` stores under `key` in place of the string `s`. */
  function MaskedString(key: string, s: string): string {
    if key == "name" || key == "driverName" then MaskName(Some(s)) else "***"
  }

  /** The copy `safeLog` logs, when the keys in `done` have been handled: each string under such a key masked in place. */
  function MaskedFor(data: Record, done: set<string>): (r: Record)
    ensures |r| == |data| && Keys(r) == Keys(data)
    ensures forall i :: 0 <= i < |data| ==>
      r[i] == if data[i].0 in done && data[i].1.VStr? then (data[i].0, VStr(MaskedString(data[i].0, data[i].1.s))) else data[i]
  {
    var r := seq(|data|, i requires 0 <= i < |data| =>
      if data[i].0 in done && data[i].1.VStr? then (data[i].0, VStr(MaskedString(data[i].0, data[i].1.s))) else data[i]);
    assert |Keys(r)| == |Keys(data)|;
    assert forall i :: 0 <= i < |r| ==> Keys(r)[i] == Keys(data)[i];
    r
  }

  /** Masking one more key changes only the entries under that key. */
  lemma MaskOneMoreAt(data: Record, done: set<string>, key: string, j: nat)
    requires UniqueKeys(data) && key !in done && j < |data| && data[j].0 == key
    ensures var m := MaskedFor(data, done);
      m[j] == data[j]
      && MaskedFor(data, done + {key}) == if data[j].1.VStr? then m[j := (key, VStr(MaskedString(key, data[j].1.s)))] else m
  {
    var m := MaskedFor(data, done);
    var next := MaskedFor(data, done + {key});
    var want := if data[j].1.VStr? then m[j := (key, VStr(MaskedString(key, data[j].1.s)))] else m;
    forall i | 0 <= i < |data| ensures next[i] == want[i] {
      if i != j {
        assert data[i].0 != key;
      }
    }
  }

  lemma MaskOneMoreAbsent(data: Record, done: set<string>, key: string)
    requires key !in done && key !in Keys(data)
    ensures MaskedFor(data, done + {key}) == MaskedFor(data, done)
  {
    var m := MaskedFor(data, done);
    var next := MaskedFor(data, done + {key});
    forall i | 0 <= i < |data| ensures next[i] == m[i] {
      assert Keys(data)[i] == data[i].0;
    }
  }

  /** The masked copy has the unique keys of the original. */
  lemma MaskedUnique(data: Record, done: set<string>)
    requires UniqueKeys(data)
    ensures UniqueKeys(MaskedFor(data, done))
  {
    var m := MaskedFor(data, done);
    forall i, j | 0 <= i < j < |m| ensures m[i].0 != m[j].0 {
      assert m[i].0 == data[i].0 && m[j].0 == data[j].0;
    }
  }

  /** One step of the loop: handle `key` on the copy in which the keys of `done` are masked. */
  method MaskKey(data: Record, ghost done: set<string>, key: string, masked: Record) returns (next: Record)
    requires UniqueKeys(data) && key !in done && masked == MaskedFor(data, done)
    ensures next == MaskedFor(data, done + {key})
  {
    MaskedUnique(data, done);
    var v := Get(masked, key);
    if key in Keys(data) {
      var j :| 0 <= j < |data| && Keys(data)[j] == key;
      MaskOneMoreAt(data, done, key, j);
      assert masked[j] == data[j];
      GetUnique(masked, key, data[j].1);
      if v.value.VStr? {
        AssignAt(masked, j, VStr(MaskedString(key, v.value.s)));
        next := Assign(masked, key, VStr(MaskedString(key, v.value.s)));
      } else {
        next := masked;
      }
    } else {
      MaskOneMoreAbsent(data, done, key);
      next := masked;
    }
  }

  /** `safeLog`'s masking: a shallow copy, then each personal key, when present with a string, overwritten. */
  method SafeLogMask(data: Record) returns (masked: Record)
    requires UniqueKeys(data)
    ensures masked == MaskedFor(data, KeySet(PiiKeys))
  {
    masked := data;
    assert masked == MaskedFor(data, {}) by {
      forall i | 0 <= i < |data| ensures masked[i] == MaskedFor(data, {})[i] {
      }
    }
    var i := 0;
    while i < |PiiKeys|
      invariant 0 <= i <= |PiiKeys|
      invariant masked == MaskedFor(data, KeySet(PiiKeys[..i]))
    {
      var key := PiiKeys[i];
      ghost var done := KeySet(PiiKeys[..i]);
      assert key !in done;
      masked := MaskKey(data, done, key, masked);
      assert PiiKeys[..i + 1] == PiiKeys[..i] + [key];
      assert KeySet(PiiKeys[..i + 1]) == done + {key};
      i := i + 1;
    }
    assert PiiKeys[..|PiiKeys|] == PiiKeys;
  }

  /**
   * Of a personal string, the logged copy shows at most its first character: what it logs in its place is
   * "***", or that character followed by "***" for a name.
   */
  lemma LogRevealsAtMostFirstChar(data: Record, done: set<string>)
    ensures var m := MaskedFor(data, done);
      forall i :: 0 <= i < |data| && data[i].0 in done && data[i].1.VStr? ==>
        m[i].1.VStr? && (m[i].1.s == "***" || (data[i].1.s != "" && m[i].1.s == [data[i].1.s[0]] + "***"))
  {
  }
}
