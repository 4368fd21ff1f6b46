/**
 * A JavaScript object as the functions that copy and rename keys see it:
 * its own entries in insertion order, each key once. Setting a key that is
 * present overwrites its value in place; setting a new key appends it.
 */
module Records {
  import opened Common

  type Record = seq<(string, Value)>

  function Keys(r: Record): (ks: seq<string>)
    ensures |ks| == |r| && forall i :: 0 <= i < |r| ==> ks[i] == r[i].0
  {
    if r == [] then [] else [r[0].0] + Keys(r[1..])
  }

  predicate UniqueKeys(r: Record) {
    forall i, j :: 0 <= i < j < |r| ==> r[i].0 != r[j].0
  }

  /** `obj[key]` for an own key, None when the key is absent. */
  function Get(r: Record, k: string): (v: Option<Value>)
    ensures v.Some? <==> k in Keys(r)
    ensures v.Some? ==> (k, v.value) in r
  {
    if r == [] then None
    else if r[0].0 == k then Some(r[0].1)
    else Get(r[1..], k)
  }

  /** `obj[key] = value`. */
  function Assign(r: Record, k: string, v: Value): (s: Record)
    ensures |s| == if k in Keys(r) then |r| else |r| + 1
  {
    if r == [] then [(k, v)]
    else if r[0].0 == k then [(k, v)] + r[1..]
    else [r[0]] + Assign(r[1..], k, v)
  }

  /** Setting a key leaves the keys unique, gives the key its new value, and leaves every other key as it was. */
  lemma AssignLaws(r: Record, k: string, v: Value)
    requires UniqueKeys(r)
    ensures UniqueKeys(Assign(r, k, v))
    ensures Get(Assign(r, k, v), k) == Some(v)
    ensures forall k' :: k' != k ==> Get(Assign(r, k, v), k') == Get(r, k')
    ensures Keys(Assign(r, k, v)) == if k in Keys(r) then Keys(r) else Keys(r) + [k]
  {
    AssignGet(r, k, v);
    AssignKeys(r, k, v);
    var s := Assign(r, k, v);
    forall i, j | 0 <= i < j < |s| ensures s[i].0 != s[j].0 {
      if k in Keys(r) {
        assert Keys(s)[i] == Keys(r)[i] && Keys(s)[j] == Keys(r)[j];
      } else if j < |r| {
        assert Keys(s)[i] == Keys(r)[i] && Keys(s)[j] == Keys(r)[j];
      } else {
        assert Keys(s)[i] == Keys(r)[i] && Keys(s)[j] == k;
      }
    }
  }

  lemma {:induction false} AssignGet(r: Record, k: string, v: Value)
    ensures Get(Assign(r, k, v), k) == Some(v)
    ensures forall k' :: k' != k ==> Get(Assign(r, k, v), k') == Get(r, k')
  {
    if r != [] && r[0].0 != k {
      AssignGet(r[1..], k, v);
    }
  }

  lemma {:induction false} AssignKeys(r: Record, k: string, v: Value)
    ensures Keys(Assign(r, k, v)) == if k in Keys(r) then Keys(r) else Keys(r) + [k]
  {
    if r != [] {
      if r[0].0 == k {
        assert ([(k, v)] + r[1..])[1..] == r[1..];
      } else {
        AssignKeys(r[1..], k, v);
        assert ([r[0]] + Assign(r[1..], k, v))[1..] == Assign(r[1..], k, v);
        if k !in Keys(r[1..]) {
          assert Keys(r) + [k] == [r[0].0] + (Keys(r[1..]) + [k]);
        }
      }
    }
  }

  /** With unique keys, the value an entry holds is the value `obj[key]` reads. */
  lemma {:induction false} GetUnique(r: Record, k: string, v: Value)
    requires UniqueKeys(r) && (k, v) in r
    ensures Get(r, k) == Some(v)
  {
    if r[0] != (k, v) {
      assert (k, v) in r[1..];
      UniqueTail(r);
      GetUnique(r[1..], k, v);
    }
  }

  /** Setting a new key appends it. */
  lemma {:induction false} AssignAppends(r: Record, k: string, v: Value)
    requires k !in Keys(r)
    ensures Assign(r, k, v) == r + [(k, v)]
  {
    if r != [] {
      assert Keys(r) == [r[0].0] + Keys(r[1..]);
      AssignAppends(r[1..], k, v);
      assert [r[0]] + (r[1..] + [(k, v)]) == r + [(k, v)];
    }
  }

  /** With unique keys, setting the key at position `j` overwrites that position and no other. */
  lemma {:induction false} AssignAt(r: Record, j: nat, v: Value)
    requires UniqueKeys(r) && j < |r|
    ensures Assign(r, r[j].0, v) == r[j := (r[j].0, v)]
    decreases j
  {
    var k := r[j].0;
    if j == 0 {
      assert Assign(r, k, v) == [(k, v)] + r[1..];
      assert [(k, v)] + r[1..] == r[0 := (k, v)];
    } else {
      var t := r[1..];
      UniqueTail(r);
      assert t[j - 1] == r[j];
      AssignAt(t, j - 1, v);
      assert r[0].0 != k;
      assert Assign(r, k, v) == [r[0]] + Assign(t, k, v);
      ConsUpdate(r, j, (k, v));
    }
  }

  /** The keys of a tail stay unique. */
  lemma UniqueTail(r: Record)
    requires UniqueKeys(r) && r != []
    ensures UniqueKeys(r[1..])
  {
    var t := r[1..];
    forall a, b | 0 <= a < b < |t| ensures t[a].0 != t[b].0 {
      assert t[a] == r[a + 1] && t[b] == r[b + 1];
    }
  }

  /** Updating position `j` of a sequence is updating position `j - 1` of its tail. */
  lemma ConsUpdate(r: Record, j: nat, e: (string, Value))
    requires 0 < j < |r|
    ensures [r[0]] + r[1..][j - 1 := e] == r[j := e]
  {
    var a := [r[0]] + r[1..][j - 1 := e];
    assert |a| == |r|;
    forall i | 0 <= i < |r| ensures a[i] == r[j := e][i] {
      if i > 0 {
        assert a[i] == r[1..][j - 1 := e][i - 1];
      }
    }
  }
}
