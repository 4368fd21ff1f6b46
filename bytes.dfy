/**
 * The OR-of-XOR accumulator both constant-time comparisons use:
 * `diff |= a[i] ^ b[i]` over every index of `a`, where reading `b` past its end
 * yields `undefined`, which a JavaScript bitwise operator treats as 0.
 */
module Bytes {

  /** `b[i]` as a bitwise operand: 0 past the end. */
  function At(b: seq<bv8>, i: nat): bv8 {
    if i < |b| then b[i] else 0
  }

  /** The accumulator after the first `n` indices of `a`. */
  function XorDiff(a: seq<bv8>, b: seq<bv8>, n: nat): bv8
    requires n <= |a|
  {
    if n == 0 then 0 else XorDiff(a, b, n - 1) | (a[n - 1] ^ At(b, n - 1))
  }

  lemma OrZero(x: bv8, y: bv8)
    ensures (x | y == 0) <==> (x == 0 && y == 0)
  {
  }

  lemma XorZero(x: bv8, y: bv8)
    ensures (x ^ y == 0) <==> x == y
  {
  }

  /** The accumulator is zero exactly when every scanned byte pair agrees. */
  lemma {:induction false} XorDiffZero(a: seq<bv8>, b: seq<bv8>, n: nat)
    requires n <= |a|
    ensures XorDiff(a, b, n) == 0 <==> forall i :: 0 <= i < n ==> a[i] == At(b, i)
  {
    if n > 0 {
      XorDiffZero(a, b, n - 1);
      OrZero(XorDiff(a, b, n - 1), a[n - 1] ^ At(b, n - 1));
      XorZero(a[n - 1], At(b, n - 1));
    }
  }

  /** For buffers of equal length, a zero accumulator over all of `a` means equal buffers. */
  lemma SameLengthDiff(a: seq<bv8>, b: seq<bv8>)
    requires |a| == |b|
    ensures XorDiff(a, b, |a|) == 0 <==> a == b
  {
    XorDiffZero(a, b, |a|);
    if XorDiff(a, b, |a|) == 0 {
      assert forall i :: 0 <= i < |a| ==> a[i] == b[i] by {
        forall i | 0 <= i < |a| ensures a[i] == b[i] {
          assert a[i] == At(b, i);
        }
      }
    }
  }
}
