/** Shared vocabulary: optional values, limits, connection states, sums over sequences. */
module Prelude {
  datatype Option<+T> = None | Some(value: T)

  const UINT16_MAX := 65535
  const MAX_CONNECTIONS := 1024

  /** Where a connection is in its cycle of request and reply. */
  datatype ConnState = ReadHeader | ReadContent | WriteResponse | PendingClose

  /** A capacity doubled, clamped to the largest 16-bit value. */
  function Grown(cap: nat): nat {
    if UINT16_MAX / 2 < cap then UINT16_MAX else cap * 2
  }

  /** A concatenation begins with the head of its first part. */
  lemma HeadOfConcat<T>(a: seq<T>, b: seq<T>)
    requires a != []
    ensures a + b == [a[0]] + (a[1..] + b)
  {
  }

  /** Sum of `f` over the elements of `s`. */
  ghost function Sum<T>(s: seq<T>, f: T -> nat): nat {
    if s == [] then 0 else Sum(s[..|s| - 1], f) + f(s[|s| - 1])
  }

  /** Changing one element changes the sum by the difference at that element. */
  lemma {:induction false} SumUpdate<T>(s: seq<T>, i: nat, e: T, f: T -> nat)
    requires i < |s|
    ensures Sum(s[i := e], f) == Sum(s, f) - f(s[i]) + f(e)
  {
    var n := |s| - 1;
    if i == n {
      assert s[i := e][..n] == s[..n];
    } else {
      SumUpdate(s[..n], i, e, f);
      assert s[i := e][..n] == s[..n][i := e];
    }
  }

  /** Elementwise bounds carry over to sums. */
  lemma {:induction false} SumMonotone<T>(s: seq<T>, t: seq<T>, f: T -> nat)
    requires |s| == |t|
    requires forall k :: 0 <= k < |s| ==> f(s[k]) <= f(t[k])
    ensures Sum(s, f) <= Sum(t, f)
  {
    if s != [] {
      var n := |s| - 1;
      SumMonotone(s[..n], t[..n], f);
      assert f(s[n]) <= f(t[n]);
    }
  }

  /** A sum is at least each of its terms. */
  lemma {:induction false} SumAtLeast<T>(s: seq<T>, i: nat, f: T -> nat)
    requires i < |s|
    ensures f(s[i]) <= Sum(s, f)
  {
    var n := |s| - 1;
    if i < n {
      SumAtLeast(s[..n], i, f);
    }
  }

  /** A positive sum has a positive term. */
  lemma {:induction false} SumPositive<T>(s: seq<T>, f: T -> nat) returns (i: nat)
    requires Sum(s, f) > 0
    ensures i < |s| && f(s[i]) > 0
  {
    var n := |s| - 1;
    if f(s[n]) > 0 {
      i := n;
    } else {
      i := SumPositive(s[..n], f);
    }
  }

  lemma {:induction false} SumAppend<T>(s: seq<T>, t: seq<T>, f: T -> nat)
    ensures Sum(s + t, f) == Sum(s, f) + Sum(t, f)
  {
    if t == [] {
      assert s + t == s;
    } else {
      var n := |t| - 1;
      assert (s + t)[..|s| + n] == s + t[..n];
      SumAppend(s, t[..n], f);
    }
  }

  /** A sum bounded term by term by `b` is at most `b` per element. */
  lemma {:induction false} SumBound<T>(s: seq<T>, f: T -> nat, b: nat)
    requires forall k :: 0 <= k < |s| ==> f(s[k]) <= b
    ensures Sum(s, f) <= b * |s|
  {
    if s != [] {
      var n := |s| - 1;
      SumBound(s[..n], f, b);
      assert f(s[n]) <= b;
      assert b * |s| == b * n + b;
    }
  }
}
