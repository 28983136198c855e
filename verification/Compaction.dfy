/** In-place stable compaction: what both of the server's compaction loops compute. */
module Compaction {
  /** The elements of s where p holds, in order. */
  function Pick<T>(s: seq<T>, p: seq<bool>): (r: seq<T>)
    requires |s| == |p|
    ensures |r| <= |s|
  {
    if s == [] then []
    else
      var n := |s| - 1;
      Pick(s[..n], p[..n]) + if p[n] then [s[n]] else []
  }

  /** The positions where p holds, in order. */
  function Positions(p: seq<bool>): (r: seq<nat>)
    ensures |r| <= |p|
    ensures forall j :: 0 <= j < |r| ==> r[j] < |p| && p[r[j]]
  {
    if p == [] then []
    else
      var n := |p| - 1;
      Positions(p[..n]) + if p[n] then [n] else []
  }

  /** Kept elements move to the front; of the rest, those moved from are cleared and those
      that were empty stay as they were. */
  function Compact<T>(s: seq<T>, p: seq<bool>, zero: T): (r: seq<T>)
    requires |s| == |p|
    ensures |r| == |s|
  {
    var kept := Pick(s, p);
    kept + seq(|s| - |kept|, j requires 0 <= j < |s| - |kept| => if p[|kept| + j] then zero else s[|kept| + j])
  }

  /** The state of either loop when it has read `read` elements of s and written `write`. */
  ghost predicate Compacting<T>(s: seq<T>, p: seq<bool>, zero: T, r: seq<T>, read: nat, write: nat) {
    && |s| == |p| == |r| && read <= |s|
    && write == |Pick(s[..read], p[..read])|
    && (forall i :: 0 <= i < write ==> r[i] == Pick(s[..read], p[..read])[i])
    && (forall i :: write <= i < read ==> r[i] == if p[i] then zero else s[i])
    && (forall i :: read <= i < |s| ==> r[i] == s[i])
  }

  lemma PickNext<T>(s: seq<T>, p: seq<bool>, n: nat)
    requires n < |s| == |p|
    ensures Pick(s[..n + 1], p[..n + 1]) == Pick(s[..n], p[..n]) + if p[n] then [s[n]] else []
  {
    assert s[..n + 1][..n] == s[..n] && p[..n + 1][..n] == p[..n];
  }

  /** One round of either loop: a kept element moves down to the next free place. */
  lemma {:induction false} CompactingStep<T>(s: seq<T>, p: seq<bool>, zero: T, r: seq<T>, read: nat, write: nat)
    requires Compacting(s, p, zero, r, read, write) && read < |s|
    ensures write <= read
    ensures !p[read] ==> Compacting(s, p, zero, r, read + 1, write)
    ensures p[read] && write == read ==> Compacting(s, p, zero, r, read + 1, write + 1)
    ensures p[read] && write != read ==> Compacting(s, p, zero, r[write := r[read]][read := zero], read + 1, write + 1)
  {
    PickNext(s, p, read);
  }

  lemma {:induction false} CompactingDone<T>(s: seq<T>, p: seq<bool>, zero: T, r: seq<T>, write: nat)
    requires Compacting(s, p, zero, r, |s|, write)
    ensures r == Compact(s, p, zero) && write == |Pick(s, p)|
  {
    assert s[..|s|] == s && p[..|s|] == p;
  }

  /** Compaction is a stable filter: the j-th kept element comes from the j-th kept position,
      positions increase, and none where p holds is missed. The positions depend on the
      pattern alone, so two arrays with the same pattern are permuted alike. */
  lemma {:induction false} StableFilter<T>(s: seq<T>, p: seq<bool>)
    requires |s| == |p|
    ensures |Pick(s, p)| == |Positions(p)|
    ensures forall j :: 0 <= j < |Pick(s, p)| ==> Pick(s, p)[j] == s[Positions(p)[j]]
    ensures forall i, j :: 0 <= i < j < |Positions(p)| ==> Positions(p)[i] < Positions(p)[j]
    ensures forall i :: 0 <= i < |p| && p[i] ==> i in Positions(p)
  {
    if s != [] {
      var n := |s| - 1;
      StableFilter(s[..n], p[..n]);
      forall i | 0 <= i < |p| && p[i] ensures i in Positions(p) {
        if i < n {
          assert p[..n][i];
        }
      }
    }
  }

  lemma {:induction false} PickAll<T>(s: seq<T>, p: seq<bool>)
    requires |s| == |p|
    ensures (forall i :: 0 <= i < |p| ==> p[i]) ==> Pick(s, p) == s
    ensures (forall i :: 0 <= i < |p| ==> !p[i]) ==> Pick(s, p) == []
  {
    if s != [] {
      var n := |s| - 1;
      PickAll(s[..n], p[..n]);
      if forall i :: 0 <= i < |p| ==> p[i] {
        assert forall i :: 0 <= i < n ==> p[..n][i] == p[i];
        assert s == s[..n] + [s[n]];
      }
    }
  }

  /** Nothing is picked behind the first n elements if nothing is kept there. */
  lemma {:induction false} PickFront<T>(s: seq<T>, p: seq<bool>, n: nat)
    requires n <= |s| == |p|
    requires forall i :: n <= i < |p| ==> !p[i]
    ensures Pick(s, p) == Pick(s[..n], p[..n])
  {
    var m := |s| - 1;
    if n == |s| {
      assert s[..n] == s && p[..n] == p;
    } else {
      PickFront(s[..m], p[..m], n);
      assert s[..m][..n] == s[..n] && p[..m][..n] == p[..n];
    }
  }

  /** Only the elements that are kept matter. */
  lemma {:induction false} PickSame<T>(s: seq<T>, t: seq<T>, p: seq<bool>)
    requires |s| == |t| == |p|
    requires forall i :: 0 <= i < |s| && p[i] ==> s[i] == t[i]
    ensures Pick(s, p) == Pick(t, p)
  {
    if s != [] {
      var n := |s| - 1;
      assert forall i :: 0 <= i < n && p[..n][i] ==> s[..n][i] == t[..n][i];
      PickSame(s[..n], t[..n], p[..n]);
    }
  }

  /** Where a test for emptiness finds something. */
  ghost function Pattern<T>(s: seq<T>, used: T -> bool): (p: seq<bool>)
    ensures |p| == |s|
    ensures forall i :: 0 <= i < |p| ==> (p[i] <==> used(s[i]))
  {
    seq(|s|, i requires 0 <= i < |s| => used(s[i]))
  }

  /** What is picked by a test passes it. */
  lemma {:induction false} PickedAreUsed<T>(s: seq<T>, p: seq<bool>, used: T -> bool)
    requires |s| == |p| && forall i :: 0 <= i < |p| ==> (p[i] <==> used(s[i]))
    ensures forall j :: 0 <= j < |Pick(s, p)| ==> used(Pick(s, p)[j])
  {
    if s != [] {
      var n := |s| - 1;
      PickedAreUsed(s[..n], p[..n], used);
    }
  }

  /** After a compaction by a test that takes zero for empty, the test finds exactly the kept
      elements, in front; and compacting again changes nothing. */
  lemma {:induction false} CompactTwice<T>(s: seq<T>, zero: T, used: T -> bool)
    requires !used(zero)
    ensures var p := Pattern(s, used);
            var r := Compact(s, p, zero);
            && (forall i :: 0 <= i < |r| ==> (used(r[i]) <==> i < |Pick(s, p)|))
            && Pick(r, Pattern(r, used)) == Pick(s, p)
            && Compact(r, Pattern(r, used), zero) == r
  {
    var p := Pattern(s, used);
    var r, k := Compact(s, p, zero), |Pick(s, p)|;
    PickedAreUsed(s, p, used);
    assert r[..k] == Pick(s, p);
    PickKeptFront(r, Pattern(r, used), k);
    assert Compact(r, Pattern(r, used), zero) == r;
  }

  /** If exactly the first k elements are kept, they are what is picked. */
  lemma {:induction false} PickKeptFront<T>(s: seq<T>, p: seq<bool>, k: nat)
    requires k <= |s| == |p| && forall i :: 0 <= i < |p| ==> (p[i] <==> i < k)
    ensures Pick(s, p) == s[..k]
  {
    PickFront(s, p, k);
    PickAll(s[..k], p[..k]);
  }
}
