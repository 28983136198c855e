/** The growable array of pointers. */
module EzArray {
  import opened Prelude
  import opened Compaction

  /** A reallocated array: the old elements, then whatever the new memory holds. */
  ghost function Realloc<T>(s: seq<T>, cap: nat, junk: nat -> T): (r: seq<T>)
    requires |s| <= cap
    ensures |r| == cap
    ensures r[..|s|] == s
    ensures forall i :: |s| <= i < cap ==> r[i] == junk(i)
  {
    s + seq(cap - |s|, j requires 0 <= j < cap - |s| => junk(|s| + j))
  }

  /** Where an element differs from the sentinel. */
  ghost function NotSentinel<T>(s: seq<T>, sentinel: T): (p: seq<bool>)
    ensures |p| == |s|
    ensures forall i :: 0 <= i < |p| ==> (p[i] <==> s[i] != sentinel)
  {
    Pattern(s, x => x != sentinel)
  }

  /** The loop of CompactInPlace leaves an array in which it finds exactly the kept items, in
      front, and which it leaves as it is. */
  lemma CompactedOnce<T>(s: seq<T>, sentinel: T)
    ensures var p := NotSentinel(s, sentinel);
            var r := Compact(s, p, sentinel);
            && (forall i :: 0 <= i < |r| ==> (r[i] != sentinel <==> i < |Pick(s, p)|))
            && Pick(r, NotSentinel(r, sentinel)) == Pick(s, p)
            && Compact(r, NotSentinel(r, sentinel), sentinel) == r
  {
    CompactTwice(s, sentinel, x => x != sentinel);
  }

  class Arr<T(0,==)> {
    var buf: array<T>
    var numItems: nat
    var maxItems: nat

    ghost predicate Valid()
      reads this
    {
      buf.Length == maxItems && 0 < maxItems <= UINT16_MAX && numItems <= maxItems
    }

    constructor (max: nat, sentinel: T)
      requires 0 < max <= UINT16_MAX
      ensures Valid() && fresh(buf) && maxItems == max && numItems == 0
      ensures forall i :: 0 <= i < max ==> buf[i] == sentinel
    {
      buf := new T[max](_ => sentinel);
      maxItems, numItems := max, 0;
    }

    /** Append, growing a full array first. */
    method Push(x: T, allocOk: bool, junk: nat -> T) returns (ok: bool)
      requires Valid()
      modifies this, buf
      ensures Valid() && (buf == old(buf) || fresh(buf))
      ensures ok <==> old(numItems) < old(maxItems) || (old(numItems) < UINT16_MAX && allocOk)
      ensures ok ==> numItems == old(numItems) + 1
      ensures ok && old(numItems < maxItems) ==> buf[..] == old(buf[..])[old(numItems) := x]
      ensures ok && old(numItems == maxItems) ==>
                buf[..] == Realloc(old(buf[..]), Grown(old(maxItems)), junk)[old(numItems) := x]
      ensures !ok ==> numItems == old(numItems) && buf[..] == old(buf[..])
    {
      if numItems == maxItems {
        ok := Resize(allocOk, junk);
        if !ok {
          return;
        }
      }
      buf[numItems] := x;
      numItems := numItems + 1;
      ok := true;
    }

    method Resize(allocOk: bool, junk: nat -> T) returns (ok: bool)
      requires Valid() && numItems == maxItems
      modifies this
      ensures Valid() && numItems == old(numItems)
      ensures ok <==> old(numItems) < UINT16_MAX && allocOk
      ensures if ok then fresh(buf) && buf[..] == Realloc(old(buf[..]), Grown(old(maxItems)), junk) && numItems < maxItems
              else buf == old(buf)
    {
      if numItems == UINT16_MAX || !allocOk {
        return false;
      }
      var newMax := if UINT16_MAX / 2 < numItems then UINT16_MAX else numItems * 2;
      var tmp := new T[newMax](i requires 0 <= i reads this, buf => if i < buf.Length then buf[i] else junk(i));
      ghost var before := buf[..];
      buf, maxItems := tmp, newMax;
      assert buf[..] == Realloc(before, Grown(old(maxItems)), junk);
      ok := true;
    }

    /** Overwrite an item; refused outside the items. */
    method SetAt(idx: nat, x: T) returns (ok: bool)
      requires Valid()
      modifies buf
      ensures ok <==> idx < numItems
      ensures buf[..] == if ok then old(buf[..])[idx := x] else old(buf[..])
    {
      if idx >= numItems {
        return false;
      }
      buf[idx] := x;
      ok := true;
    }

    /** Move the items that differ from the sentinel to the front, in place. The scan runs
        over the whole capacity, not only the items. */
    method CompactInPlace(sentinel: T)
      requires Valid()
      modifies `numItems, buf
      ensures Valid()
      ensures var p := NotSentinel(old(buf[..]), sentinel);
              && buf[..] == Compact(old(buf[..]), p, sentinel)
              && numItems == |Pick(old(buf[..]), p)|
    {
      var a := buf;
      ghost var s := a[..];
      ghost var p := NotSentinel(s, sentinel);
      ghost var r := s;
      var write := 0;
      for read := 0 to maxItems
        invariant unchanged(`buf, `maxItems)
        invariant a[..] == r && Compacting(s, p, sentinel, r, read, write)
      {
        CompactingStep(s, p, sentinel, r, read, write);
        if a[read] != sentinel {
          if write != read {
            a[write] := a[read];
            a[read] := sentinel;
            r := r[write := r[read]][read := sentinel];
          }
          write := write + 1;
        }
      }
      CompactingDone(s, p, sentinel, r, write);
      numItems := write;
    }
  }
}
