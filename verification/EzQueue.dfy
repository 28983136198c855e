/** The growable ring buffer, refining a bounded first-in first-out sequence. */
module EzQueue {
  import opened Prelude

  // ---------------------------------------------------------------------------
  // The sequence it stands for
  // ---------------------------------------------------------------------------

  /** Contents, capacity, and the histories: what was accepted, what came out, and how many
      elements growth has copied. */
  datatype Fifo<T> = Fifo(items: seq<T>, cap: nat, accepted: seq<T>, out: seq<T>, copied: nat)

  /** Accepting an item grows a full queue first; that fails at the largest capacity or
      without memory. */
  ghost predicate Accepts<T>(q: Fifo<T>, allocOk: bool) {
    |q.items| < q.cap || (q.cap < UINT16_MAX && allocOk)
  }

  ghost function Put<T>(q: Fifo<T>, x: T, allocOk: bool): Fifo<T> {
    if !Accepts(q, allocOk) then q
    else
      var full := |q.items| == q.cap;
      Fifo(q.items + [x], if full then Grown(q.cap) else q.cap, q.accepted + [x], q.out,
           q.copied + if full then |q.items| else 0)
  }

  ghost function Take<T>(q: Fifo<T>): Fifo<T> {
    if q.items == [] then q else q.(items := q.items[1..], out := q.out + [q.items[0]])
  }

  /** Capacity and cost: after the first growth the copies stay below twice the items
      accepted, and unless the capacity was clamped it is the first one plus the copies. */
  ghost predicate FifoInv<T>(q: Fifo<T>, first: nat) {
    && 0 < first <= q.cap <= UINT16_MAX
    && |q.items| <= q.cap
    && q.out + q.items == q.accepted
    && (q.copied == 0 || q.copied < 2 * |q.accepted|)
    && (q.cap == first ==> q.copied == 0)
    && (first < q.cap < UINT16_MAX ==> q.copied + first == q.cap <= 2 * |q.accepted|)
  }

  lemma PutKeepsInv<T>(q: Fifo<T>, x: T, allocOk: bool, first: nat)
    requires FifoInv(q, first)
    ensures FifoInv(Put(q, x, allocOk), first)
  {
    if Accepts(q, allocOk) {
      assert q.out + (q.items + [x]) == q.accepted + [x];
      assert |q.items| <= |q.accepted|;
    }
  }

  lemma TakeKeepsInv<T>(q: Fifo<T>, first: nat)
    requires FifoInv(q, first)
    ensures FifoInv(Take(q), first)
  {
    if q.items != [] {
      assert q.items == [q.items[0]] + q.items[1..];
      assert q.out + [q.items[0]] + q.items[1..] == q.accepted;
    }
  }

  datatype Op<T> = Enqueue(x: T, allocOk: bool) | Dequeue

  ghost function Step<T>(q: Fifo<T>, op: Op<T>): Fifo<T> {
    match op
    case Enqueue(x, allocOk) => Put(q, x, allocOk)
    case Dequeue => Take(q)
  }

  ghost function Run<T>(q: Fifo<T>, ops: seq<Op<T>>): Fifo<T>
    decreases |ops|
  {
    if ops == [] then q else Run(Step(q, ops[0]), ops[1..])
  }

  lemma {:induction false} RunKeepsInv<T>(q: Fifo<T>, ops: seq<Op<T>>, first: nat)
    requires FifoInv(q, first)
    ensures FifoInv(Run(q, ops), first)
    decreases |ops|
  {
    if ops != [] {
      match ops[0] {
        case Enqueue(x, allocOk) =>
          PutKeepsInv(q, x, allocOk, first);
          RunKeepsInv(Put(q, x, allocOk), ops[1..], first);
        case Dequeue =>
          TakeKeepsInv(q, first);
          RunKeepsInv(Take(q), ops[1..], first);
      }
    }
  }

  /** Over any run of a fresh queue: what came out, then what is inside, is what was
      accepted, in order; once anything was accepted, all the growth together copied fewer
      than twice as many elements, the last clamped growth included; and with memory
      available the next item is refused exactly when 65535 are queued. */
  lemma FifoAndAmortisedCost<T>(first: nat, ops: seq<Op<T>>)
    requires 0 < first <= UINT16_MAX
    ensures var q := Run(Fifo([], first, [], [], 0), ops);
            && q.out + q.items == q.accepted
            && |q.items| <= q.cap <= UINT16_MAX
            && (q.accepted != [] ==> q.copied < 2 * |q.accepted|)
            && (q.accepted == [] ==> q.copied == 0)
            && (Accepts(q, true) <==> |q.items| < UINT16_MAX)
  {
    RunKeepsInv(Fifo([], first, [], [], 0), ops, first);
  }

  /** At no time are more than b items queued. */
  ghost predicate StaysWithin<T>(q: Fifo<T>, ops: seq<Op<T>>, b: nat)
    decreases |ops|
  {
    |q.items| <= b && (ops == [] || StaysWithin(Step(q, ops[0]), ops[1..], b))
  }

  /** The capacity never passes twice the items that had to fit before the last growth. */
  lemma {:induction false} CapacityBound<T>(q: Fifo<T>, ops: seq<Op<T>>, b: nat)
    requires 0 < b && |q.items| <= q.cap && 0 < q.cap && StaysWithin(q, ops, b)
    ensures Run(q, ops).cap <= if q.cap <= 2 * (b - 1) then 2 * (b - 1) else q.cap
    decreases |ops|
  {
    if ops != [] {
      var q1 := Step(q, ops[0]);
      assert |q1.items| <= q1.cap && (q1.cap == q.cap || (q.cap == |q.items| < |q1.items| && q1.cap <= 2 * q.cap));
      CapacityBound(q1, ops[1..], b);
    }
  }

  /** The queue of new connections starts at 16 and, under the connection cap, holds at most
      1025: its buffer never passes 2048 slots. */
  lemma NewConnectionsCapacity<T>(ops: seq<Op<T>>)
    requires StaysWithin(Fifo([], 16, [], [], 0), ops, MAX_CONNECTIONS + 1)
    ensures Run(Fifo([], 16, [], [], 0), ops).cap <= 2048
  {
    CapacityBound(Fifo([], 16, [], [], 0), ops, MAX_CONNECTIONS + 1);
  }

  // ---------------------------------------------------------------------------
  // The ring buffer
  // ---------------------------------------------------------------------------

  /** The index -1 stored in 16 bits: no element. */
  const NONE := 65535

  /** Reducing once is enough below twice the capacity. */
  lemma Wrap(x: nat, max: nat)
    requires 0 < max && x < 2 * max
    ensures x % max == if x < max then x else x - max
  {
    if x >= max {
      assert x == max * 1 + (x - max);
    }
  }

  /** The slot i places behind the head. */
  function Slot(head: nat, i: nat, max: nat): (r: nat)
    requires head < max && i <= max
    ensures r == if head + i < max then head + i else head + i - max
  {
    Wrap(head + i, max);
    (head + i) % max
  }

  lemma MoveFirst<T>(freed: seq<T>, s: seq<T>)
    requires s != []
    ensures (freed + [s[0]]) + s[1..] == freed + s
  {
    assert s == [s[0]] + s[1..];
  }

  class Queue<T(0)> {
    var buf: array<T>
    var numItems: nat
    var maxItems: nat
    var idxHead: nat
    var idxTail: nat
    ghost var accepted: seq<T>
    ghost var out: seq<T>
    ghost var copied: nat

    ghost predicate Valid()
      reads this
    {
      && buf.Length == maxItems && 0 < maxItems <= UINT16_MAX && numItems <= maxItems
      && (numItems == 0 ==> idxHead == NONE && idxTail == NONE)
      && (numItems > 0 ==> idxHead < maxItems && idxTail == Slot(idxHead, numItems - 1, maxItems))
    }

    /** The element at position i of the queue. */
    ghost function At(i: nat): T
      requires Valid() && i < numItems
      reads this, buf
    {
      buf[Slot(idxHead, i, maxItems)]
    }

    ghost function Contents(): (s: seq<T>)
      requires Valid()
      reads this, buf
      ensures |s| == numItems
    {
      seq(numItems, i requires 0 <= i < numItems && Valid() reads this, buf => At(i))
    }

    ghost function Abs(): Fifo<T>
      requires Valid()
      reads this, buf
    {
      Fifo(Contents(), maxItems, accepted, out, copied)
    }

    constructor (max: nat)
      requires 0 < max <= UINT16_MAX
      ensures Valid() && fresh(buf)
      ensures Abs() == Fifo([], max, [], [], 0)
    {
      buf := new T[max];
      maxItems, numItems, idxHead, idxTail := max, 0, NONE, NONE;
      accepted, out, copied := [], [], 0;
    }

    method Enqueue(x: T, allocOk: bool) returns (ok: bool)
      requires Valid()
      modifies this, buf
      ensures Valid() && (buf == old(buf) || fresh(buf))
      ensures ok <==> Accepts(old(Abs()), allocOk)
      ensures Abs() == Put(old(Abs()), x, allocOk)
    {
      if numItems == maxItems {
        ok := Resize(allocOk);
        if !ok {
          return;
        }
      }
      Append(x);
      ok := true;
    }

    /** The item goes to the slot behind the tail, which moves on by one. */
    method Append(x: T)
      requires Valid() && numItems < maxItems
      modifies `numItems, `idxHead, `idxTail, `accepted, buf
      ensures Valid() && Contents() == old(Contents()) + [x] && accepted == old(accepted) + [x]
    {
      ghost var before := Contents();
      if numItems == 0 {
        idxHead, idxTail := 0, 0;
      } else {
        Wrap(idxTail + 1, maxItems);
        idxTail := (idxTail + 1) % maxItems;
      }
      buf[idxTail] := x;
      numItems := numItems + 1;
      accepted := accepted + [x];
      assert Contents() == before + [x];
    }

    method Dequeue() returns (r: Option<T>)
      requires Valid()
      modifies this
      ensures Valid() && buf == old(buf)
      ensures r == if old(Contents()) == [] then None else Some(old(Contents())[0])
      ensures Abs() == Take(old(Abs()))
    {
      if numItems == 0 {
        return None;
      }
      ghost var before := Contents();
      r := Some(buf[idxHead]);
      assert buf[idxHead] == At(0);
      out := out + [buf[idxHead]];
      if numItems == 1 {
        idxHead, idxTail := NONE, NONE;
      } else {
        Wrap(idxHead + 1, maxItems);
        idxHead := (idxHead + 1) % maxItems;
      }
      numItems := numItems - 1;
      assert Contents() == before[1..];
    }

    /** Dequeue everything; the items go to the caller's free function in this order. */
    method Clear() returns (freed: seq<T>)
      requires Valid()
      modifies this
      ensures Valid() && buf == old(buf) && numItems == 0
      ensures freed == old(Contents())
    {
      freed := [];
      while 0 < numItems
        invariant Valid() && buf == old(buf)
        invariant freed + Contents() == old(Contents())
        decreases numItems
      {
        MoveFirst(freed, Contents());
        var r := Dequeue();
        freed := freed + [r.value];
      }
    }

    /** Move the contents to the front of a larger buffer, one element at a time. */
    method Resize(allocOk: bool) returns (ok: bool)
      requires Valid() && numItems == maxItems
      modifies this
      ensures Valid() && numItems == old(numItems) && accepted == old(accepted) && out == old(out)
      ensures ok <==> old(maxItems) < UINT16_MAX && allocOk
      ensures Contents() == old(Contents())
      ensures if ok then fresh(buf) && maxItems == Grown(old(maxItems)) && copied == old(copied) + numItems
              else buf == old(buf) && maxItems == old(maxItems) && copied == old(copied)
    {
      if maxItems == UINT16_MAX || !allocOk {
        return false;
      }
      ghost var before := Contents();
      var newMax := if UINT16_MAX / 2 < maxItems then UINT16_MAX else maxItems * 2;
      var newBuf := new T[newMax];
      for idx := 0 to numItems
        invariant fresh(newBuf) && unchanged(`buf, `numItems, `maxItems, `idxHead, `idxTail, `accepted, `out)
        invariant copied == old(copied) + idx
        invariant forall i :: 0 <= i < idx ==> newBuf[i] == before[i]
      {
        assert before[idx] == At(idx);
        assert (idxHead + idx) % maxItems == Slot(idxHead, idx, maxItems);
        newBuf[idx] := buf[(idxHead + idx) % maxItems];
        copied := copied + 1;
      }
      buf, maxItems := newBuf, newMax;
      idxHead, idxTail := 0, numItems - 1;
      assert Contents() == before;
      ok := true;
    }
  }
}
