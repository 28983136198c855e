/** The connection manager: the table's two arrays and its queue, updated in place. */
module ConnMgr {
  import opened Prelude
  import opened Compaction
  import opened ConnTable
  import EzArray
  import EzQueue

  class Manager {
    const conns: EzArray.Arr<Ref>
    var pfds: array<PollFd>
    const newConns: EzQueue.Queue<Ref>
    var maxConns: nat
    var numActive: nat

    ghost predicate Valid()
      reads this, conns, newConns
    {
      && conns.Valid() && newConns.Valid()
      && pfds.Length == maxConns
      && conns.buf as object != newConns.buf && pfds as object != conns.buf && pfds as object != newConns.buf
    }

    /** Everything the manager may write. */
    ghost function Repr(): set<object>
      reads this, conns, newConns
    {
      {this, conns, conns.buf, pfds, newConns, newConns.buf}
    }

    ghost function Abs(): Table
      requires Valid()
      reads this, conns, newConns, Repr()
    {
      Table(conns.buf[..], conns.numItems, pfds[..], maxConns, numActive, newConns.Contents(), newConns.maxItems)
    }

    constructor (initial: nat)
      requires 0 < initial <= UINT16_MAX
      ensures Valid() && fresh(Repr())
      ensures Abs() == Table(seq(initial, _ => Null), 0, seq(initial, _ => ZERO), initial, 0, [], initial)
    {
      conns := new EzArray.Arr(initial, Null);
      pfds := new PollFd[initial](_ => ZERO);
      newConns := new EzQueue.Queue(initial);
      maxConns, numActive := initial, 0;
    }

    /** Compact the poll entries in place, testing the descriptor. */
    method CompactPfds()
      requires pfds.Length == maxConns
      modifies `numActive, pfds
      ensures var q := Used(old(pfds[..]));
              && pfds[..] == Compact(old(pfds[..]), q, ZERO)
              && numActive == |Pick(old(pfds[..]), q)|
    {
      var a := pfds;
      ghost var s := a[..];
      ghost var q := Used(s);
      ghost var r := s;
      var write := 0;
      for read := 0 to maxConns
        invariant unchanged(`pfds, `maxConns)
        invariant a[..] == r && Compacting(s, q, ZERO, r, read, write)
      {
        CompactingStep(s, q, ZERO, r, read, write);
        if a[read].fd != 0 {
          if write != read {
            a[write] := a[read];
            a[read] := ZERO;
            r := r[write := r[read]][read := ZERO];
          }
          write := write + 1;
        }
      }
      CompactingDone(s, q, ZERO, r, write);
      numActive := write;
    }

    /** Drop the closed connections from both arrays. */
    method RemoveClosed()
      requires Valid()
      modifies this, conns, conns.buf, pfds
      ensures Valid() && Repr() == old(Repr())
      ensures Abs() == Compacted(old(Abs()))
    {
      conns.CompactInPlace(Null);
      CompactPfds();
    }

    /** Destroy the connections in `dead` and empty their slots, poll entry after context. */
    method Sweep(dead: set<nat>)
      requires Valid() && Shape(Abs())
      modifies conns.buf, pfds
      ensures Valid() && Repr() == old(Repr())
      ensures Abs() == Swept(old(Abs()), dead)
    {
      ghost var t := Abs();
      for k := 0 to numActive
        invariant Valid()
        invariant forall i :: 0 <= i < |t.conns| ==> conns.buf[i] == if i < k && Doomed(t, dead, i) then Null else t.conns[i]
        invariant forall i :: 0 <= i < |t.pfds| ==> pfds[i] == if i < k && Doomed(t, dead, i) then ZERO else t.pfds[i]
      {
        var ctx := conns.buf[k];
        if ctx.Conn? && ctx.id in dead {
          var ok := conns.SetAt(k, Null);
          if ok {
            pfds[k] := ZERO;
          }
        }
      }
    }

    /** Put a descriptor at the end of the poll entries, growing them if they are full. */
    method AddToPollfd(fd: int, allocOk: bool, junk: nat -> PollFd) returns (ok: bool)
      requires pfds.Length == maxConns && numActive <= maxConns <= UINT16_MAX && 0 < maxConns
      modifies `pfds, pfds
      ensures ok <==> numActive < maxConns || (numActive < UINT16_MAX && allocOk)
      ensures ok ==> pfds[..] == Put(old(pfds[..]), numActive, PollFd(fd, EVENTS, 0), junk)
      ensures pfds == old(pfds) || fresh(pfds)
      ensures !ok ==> pfds[..] == old(pfds[..])
    {
      if numActive == maxConns {
        if numActive == UINT16_MAX || !allocOk {
          return false;
        }
        var newMax := if UINT16_MAX / 2 < numActive then UINT16_MAX else numActive * 2;
        ghost var before := pfds[..];
        var tmp := new PollFd[newMax](i requires 0 <= i reads this, pfds => if i < pfds.Length then pfds[i] else junk(i));
        pfds := tmp;
        assert pfds[..] == EzArray.Realloc(before, newMax, junk);
      }
      pfds[numActive] := PollFd(fd, EVENTS, 0);
      ok := true;
    }

    /** Move the oldest new connection into the context array. */
    method TakeNext(m: Memory) returns (next: Ref, ok: bool)
      requires Valid() && Shape(Abs()) && Abs().pending != []
      modifies conns, conns.buf, newConns, newConns.buf
      ensures Valid() && pfds == old(pfds) && next == old(Abs()).pending[0]
      ensures forall o :: o in Repr() ==> o in old(Repr()) || fresh(o)
      ensures ok <==> PushSucceeds(old(Abs()), m)
      ensures var t := old(Abs());
              Abs() == if ok then t.(conns := Put(t.conns, t.numItems, next, m.connsJunk), numItems := t.numItems + 1,
                                     pending := t.pending[1..])
                       else t.(pending := t.pending[1..])
    {
      ghost var t := Abs();
      var first := newConns.Dequeue();
      assert first == Some(t.pending[0]);
      next := first.value;
      ok := conns.Push(next, m.connsOk, m.connsJunk);
    }

    /** Move the oldest new connection into both arrays. */
    method AddOne(m: Memory) returns (ok: bool)
      requires Valid() && Shape(Abs()) && Abs().pending != []
      modifies Repr()
      ensures ok <==> AddSucceeds(old(Abs()), m)
      ensures Valid()
      ensures forall o :: o in Repr() ==> o in old(Repr()) || fresh(o)
      ensures Abs() == if ok then Added(old(Abs()), m) else Dropped(old(Abs()), m)
    {
      var next;
      next, ok := TakeNext(m);
      if !ok {
        return;
      }
      ok := AddToPollfd(next.fd, m.pfdsOk, m.pfdsJunk);
      if !ok {
        return;
      }
      assert |pfds[..]| == |conns.buf[..]| == conns.maxItems;
      maxConns := conns.maxItems;
      numActive := numActive + 1;
    }

    /** One insertion within AddNew: what AddNew has still to reach stays the same. */
    method AddNext(mem: nat -> Memory) returns (ok: bool)
      requires Valid() && Shape(Abs()) && Abs().pending != []
      modifies Repr()
      ensures Valid()
      ensures forall o :: o in Repr() ==> o in old(Repr()) || fresh(o)
      ensures ok ==> Shape(Abs()) && AddedAll(Abs(), mem) == AddedAll(old(Abs()), mem)
      ensures !ok ==> AddedAll(old(Abs()), mem) == (Abs(), false)
      ensures ok ==> newConns.numItems < old(newConns.numItems)
    {
      ghost var t := Abs();
      ok := AddOne(mem(newConns.numItems - 1));
      assert ok ==> |Abs().pending| == |t.pending| - 1;
    }

    /** Move all new connections into the table, until an insertion fails. */
    method AddNew(mem: nat -> Memory) returns (ok: bool)
      requires Valid() && Shape(Abs())
      modifies Repr()
      ensures Valid()
      ensures forall o :: o in Repr() ==> o in old(Repr()) || fresh(o)
      ensures (Abs(), ok) == AddedAll(old(Abs()), mem)
    {
      ghost var goal := AddedAll(Abs(), mem);
      ok := true;
      while newConns.numItems != 0
        invariant Valid()
        invariant forall o :: o in Repr() ==> o in old(Repr()) || fresh(o)
        invariant ok && Shape(Abs()) && AddedAll(Abs(), mem) == goal
        decreases newConns.numItems
      {
        ok := AddNext(mem);
        if !ok {
          return;
        }
      }
    }

    /** Drop the closed connections, then take in the new ones. */
    method Update(mem: nat -> Memory) returns (ok: bool)
      requires Valid() && Shape(Compacted(Abs()))
      modifies Repr()
      ensures Valid()
      ensures forall o :: o in Repr() ==> o in old(Repr()) || fresh(o)
      ensures (Abs(), ok) == AddedAll(Compacted(old(Abs())), mem)
    {
      RemoveClosed();
      ok := AddNew(mem);
    }

    /** Create a context for an inbound connection and queue it. Without memory for a buffer
        the result is still that of the initialised mutex, success. */
    method CreateConn(a: Arrival) returns (ok: bool)
      requires Valid()
      modifies newConns, newConns.buf
      ensures Valid()
      ensures newConns.buf == old(newConns.buf) || fresh(newConns.buf)
      ensures (Abs(), ok) == Created(old(Abs()), a)
    {
      ok := false;
      if !a.structOk {
        return;
      }
      ok := true;
      if !a.buffersOk {
        return;
      }
      ok := newConns.Enqueue(a.ref, a.queueOk);
    }

    /** Accept until nobody waits or the cap is met, tested by equality, or a creation reports
        failure. */
    method Accept(arrivals: seq<Arrival>) returns (ok: bool)
      requires Valid()
      modifies newConns, newConns.buf
      ensures Valid()
      ensures newConns.buf == old(newConns.buf) || fresh(newConns.buf)
      ensures (Abs(), ok) == Accepted(old(Abs()), arrivals)
    {
      ghost var goal := Accepted(Abs(), arrivals);
      var n := 0;
      while n < |arrivals| && MAX_CONNECTIONS - numActive - newConns.numItems + 1 != 0
        invariant n <= |arrivals| && Valid()
        invariant newConns.buf == old(newConns.buf) || fresh(newConns.buf)
        invariant pfds == old(pfds) && conns.buf == old(conns.buf)
        invariant Accepted(Abs(), arrivals[n..]) == goal
        decreases |arrivals| - n
      {
        assert arrivals[n..][1..] == arrivals[n + 1..];
        ok := CreateConn(arrivals[n]);
        if !ok {
          return;
        }
        n := n + 1;
      }
      ok := true;
    }

    /** One round of the main loop: sweep, update, and accept. */
    method RunRound(r: Round) returns (ok: bool)
      requires Valid() && Shape(Abs()) && Shape(Remaining(Abs(), r.dead))
      modifies Repr()
      ensures Valid()
      ensures forall o :: o in Repr() ==> o in old(Repr()) || fresh(o)
      ensures var (u, added) := AddedAll(Remaining(old(Abs()), r.dead), r.mem);
              (Abs(), ok) == if added then Accepted(u, r.arrivals) else (u, false)
    {
      Sweep(r.dead);
      ok := Update(r.mem);
      if ok {
        ok := Accept(r.arrivals);
      }
    }
  }
}
