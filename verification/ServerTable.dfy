/** The server's table of connections against the connection manager's: the two models of
    sweep, update and accept describe the same table. */
module ServerTable {
  import opened Prelude
  import opened ThreadPool
  import opened Server
  import opened ServerInvariant
  import ServerTheorems
  import ConnTable
  import Compaction

  // ---------------------------------------------------------------------------
  // Slots and pointers
  // ---------------------------------------------------------------------------

  /** The identity under which the manager knows what is in a slot. */
  ghost function Identity(slot: Slot): nat
    requires !slot.Empty?
  {
    match slot
    case Listener => 0
    case SignalPipe => 1
    case Conn(x) => x + 2
  }

  ghost predicate SameSlot(slot: Slot, ref: ConnTable.Ref) {
    if slot.Empty? then ref.Null? else ref.Conn? && ref.id == Identity(slot)
  }

  /** The slots show exactly these pointers, one by one. */
  ghost predicate Shows(slots: seq<Slot>, refs: seq<ConnTable.Ref>) {
    |slots| == |refs| && forall i :: 0 <= i < |slots| ==> SameSlot(slots[i], refs[i])
  }

  /** The server's table is the active part of the manager's, and they wait for the same
      connections. */
  ghost predicate SameTable(s: Server, t: ConnTable.Table) {
    t.numActive <= |t.conns| && Shows(s.table, ConnTable.Live(t)) && Shows(s.pending, t.pending)
  }

  lemma ShowsConcat(a: seq<Slot>, b: seq<Slot>, x: seq<ConnTable.Ref>, y: seq<ConnTable.Ref>)
    requires Shows(a, x) && Shows(b, y)
    ensures Shows(a + b, x + y)
  {
  }

  // ---------------------------------------------------------------------------
  // The sweep
  // ---------------------------------------------------------------------------

  /** A table with the slots of the contexts in `gone` emptied. */
  ghost function Emptied(table: seq<Slot>, gone: set<nat>): (r: seq<Slot>)
    ensures |r| == |table|
    ensures forall i :: 0 <= i < |r| ==> r[i] == if table[i].Conn? && table[i].x in gone then Empty else table[i]
  {
    seq(|table|, i requires 0 <= i < |table| => if table[i].Conn? && table[i].x in gone then Empty else table[i])
  }

  /** Every event but an update leaves the table as it was, with the slots of those contexts
      emptied that the event has destroyed. */
  lemma EventEmpties(s: Server, e: Event)
    requires CurrentInv(s) && SlotInv(s) && EventEnabled(s, e) && !(e.Main? && s.main.Update?)
    ensures EventNext(s, e).table == Emptied(s.table, s.ctxs.Keys - EventNext(s, e).ctxs.Keys)
  {
    var s' := EventNext(s, e);
    match e {
      case Worker(a, after) =>
        WorkerEventFrame(s, a, after);
      case Main(c) =>
        MainMovesTable(s, c);
        if Decides(s) {
          CurrentIsLive(s);
          assert s.ctxs.Keys - s'.ctxs.Keys == {s.main.x};
          OneSlot(s, s.main.k);
        }
    }
  }

  lemma EmptiedTwice(table: seq<Slot>, gone: set<nat>, more: set<nat>)
    ensures Emptied(Emptied(table, gone), more) == Emptied(table, gone + more)
  {
  }

  /** The main thread does not come to its update. */
  ghost predicate NoUpdate(s: Server, es: seq<Event>)
    requires Lawful(s, es)
    decreases |es|
  {
    es == [] || (!(es[0].Main? && s.main.Update?) && NoUpdate(EventNext(s, es[0]), es[1..]))
  }

  /** What is gone after a run and was in the table at its start went in its first step or
      later, and did not come back. */
  lemma GoneAdds(s: Server, s1: Server, s2: Server)
    requires SlotInv(s)
    requires forall x: nat :: x in s.ctxs && x !in s1.ctxs ==> x !in s2.ctxs
    ensures Emptied(s.table, (s.ctxs.Keys - s1.ctxs.Keys) + (s1.ctxs.Keys - s2.ctxs.Keys))
            == Emptied(s.table, s.ctxs.Keys - s2.ctxs.Keys)
  {
    forall i | 0 <= i < |s.table| && s.table[i].Conn? ensures s.table[i].x in s.ctxs {
      var x := s.table[i].x;
      assert (multiset(s.table) + multiset(s.pending))[Conn(x)] == if x in s.ctxs then 1 else 0;
      assert s.table[i] in multiset(s.table);
    }
  }

  /** Over any run up to the next update the table only loses the contexts that the run has
      destroyed, each from its own slot. */
  lemma {:induction false} RunEmpties(s: Server, es: seq<Event>)
    requires ServerInv(s) && Lawful(s, es) && NoUpdate(s, es)
    ensures Serve(s, es).table == Emptied(s.table, s.ctxs.Keys - Serve(s, es).ctxs.Keys)
    decreases |es|
  {
    if es != [] {
      var s1, rest := EventNext(s, es[0]), es[1..];
      EventKeepsInv(s, es[0]);
      EventEmpties(s, es[0]);
      RunEmpties(s1, rest);
      var s2 := Serve(s1, rest);
      EmptiedTwice(s.table, s.ctxs.Keys - s1.ctxs.Keys, s1.ctxs.Keys - s2.ctxs.Keys);
      forall x: nat | x in s.ctxs && x !in s1.ctxs ensures x !in s2.ctxs {
        ServerTheorems.EventKeepsFate(s, es[0], x);
        ServerTheorems.FateOverRuns(s1, rest, x);
      }
      GoneAdds(s, s1, s2);
    }
  }

  ghost predicate Sweeping(pc: MainPc) {
    pc.Sweep? || pc.SweepWant? || pc.SweepRead? || pc.SweepRelease? || pc.SweepAct?
  }

  /** The main thread does nothing but sweep, whatever the workers do. */
  ghost predicate OnlySweeps(s: Server, es: seq<Event>)
    requires Lawful(s, es)
    decreases |es|
  {
    es == [] || ((es[0].Main? ==> Sweeping(s.main)) && OnlySweeps(EventNext(s, es[0]), es[1..]))
  }

  lemma {:induction false} SweepKeepsPending(s: Server, es: seq<Event>)
    requires Lawful(s, es) && OnlySweeps(s, es)
    ensures NoUpdate(s, es) && Serve(s, es).pending == s.pending
    decreases |es|
  {
    if es != [] {
      SweepStepKeepsPending(s, es[0]);
      SweepKeepsPending(EventNext(s, es[0]), es[1..]);
    }
  }

  lemma SweepStepKeepsPending(s: Server, e: Event)
    requires EventEnabled(s, e) && (e.Main? ==> Sweeping(s.main))
    ensures EventNext(s, e).pending == s.pending
  {
    match e {
      case Main(c) => MainMovesTable(s, c);
      case Worker(a, after) => WorkerEventFrame(s, a, after);
    }
  }

  /** The same contexts, by the manager's identities. */
  ghost function Identities(gone: set<nat>): set<nat> {
    set x | x in gone :: x + 2
  }

  lemma EmptiedShows(table: seq<Slot>, live: seq<ConnTable.Ref>, gone: set<nat>)
    requires Shows(table, live)
    ensures var keep := ConnTable.Spared(live, Identities(gone));
            forall i :: 0 <= i < |table| ==>
              (Emptied(table, gone)[i].Empty? <==> live[i].Null? || !keep[i])
              && (!Emptied(table, gone)[i].Empty? ==> Emptied(table, gone)[i] == table[i])
  {
    var ids := Identities(gone);
    forall i | 0 <= i < |table| && table[i].Conn? ensures table[i].x in gone <==> table[i].x + 2 in ids {
    }
  }

  // ---------------------------------------------------------------------------
  // The update
  // ---------------------------------------------------------------------------

  /** Dropping empty slots picks what the sweep has spared. */
  lemma {:induction false} NonEmptyShowsPick(table: seq<Slot>, live: seq<ConnTable.Ref>, keep: seq<bool>)
    requires |table| == |live| == |keep|
    requires forall i :: 0 <= i < |table| ==>
               (table[i].Empty? <==> !keep[i]) && (keep[i] ==> SameSlot(table[i], live[i]))
    ensures Shows(NonEmpty(table), Compaction.Pick(live, keep))
  {
    if table != [] {
      var n := |table| - 1;
      NonEmptyShowsPick(table[..n], live[..n], keep[..n]);
      NonEmptySnoc(table[..n], table[n]);
      assert table == table[..n] + [table[n]];
    }
  }

  lemma {:induction false} NonEmptySnoc(table: seq<Slot>, slot: Slot)
    ensures NonEmpty(table + [slot]) == NonEmpty(table) + if slot.Empty? then [] else [slot]
  {
    if table == [] {
      assert table + [slot] == [slot] && [slot][1..] == [];
    } else {
      assert (table + [slot])[1..] == table[1..] + [slot];
      NonEmptySnoc(table[1..], slot);
    }
  }

  /** The sweep and the update of a round, told by the server and by the manager: if they show
      the same table before, they do after. */
  lemma UpdateRefines(table: seq<Slot>, pending: seq<Slot>, t: ConnTable.Table, gone: set<nat>,
                      mem: nat -> ConnTable.Memory)
    requires ConnTable.Good(t) && Shows(table, ConnTable.Live(t)) && Shows(pending, t.pending)
    requires ConnTable.Shape(ConnTable.Remaining(t, Identities(gone)))
    requires ConnTable.Roomy(ConnTable.Remaining(t, Identities(gone)), mem)
    requires ConnTable.AddedAll(ConnTable.Remaining(t, Identities(gone)), mem).1
    ensures var u := ConnTable.AddedAll(ConnTable.Remaining(t, Identities(gone)), mem).0;
            ConnTable.Good(u) && Shows(NonEmpty(Emptied(table, gone)) + pending, ConnTable.Live(u)) && u.pending == []
  {
    var live, ids := ConnTable.Live(t), Identities(gone);
    var keep := ConnTable.Spared(live, ids);
    ConnTable.SweepCompactLive(t, ids);
    ConnTable.AddedAllGood(ConnTable.Remaining(t, ids), mem);
    EmptiedShows(table, live, gone);
    NonEmptyShowsPick(Emptied(table, gone), live, keep);
    ShowsConcat(NonEmpty(Emptied(table, gone)), pending, Compaction.Pick(live, keep), t.pending);
  }

  /** From the start of a sweep to poll: if server and manager show the same table when the
      sweep begins, they do when the main thread has swept and updated, with any events of the
      workers in between; and the manager's round destroys exactly what the server's has. */
  lemma SweepAndUpdateRefine(s: Server, es: seq<Event>, c: Choice, t: ConnTable.Table, mem: nat -> ConnTable.Memory)
    requires ServerInv(s) && SameTable(s, t) && ConnTable.Good(t)
    requires Lawful(s, es) && OnlySweeps(s, es)
    requires Serve(s, es).main.Update? && MainEnabled(Serve(s, es), c) && c.ok
    requires var gone := Identities(s.ctxs.Keys - Serve(s, es).ctxs.Keys);
             && ConnTable.Shape(ConnTable.Remaining(t, gone))
             && ConnTable.Roomy(ConnTable.Remaining(t, gone), mem)
             && ConnTable.AddedAll(ConnTable.Remaining(t, gone), mem).1
    ensures var s' := MainNext(Serve(s, es), c);
            var u := ConnTable.AddedAll(ConnTable.Remaining(t, Identities(s.ctxs.Keys - s'.ctxs.Keys)), mem).0;
            s'.main == Poll && s'.ctxs == Serve(s, es).ctxs && SameTable(s', u) && ConnTable.Good(u)
  {
    var s1 := Serve(s, es);
    SweepKeepsPending(s, es);
    RunEmpties(s, es);
    MainMovesTable(s1, c);
    UpdateRefines(s.table, s.pending, t, s.ctxs.Keys - s1.ctxs.Keys, mem);
  }

  /** What poll may report for an entry: the events it asks for, and any hang-up. */
  ghost predicate MayReport(p: ConnTable.PollFd, r: Ready) {
    && p.fd != 0
    && (r.input ==> ConnTable.Asks(p, ConnTable.POLLIN))
    && (r.output ==> ConnTable.Asks(p, ConnTable.POLLOUT))
  }

  /** No report that the server model allows is ruled out by what the manager's entries ask for. */
  lemma AnyReportIsPossible(s: Server, t: ConnTable.Table, ready: seq<Ready>, j: nat)
    requires SameTable(s, t) && ConnTable.Good(t) && |ready| == |s.table| && j < |s.table|
    ensures j < |t.pfds| && MayReport(t.pfds[j], ready[j])
  {
    assert ConnTable.Live(t)[j] == t.conns[j];
    assert ConnTable.SlotsAgree(t.conns[j], t.pfds[j]);
  }

  /** Both start with the listener and the signal pipe waiting. */
  lemma StartsTheSame(workers: nat, listener: int, pipe: int)
    requires listener > 0 && pipe > 0
    ensures SameTable(InitServer(workers), ConnTable.InitTable(ConnTable.Conn(0, listener), ConnTable.Conn(1, pipe)))
    ensures ConnTable.Good(ConnTable.InitTable(ConnTable.Conn(0, listener), ConnTable.Conn(1, pipe)))
  {
    ConnTable.InitTableGood(ConnTable.Conn(0, listener), ConnTable.Conn(1, pipe));
  }

  // ---------------------------------------------------------------------------
  // The accept loop
  // ---------------------------------------------------------------------------

  /** One round of the accept loop of the server is one round of the manager's, with the same
      report: the loop goes on, or is left for a failure. */
  lemma AcceptRefines(s: Server, c: Choice, t: ConnTable.Table, fd: int)
    requires SameTable(s, t) && ConnTable.Good(t) && MainEnabled(s, c) && s.main.Accept? && fd > 0
    ensures var s' := MainNext(s, c);
            var a := ConnTable.Arrival(ConnTable.Conn(s.nextId + 2, fd), c.ok, !c.lost, true);
            var (t', ok) := if c.stop then (t, true) else ConnTable.Accepted(t, [a]);
            && SameTable(s', t')
            && (!c.stop && MAX_CONNECTIONS - |s.table| - |s.pending| + 1 != 0 ==>
                  s'.main == if ok then s.main else Stopped)
  {
    var s' := MainNext(s, c);
    var ref := ConnTable.Conn(s.nextId + 2, fd);
    var a := ConnTable.Arrival(ref, c.ok, !c.lost, true);
    assert |s.table| == t.numActive && |s.pending| == |t.pending|;
    var (t1, ok) := ConnTable.Created(t, a);
    assert [a][1..] == [];
    assert ConnTable.Accepted(t1, []) == (t1, true);
    ShowsConcat(s.pending, [Conn(s.nextId)], t.pending, [ref]);
  }
}
