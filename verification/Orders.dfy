/** What a report of poll makes the main thread do: every slot is served, in order. */
module Orders {
  import opened Prelude
  import opened ThreadPool
  import opened PoolInvariant
  import opened Server
  import opened ServerInvariant
  import opened ServerTheorems
  import opened ServerDestroys
  import Schedules

  // ---------------------------------------------------------------------------
  // What a report asks for
  // ---------------------------------------------------------------------------

  /** Submit a task for a context, or mark it closing. */
  datatype Order = Push(fn: Fn, x: nat) | MarkClosing(x: nat)

  ghost function InputOrders(slot: Slot, r: Ready): seq<Order> {
    if slot.Conn? && r.input then [Push(IoRead, slot.x)] else []
  }

  ghost function HangUpOrders(slot: Slot, r: Ready): seq<Order> {
    if slot.Conn? && r.hangup then [MarkClosing(slot.x)] else []
  }

  ghost function OutputOrders(slot: Slot, r: Ready): seq<Order> {
    if slot.Conn? && r.output then [Push(IoSend, slot.x)] else []
  }

  /** What a report asks for from slot k on: for each connection a read if there is input, a
      closing mark after a hang-up, a send if output is possible. Input on the signal pipe ends
      the round. */
  ghost function OrdersFrom(table: seq<Slot>, ready: seq<Ready>, k: nat): seq<Order>
    requires |ready| == |table|
    decreases |table| - k
  {
    if k >= |table| || (table[k].SignalPipe? && ready[k].input) then []
    else InputOrders(table[k], ready[k]) + AfterInput(table, ready, k)
  }

  ghost function AfterInput(table: seq<Slot>, ready: seq<Ready>, k: nat): seq<Order>
    requires |ready| == |table| && k < |table|
    decreases |table| - k, 0
  {
    HangUpOrders(table[k], ready[k]) + (OutputOrders(table[k], ready[k]) + OrdersFrom(table, ready, k + 1))
  }

  ghost function AfterHangUp(table: seq<Slot>, ready: seq<Ready>, k: nat): seq<Order>
    requires |ready| == |table| && k < |table|
  {
    OutputOrders(table[k], ready[k]) + OrdersFrom(table, ready, k + 1)
  }

  ghost function AfterIo(table: seq<Slot>, ready: seq<Ready>, k: nat, fn: Fn): seq<Order>
    requires |ready| == |table| && k < |table|
  {
    if fn.IoRead? then AfterInput(table, ready, k) else OrdersFrom(table, ready, k + 1)
  }

  /** What is still to be done of a report, with the main thread at `pc` and `c` in the pool. */
  ghost function Due(table: seq<Slot>, ready: seq<Ready>, pc: MainPc, c: ClientPc): seq<Order>
    requires Dispatching(pc) ==> |ready| == |table|
    requires Dispatching(pc) && !pc.Dispatch? ==> SlotOf(pc) < |table|
  {
    match pc
    case Dispatch(k) => OrdersFrom(table, ready, k)
    case Accept(k) => AfterInput(table, ready, k)
    case HupTest(k) => AfterInput(table, ready, k)
    case HupWant(k, x) => [MarkClosing(x)] + AfterHangUp(table, ready, k)
    case HupHold(k, x) => [MarkClosing(x)] + AfterHangUp(table, ready, k)
    case HupRelease(k, _) => AfterHangUp(table, ready, k)
    case OutTest(k) => AfterHangUp(table, ready, k)
    case IoWant(k, x, fn) => [Push(fn, x)] + AfterIo(table, ready, k, fn)
    case IoHold(k, x, fn) => [Push(fn, x)] + AfterIo(table, ready, k, fn)
    case IoReserved(k, x, fn) => [Push(fn, x)] + AfterIo(table, ready, k, fn)
    case IoSubmit(k, x, fn) =>
      (if c.SubWant? || c.SubPush? then [Push(fn, x)] else []) + AfterIo(table, ready, k, fn)
    case IoRelease(k, _, fn, _) => AfterIo(table, ready, k, fn)
    case _ => []
  }

  ghost function SlotOf(pc: MainPc): nat {
    match pc
    case Accept(k) => k
    case HupTest(k) => k
    case HupWant(k, _) => k
    case HupHold(k, _) => k
    case HupRelease(k, _) => k
    case OutTest(k) => k
    case IoWant(k, _, _) => k
    case IoHold(k, _, _) => k
    case IoReserved(k, _, _) => k
    case IoSubmit(k, _, _) => k
    case IoRelease(k, _, _, _) => k
    case _ => 0
  }

  /** The order that an event carries out: a task appears in the history of the pool, or the
      main thread holds the context of a hang-up and marks it. */
  ghost function Carried(s: Server, e: Event): seq<Order>
    requires EventEnabled(s, e)
  {
    var before, after := s.pool.h.pushed, EventNext(s, e).pool.h.pushed;
    if |after| > |before| then [Push(after[|after| - 1].fn, after[|after| - 1].ctx)]
    else if e.Main? && s.main.HupHold? then [MarkClosing(s.main.x)]
    else []
  }

  // ---------------------------------------------------------------------------
  // One step
  // ---------------------------------------------------------------------------

  lemma DispatchInputOrders(s: Server, c: Choice, p: ClientPc)
    requires CurrentInv(s) && |s.pool.c| == 1 && s.main.Dispatch?
    ensures var s' := MainEffect(s, c);
            && s'.table == s.table && s'.ready == s.ready && CurrentInv(s') && (Dispatching(s'.main) || s'.main.Loop?)
            && Due(s'.table, s'.ready, s'.main, p) == Due(s.table, s.ready, s.main, p)
  {
  }

  lemma DispatchAcceptOrders(s: Server, c: Choice, p: ClientPc)
    requires CurrentInv(s) && |s.pool.c| == 1 && c.ok
    requires s.main.Accept?
    ensures var s' := MainEffect(s, c);
            && s'.table == s.table && s'.ready == s.ready && CurrentInv(s') && Dispatching(s'.main)
            && Due(s'.table, s'.ready, s'.main, p) == Due(s.table, s.ready, s.main, p)
  {
  }

  lemma DispatchTestOrders(s: Server, c: Choice, p: ClientPc)
    requires CurrentInv(s) && |s.pool.c| == 1
    requires s.main.HupTest? || s.main.OutTest?
    ensures var s' := MainEffect(s, c);
            && s'.table == s.table && s'.ready == s.ready && CurrentInv(s') && Dispatching(s'.main)
            && Due(s'.table, s'.ready, s'.main, p) == Due(s.table, s.ready, s.main, p)
  {
  }

  lemma DispatchHupOrders(s: Server, c: Choice, p: ClientPc)
    requires CurrentInv(s) && |s.pool.c| == 1 && (s.main.HupWant? || s.main.HupHold? || s.main.HupRelease?)
    ensures var s' := MainEffect(s, c);
            && s'.table == s.table && s'.ready == s.ready && CurrentInv(s') && Dispatching(s'.main)
            && (if s.main.HupHold? then [MarkClosing(s.main.x)] else []) + Due(s'.table, s'.ready, s'.main, p)
                == Due(s.table, s.ready, s.main, p)
  {
  }

  lemma DispatchIoOrders(s: Server, c: Choice, p: ClientPc)
    requires CurrentInv(s) && |s.pool.c| == 1 && c.ok && AtIo(s.main) && !s.main.IoSubmit? && !Failing(s)
    requires s.main.IoReserved? ==> p.SubWant?
    ensures var s' := MainEffect(s, c);
            && s'.table == s.table && s'.ready == s.ready && CurrentInv(s') && Dispatching(s'.main)
            && Due(s'.table, s'.ready, s'.main, p) == Due(s.table, s.ready, s.main, s.pool.c[0])
  {
  }

  /** Only a push inside submit adds a task to the history of the pool. */
  lemma MainPushes(s: Server, c: Choice)
    requires SyncInv(s) && MainEnabled(s, c)
    ensures var before, after := s.pool.h.pushed, MainNext(s, c).pool.h.pushed;
            if s.main.IoSubmit? && s.pool.c[0].SubPush? && c.ok then
              after == before + [Task(|before|, s.main.fn, s.main.x)]
            else after == before
  {
    PoolPartKind(s, c);
    var part := PoolPart(s, c);
    if part.Some? && part.value.ClientStep? {
      ClientMovesTask(s.pool, 0, c.wake, c.ok);
    } else if part.Some? {
      CallMoves(s.pool, 0, part.value.call);
    }
  }

  lemma SubmitOrders(s: Server, c: Choice)
    requires SyncInv(s) && CurrentInv(s) && MainEnabled(s, c) && c.ok && s.main.IoSubmit? && !Failing(s)
    ensures var s' := MainNext(s, c);
            && s'.table == s.table && s'.ready == s.ready && |s'.pool.c| == 1 && CurrentInv(s') && Dispatching(s'.main)
            && (if s.pool.c[0].SubPush? then [Push(s.main.fn, s.main.x)] else [])
                + Due(s'.table, s'.ready, s'.main, s'.pool.c[0]) == Due(s.table, s.ready, s.main, s.pool.c[0])
  {
  }

  lemma MainCarries(s: Server, c: Choice)
    requires SyncInv(s) && MainEnabled(s, c) && c.ok
    ensures Carried(s, Main(c)) ==
            if s.main.IoSubmit? && s.pool.c[0].SubPush? then [Push(s.main.fn, s.main.x)]
            else if s.main.HupHold? then [MarkClosing(s.main.x)]
            else []
  {
    MainPushes(s, c);
  }

  /** A step of dispatch carries out the next order that is due, or none. */
  lemma MainKeepsOrders(s: Server, c: Choice)
    requires SyncInv(s) && CurrentInv(s) && SlotInv(s) && MainEnabled(s, c) && c.ok && Dispatching(s.main) && !Failing(s)
    ensures var s' := MainNext(s, c);
            && s'.table == s.table && s'.ready == s.ready && |s'.pool.c| == 1 && CurrentInv(s')
            && (Dispatching(s'.main) || s'.main.Loop?)
            && Carried(s, Main(c)) + Due(s'.table, s'.ready, s'.main, s'.pool.c[0])
                == Due(s.table, s.ready, s.main, s.pool.c[0])
  {
    MainKeepsSync(s, c);
    MainKeepsCurrent(s, c);
    MainNextIs(s, c);
    MainCarries(s, c);
    var p := MainNext(s, c).pool.c[0];
    if s.main.IoSubmit? {
      SubmitOrders(s, c);
    } else if AtIo(s.main) {
      if s.main.IoReserved? {
        ReservedBecomesWant(s, c);
      }
      DispatchIoOrders(s, c, p);
    } else if s.main.Dispatch? {
      DispatchInputOrders(s, c, p);
    } else if s.main.Accept? {
      DispatchAcceptOrders(s, c, p);
    } else if s.main.HupTest? || s.main.OutTest? {
      DispatchTestOrders(s, c, p);
    } else {
      DispatchHupOrders(s, c, p);
    }
  }

  lemma ReservedBecomesWant(s: Server, c: Choice)
    requires SyncInv(s) && MainEnabled(s, c) && s.main.IoReserved? && c.ok
    ensures MainNext(s, c).pool.c[0].SubWant?
  {
  }

  lemma IoStaysWell(s: Server, c: Choice)
    requires SyncInv(s) && MainEnabled(s, c) && c.ok && AtIo(s.main) && !Failing(s)
    ensures !Failing(MainNext(s, c))
  {
  }

  /** With every allocation and call succeeding the loop does not fail. */
  lemma MainStaysWell(s: Server, c: Choice)
    requires SyncInv(s) && MainEnabled(s, c) && c.ok && Polling(s.main) && !Failing(s)
    ensures !Failing(MainNext(s, c))
  {
    if AtIo(s.main) {
      IoStaysWell(s, c);
    } else {
      MainNextIs(s, c);
    }
  }

  lemma WorkerPushesNothing(p: Pool, a: Action)
    requires IsWorkerAction(a) && Enabled(p, a)
    ensures Next(p, a).h.pushed == p.h.pushed
  {
    if a.WorkerStep? {
      if Takes(p, p.w[a.i]) {
        WorkerTakes(p, a.i, a.wake);
      } else if p.w[a.i].Body? {
        WorkerFinishes(p, a.i, a.wake);
      } else {
        WorkerCarries(p, a.i, a.wake);
      }
    }
  }

  /** A worker leaves the report and the place of the main thread in it. */
  lemma WorkerKeepsOrders(s: Server, a: Action, after: ConnState)
    requires SyncInv(s) && WorkerEventEnabled(s, a, after)
    ensures var s' := WorkerEvent(s, a, after);
            && s' == s.(pool := s'.pool, ctxs := s'.ctxs) && s'.pool.c == s.pool.c && s'.pool.h.pushed == s.pool.h.pushed
            && Carried(s, Worker(a, after)) == []
            && (Failing(s') <==> Failing(s))
  {
    WorkerLeavesClient(s.pool, a);
    WorkerPushesNothing(s.pool, a);
    WorkerEventFrame(s, a, after);
  }

  // ---------------------------------------------------------------------------
  // A whole round
  // ---------------------------------------------------------------------------

  /** All steps of the main thread belong to a poll and the dispatch after it, and succeed. */
  ghost predicate Serves(s: Server, es: seq<Event>)
    requires Lawful(s, es)
    decreases |es|
  {
    es == [] ||
    ((es[0].Main? ==> Polling(s.main) && es[0].choice.ok) && Serves(EventNext(s, es[0]), es[1..]))
  }

  /** The orders carried out in a run, in order. */
  ghost function AllCarried(s: Server, es: seq<Event>): seq<Order>
    requires Lawful(s, es)
    decreases |es|
  {
    if es == [] then [] else Carried(s, es[0]) + AllCarried(EventNext(s, es[0]), es[1..])
  }

  ghost function StillDue(s: Server): seq<Order>
    requires SyncInv(s) && CurrentInv(s)
  {
    Due(s.table, s.ready, s.main, s.pool.c[0])
  }

  ghost predicate InDispatch(s: Server) {
    (Dispatching(s.main) || s.main.Loop?) && !Failing(s)
  }

  lemma MainEventKeepsOrders(s: Server, c: Choice)
    requires ServerInv(s) && MainEnabled(s, c) && Dispatching(s.main) && !Failing(s) && c.ok
    requires SyncInv(MainNext(s, c)) && CurrentInv(MainNext(s, c))
    ensures var s' := MainNext(s, c);
            && InDispatch(s') && s'.table == s.table && s'.ready == s.ready
            && Carried(s, Main(c)) + StillDue(s') == StillDue(s)
  {
    MainKeepsOrders(s, c);
    MainStaysWell(s, c);
  }

  lemma WorkerEventKeepsOrders(s: Server, a: Action, after: ConnState)
    requires SyncInv(s) && CurrentInv(s) && WorkerEventEnabled(s, a, after) && InDispatch(s)
    requires SyncInv(WorkerEvent(s, a, after)) && CurrentInv(WorkerEvent(s, a, after))
    ensures var s' := WorkerEvent(s, a, after);
            && InDispatch(s') && s'.table == s.table && s'.ready == s.ready
            && Carried(s, Worker(a, after)) + StillDue(s') == StillDue(s)
  {
    WorkerKeepsOrders(s, a, after);
  }

  lemma EventKeepsOrders(s: Server, e: Event)
    requires ServerInv(s) && EventEnabled(s, e) && InDispatch(s) && (e.Main? ==> Dispatching(s.main) && e.choice.ok)
    ensures var s' := EventNext(s, e);
            && ServerInv(s') && InDispatch(s') && s'.table == s.table && s'.ready == s.ready
            && Carried(s, e) + StillDue(s') == StillDue(s)
  {
    EventKeepsInv(s, e);
    match e {
      case Main(c) => MainEventKeepsOrders(s, c);
      case Worker(a, after) => WorkerEventKeepsOrders(s, a, after);
    }
  }

  /** From anywhere in dispatch to the end of the round, with any events of the workers in
      between: what is carried out is what was due, in that order. */
  lemma {:induction false} DispatchServes(s: Server, es: seq<Event>)
    requires ServerInv(s) && InDispatch(s) && Lawful(s, es) && Serves(s, es) && Serve(s, es).main.Loop?
    ensures AllCarried(s, es) == StillDue(s)
    ensures Serve(s, es).table == s.table && Serve(s, es).ready == s.ready
    decreases |es|
  {
    if es != [] {
      assert es[0].Main? ==> Polling(s.main) && es[0].choice.ok;
      EventKeepsOrders(s, es[0]);
      DispatchServes(EventNext(s, es[0]), es[1..]);
    }
  }

  /** From poll to the next test of the loop, with any events of the workers in between: what
      the main thread carries out is what the report asks for, slot by slot. */
  lemma {:induction false} ReportServed(s: Server, es: seq<Event>)
    requires ServerInv(s) && s.main.Poll? && Lawful(s, es) && Serves(s, es) && Serve(s, es).main.Loop?
    ensures var s' := Serve(s, es);
            && s'.table == s.table && |s'.ready| == |s.table|
            && AllCarried(s, es) == OrdersFrom(s.table, s'.ready, 0)
    decreases |es|
  {
    assert es != [];
    var e, rest := es[0], es[1..];
    var s1 := EventNext(s, e);
    EventKeepsInv(s, e);
    match e {
      case Main(c) =>
        assert c.ok;
        PollCarriesNothing(s, c);
        DispatchServes(s1, rest);
      case Worker(a, after) =>
        WorkerKeepsOrders(s, a, after);
        ReportServed(s1, rest);
    }
  }

  lemma PollCarriesNothing(s: Server, c: Choice)
    requires SyncInv(s) && MainEnabled(s, c) && c.ok && s.main.Poll?
    ensures var s' := MainNext(s, c);
            && s' == s.(ready := c.ready, main := Dispatch(0)) && |s'.ready| == |s'.table| && Carried(s, Main(c)) == []
  {
    MainPushes(s, c);
  }

  // ---------------------------------------------------------------------------
  // What that means for the pool and for the contexts
  // ---------------------------------------------------------------------------

  ghost function Kinds(ts: seq<Task>): (r: seq<(Fn, nat)>)
    ensures |r| == |ts| && forall i :: 0 <= i < |r| ==> r[i] == (ts[i].fn, ts[i].ctx)
  {
    seq(|ts|, i requires 0 <= i < |ts| => (ts[i].fn, ts[i].ctx))
  }

  /** The tasks among some orders, in order. */
  ghost function TasksOf(orders: seq<Order>): seq<(Fn, nat)> {
    if orders == [] then []
    else (if orders[0].Push? then [(orders[0].fn, orders[0].x)] else []) + TasksOf(orders[1..])
  }

  lemma EventPushes(s: Server, e: Event)
    requires SyncInv(s) && EventEnabled(s, e)
    ensures Kinds(EventNext(s, e).pool.h.pushed) == Kinds(s.pool.h.pushed) + TasksOf(Carried(s, e))
  {
    match e {
      case Main(c) => MainPushes(s, c);
      case Worker(a, after) => WorkerKeepsOrders(s, a, after);
    }
    var before, after := s.pool.h.pushed, EventNext(s, e).pool.h.pushed;
    if after == before {
      assert TasksOf(Carried(s, e)) == [];
    } else {
      assert Carried(s, e)[1..] == [];
      assert after[..|before|] == before;
    }
  }

  lemma TasksHead(o: Order, rest: seq<Order>)
    ensures TasksOf([o] + rest) == TasksOf([o]) + TasksOf(rest)
  {
    assert ([o] + rest)[1..] == rest && [o][1..] == [];
  }

  lemma {:induction false} TasksConcat(a: seq<Order>, b: seq<Order>)
    ensures TasksOf(a + b) == TasksOf(a) + TasksOf(b)
  {
    if a == [] {
      assert a + b == b;
    } else {
      TasksConcat(a[1..], b);
      HeadOfConcat(a, b);
      TasksHead(a[0], a[1..] + b);
      TasksHead(a[0], a[1..]);
      assert [a[0]] + a[1..] == a;
    }
  }

  /** Over any run the pool gets exactly the tasks among the orders carried out. */
  lemma {:induction false} RunPushes(s: Server, es: seq<Event>)
    requires ServerInv(s) && Lawful(s, es)
    ensures Kinds(Serve(s, es).pool.h.pushed) == Kinds(s.pool.h.pushed) + TasksOf(AllCarried(s, es))
    decreases |es|
  {
    if es != [] {
      var s1 := EventNext(s, es[0]);
      EventPushes(s, es[0]);
      EventKeepsInv(s, es[0]);
      RunPushes(s1, es[1..]);
      TasksConcat(Carried(s, es[0]), AllCarried(s1, es[1..]));
      Chain(Kinds(s.pool.h.pushed), TasksOf(Carried(s, es[0])), TasksOf(AllCarried(s1, es[1..])));
    }
  }

  lemma Chain<T>(a: seq<T>, b: seq<T>, c: seq<T>)
    ensures (a + b) + c == a + (b + c)
  {
  }

  /** No step of the main thread in the run changes the state of context x. */
  ghost predicate MainLeaves(s: Server, es: seq<Event>, x: nat)
    requires Lawful(s, es)
    decreases |es|
  {
    es == [] ||
    (var s1 := EventNext(s, es[0]);
     && (es[0].Main? && x in s.ctxs && x in s1.ctxs ==> s1.ctxs[x].state == s.ctxs[x].state)
     && MainLeaves(s1, es[1..], x))
  }

  lemma EventMarks(s: Server, e: Event, x: nat)
    requires ServerInv(s) && EventEnabled(s, e) && x in s.ctxs && x in EventNext(s, e).ctxs
    ensures MarkClosing(x) in Carried(s, e) ==> EventNext(s, e).ctxs[x].state == PendingClose
    ensures e.Main? && MarkClosing(x) !in Carried(s, e) ==> EventNext(s, e).ctxs[x].state == s.ctxs[x].state
  {
    match e {
      case Main(c) =>
        MainMovesState(s, c, x);
        MainPushes(s, c);
      case Worker(a, after) => WorkerKeepsOrders(s, a, after);
    }
  }

  /** Over any run: a context that is marked is closing at the end, if it is still there; one
      that is not has its state from its tasks alone. */
  lemma {:induction false} RunMarks(s: Server, es: seq<Event>, x: nat)
    requires ServerInv(s) && Lawful(s, es) && x in s.ctxs
    ensures MarkClosing(x) in AllCarried(s, es) && x in Serve(s, es).ctxs ==> Serve(s, es).ctxs[x].state == PendingClose
    ensures MarkClosing(x) !in AllCarried(s, es) ==> MainLeaves(s, es, x)
    decreases |es|
  {
    if es != [] {
      var s1 := EventNext(s, es[0]);
      EventKeepsInv(s, es[0]);
      if x in s1.ctxs {
        EventMarks(s, es[0], x);
        RunMarks(s1, es[1..], x);
        FateOverRuns(s1, es[1..], x);
      } else {
        EventKeepsFate(s, es[0], x);
        GoneIsLeft(s1, es[1..], x);
      }
    }
  }

  lemma {:induction false} GoneIsLeft(s: Server, es: seq<Event>, x: nat)
    requires ServerInv(s) && Lawful(s, es) && x !in s.ctxs && x < s.nextId
    ensures x !in Serve(s, es).ctxs && MainLeaves(s, es, x)
    decreases |es|
  {
    if es != [] {
      EventKeepsFate(s, es[0], x);
      EventKeepsInv(s, es[0]);
      GoneIsLeft(EventNext(s, es[0]), es[1..], x);
    }
  }

  // ---------------------------------------------------------------------------
  // No slot is left out
  // ---------------------------------------------------------------------------

  /** The signal pipe has input in none of the first k slots. */
  ghost predicate Quiet(table: seq<Slot>, ready: seq<Ready>, k: nat)
    requires |ready| == |table|
  {
    forall i :: 0 <= i < |table| && i < k ==> !(table[i].SignalPipe? && ready[i].input)
  }

  ghost predicate OnlySlot(table: seq<Slot>, j: nat, x: nat) {
    j < |table| && table[j] == Conn(x) && forall i :: 0 <= i < |table| && table[i] == Conn(x) ==> i == j
  }

  lemma {:induction false} LaterSlots(table: seq<Slot>, ready: seq<Ready>, k: nat, j: nat, x: nat)
    requires |ready| == |table| && OnlySlot(table, j, x) && j < k
    ensures forall o :: o in OrdersFrom(table, ready, k) ==> o.x != x
    decreases |table| - k
  {
    if k < |table| {
      LaterSlots(table, ready, k + 1, j, x);
    }
  }

  /** The orders for the context in slot j are those its own report asks for. */
  lemma {:induction false} SlotIsServed(table: seq<Slot>, ready: seq<Ready>, k: nat, j: nat, x: nat)
    requires |ready| == |table| && k <= j && OnlySlot(table, j, x) && Quiet(table, ready, j)
    ensures var orders := OrdersFrom(table, ready, k);
            && (Push(IoRead, x) in orders <==> ready[j].input)
            && (Push(IoSend, x) in orders <==> ready[j].output)
            && (MarkClosing(x) in orders <==> ready[j].hangup)
    decreases j - k
  {
    if k < j {
      SlotIsServed(table, ready, k + 1, j, x);
    } else {
      LaterSlots(table, ready, k + 1, j, x);
    }
  }

  lemma SlotIsOnly(s: Server, j: nat, x: nat)
    requires SlotInv(s) && j < |s.table| && s.table[j] == Conn(x)
    ensures OnlySlot(s.table, j, x) && x in s.ctxs
  {
    OneSlot(s, j);
    assert s.table[j] in multiset(s.table);
    assert (multiset(s.table) + multiset(s.pending))[Conn(x)] > 0;
  }

  /** In a round without failure, whatever the workers do meanwhile: for every connection in a
      slot before a signal, a read is submitted exactly if poll reported input and a send
      exactly if it reported output; it is marked closing exactly if poll reported a hang-up,
      and otherwise its state is left to its tasks. The pool gets these tasks, in the order of
      the slots, and no others. */
  lemma EverySlotIsServed(s: Server, es: seq<Event>, j: nat, x: nat)
    requires ServerInv(s) && s.main.Poll? && Lawful(s, es) && Serves(s, es) && Serve(s, es).main.Loop?
    requires j < |s.table| && s.table[j] == Conn(x)
    ensures var s', done := Serve(s, es), AllCarried(s, es);
            && |s'.ready| == |s.table|
            && (Quiet(s.table, s'.ready, j) ==>
                  && (Push(IoRead, x) in done <==> s'.ready[j].input)
                  && (Push(IoSend, x) in done <==> s'.ready[j].output)
                  && (s'.ready[j].hangup && x in s'.ctxs ==> s'.ctxs[x].state == PendingClose)
                  && (!s'.ready[j].hangup ==> MainLeaves(s, es, x)))
            && Kinds(s'.pool.h.pushed) == Kinds(s.pool.h.pushed) + TasksOf(OrdersFrom(s.table, s'.ready, 0))
  {
    ReportServed(s, es);
    RunPushes(s, es);
    SlotIsOnly(s, j, x);
    RunMarks(s, es, x);
    if Quiet(s.table, Serve(s, es).ready, j) {
      SlotIsServed(s.table, Serve(s, es).ready, 0, j, x);
    }
  }

  // ---------------------------------------------------------------------------
  // Such rounds exist
  // ---------------------------------------------------------------------------

  lemma OnwardIsWell(s: Server, e: Event)
    requires Going(s) && Onward(s, e) && Polling(s.main)
    ensures e.Main? ==> e.choice.ok
  {
  }

  /** From poll or dispatch the round can be brought to its end without failure. */
  lemma {:induction false} RoundCanEnd(s: Server) returns (es: seq<Event>)
    requires Going(s) && (Polling(s.main) || s.main.Loop?)
    ensures Lawful(s, es) && Serves(s, es) && Going(Serve(s, es)) && Serve(s, es).main.Loop?
    decreases Ahead(s), Schedules.Work(s.pool)
  {
    if s.main.Loop? {
      es := [];
    } else {
      var e := Advance(s);
      OnwardLowers(s, e);
      OnwardStaysPolling(s, e);
      OnwardIsWell(s, e);
      var rest := RoundCanEnd(EventNext(s, e));
      es := [e] + rest;
      assert es[1..] == rest;
    }
  }

  lemma PollStep(s: Server, ready: seq<Ready>)
    requires Going(s) && s.main.Poll? && |ready| == |s.table|
    ensures var c := Choice({}, true, false, false, ready);
            && MainEnabled(s, c) && MainNext(s, c) == s.(ready := ready, main := Dispatch(0)) && Going(MainNext(s, c))
  {
    MainKeepsInv(s, Choice({}, true, false, false, ready));
  }

  /** Whatever poll reports, the round can be brought to its end. */
  lemma AnyReportCanBeServed(s: Server, ready: seq<Ready>) returns (es: seq<Event>)
    requires Going(s) && s.main.Poll? && |ready| == |s.table|
    ensures Lawful(s, es) && Serves(s, es) && Serve(s, es).main.Loop? && Serve(s, es).ready == ready
  {
    var c := Choice({}, true, false, false, ready);
    PollStep(s, ready);
    var s1 := MainNext(s, c);
    var rest := RoundCanEnd(s1);
    DispatchServes(s1, rest);
    es := [Main(c)] + rest;
    assert es[1..] == rest;
  }
}
