/** When the loop can still destroy a connection that has closed. */
module ServerDestroys {
  import opened Prelude
  import opened ThreadPool
  import opened PoolInvariant
  import PoolTheorems
  import Schedules
  import opened Server
  import opened ServerInvariant
  import opened ServerTheorems

  // ---------------------------------------------------------------------------
  // The loop on its way out
  // ---------------------------------------------------------------------------

  /** The loop has stopped, or a failed submit of a read is about to stop it. */
  ghost predicate Failing(s: Server) {
    match s.main
    case IoSubmit(_, _, fn) => fn.IoRead? && |s.pool.c| == 1 && s.pool.c[0].SubUnlock? && !s.pool.c[0].ok
    case IoRelease(_, _, fn, ok) => fn.IoRead? && !ok
    case Stopped => true
    case _ => false
  }

  lemma FailingMain(s: Server, c: Choice)
    requires SyncInv(s) && MainEnabled(s, c) && Failing(s)
    ensures Failing(MainNext(s, c)) && MainNext(s, c).ctxs == s.ctxs
  {
  }

  lemma FailingStays(s: Server, e: Event)
    requires SyncInv(s) && EventEnabled(s, e) && Failing(s)
    ensures Failing(EventNext(s, e)) && EventNext(s, e).ctxs.Keys == s.ctxs.Keys
  {
    match e {
      case Main(c) => FailingMain(s, c);
      case Worker(a, after) =>
        WorkerLeavesClient(s.pool, a);
        WorkerEventFrame(s, a, after);
    }
  }

  lemma {:induction false} FailingDestroysNothing(s: Server, es: seq<Event>)
    requires ServerInv(s) && Failing(s) && Lawful(s, es)
    ensures Serve(s, es).ctxs.Keys == s.ctxs.Keys
    decreases |es|
  {
    if es != [] {
      FailingStays(s, es[0]);
      EventKeepsInv(s, es[0]);
      FailingDestroysNothing(EventNext(s, es[0]), es[1..]);
    }
  }

  /** Exactly when a step ends the loop: it is told to stop at its test; the update or poll
      fails; accept gives up for another reason than that nobody waits; or a read has not been
      submitted. A send that has not been submitted does not end it. */
  lemma LoopEndsExactly(s: Server, c: Choice)
    requires ServerInv(s) && MainEnabled(s, c)
    ensures MainNext(s, c).main.Stopped? <==>
            || (s.main.Loop? && c.stop)
            || ((s.main.Update? || s.main.Poll? || s.main.Accept?) && !c.ok)
            || (s.main.IoRelease? && s.main.fn.IoRead? && !s.main.ok)
  {
    if s.main.SweepRead? {
      CurrentIsLive(s);
    }
    EffectEndsExactly(s, c);
    MainNextIs(s, c);
  }

  lemma EffectEndsExactly(s: Server, c: Choice)
    requires |s.pool.c| == 1 && !s.main.Stopped? && (s.main.SweepRead? ==> s.main.x in s.ctxs)
    ensures MainEffect(s, c).main.Stopped? <==>
            || (s.main.Loop? && c.stop)
            || ((s.main.Update? || s.main.Poll? || s.main.Accept?) && !c.ok)
            || (s.main.IoRelease? && s.main.fn.IoRead? && !s.main.ok)
  {
  }

  // ---------------------------------------------------------------------------
  // Calm steps: nothing arrives, nothing fails, the loop goes on
  // ---------------------------------------------------------------------------

  ghost function Calm(s: Server): Choice {
    Choice(Schedules.OneSleeper(s.pool.w), true, !s.main.Loop?, false, seq(|s.table|, _ => NONE))
  }

  lemma CalmEnabled(s: Server)
    requires SyncInv(s) && CurrentInv(s) && !s.main.Stopped? && !MainBlocked(s) && !Dead(s.pool)
    ensures MainEnabled(s, Calm(s))
  {
  }

  ghost function Rest(n: nat, k: nat): nat {
    if k < n then n - k else 0
  }

  /** Calm steps of the main thread before it updates a table of n slots. */
  ghost function StepsToUpdate(n: nat, pc: MainPc, c: ClientPc): nat {
    match pc
    case Loop => 5 * n + 2
    case Sweep(k) => 5 * Rest(n, k) + 1
    case SweepWant(k, _) => 5 * Rest(n, k + 1) + 5
    case SweepRead(k, _) => 5 * Rest(n, k + 1) + 4
    case SweepRelease(k, _, _, _) => 5 * Rest(n, k + 1) + 3
    case SweepAct(k, _, _, _) => 5 * Rest(n, k + 1) + 2
    case Update => 0
    case Poll => 35 * n + 4
    case Dispatch(k) => 5 * n + 30 * Rest(n, k) + 3
    case Accept(k) => AfterSlot(n, k) + 15
    case HupTest(k) => AfterSlot(n, k) + 14
    case HupWant(k, _) => AfterSlot(n, k) + 13
    case HupHold(k, _) => AfterSlot(n, k) + 12
    case HupRelease(k, _) => AfterSlot(n, k) + 11
    case OutTest(k) => AfterSlot(n, k) + 10
    case IoWant(k, _, fn) => AfterSlot(n, k) + Back(fn) + 8
    case IoHold(k, _, fn) => AfterSlot(n, k) + Back(fn) + 7
    case IoReserved(k, _, fn) => AfterSlot(n, k) + Back(fn) + 6
    case IoSubmit(k, _, fn) => AfterSlot(n, k) + Back(fn) + InSubmit(c)
    case IoRelease(k, _, fn, _) => AfterSlot(n, k) + Back(fn) + 1
    case Stopped => 0
  }

  ghost function AfterSlot(n: nat, k: nat): nat {
    5 * n + 30 * Rest(n, k + 1) + 3
  }

  /** A read comes before the other tests of its slot. */
  ghost function Back(fn: Fn): nat {
    if fn.IoRead? then 14 else 0
  }

  ghost function InSubmit(c: ClientPc): nat {
    match c
    case SubWant(_, _, _) => 5
    case SubPush(_, _, _) => 4
    case SubSignal(_) => 3
    case _ => 2
  }

  ghost function Ahead(s: Server): nat
    requires |s.pool.c| == 1
  {
    StepsToUpdate(|s.table|, s.main, s.pool.c[0])
  }

  /** Outside submit, whatever the step does to the pool. */
  lemma CalmSweepLowers(s: Server, c: ClientPc)
    requires CurrentInv(s) && |s.pool.c| == 1 && !Dispatching(s.main) && !s.main.Update? && !s.main.Stopped?
    requires s.main.SweepRead? ==> s.main.x in s.ctxs
    ensures var s' := MainEffect(s, Calm(s));
            && StepsToUpdate(|s'.table|, s'.main, c) < Ahead(s) && |s'.table| == |s.table|
            && !s'.main.Stopped? && !s'.main.IoSubmit? && !s'.main.IoRelease?
  {
  }

  lemma CalmDispatchLowers(s: Server, c: ClientPc)
    requires CurrentInv(s) && |s.pool.c| == 1 && Dispatching(s.main) && !AtIo(s.main) && !s.main.Dispatch?
    ensures var s' := MainEffect(s, Calm(s));
            && StepsToUpdate(|s'.table|, s'.main, c) < Ahead(s) && s'.table == s.table
            && !s'.main.Stopped? && !s'.main.IoSubmit? && !s'.main.IoRelease?
  {
  }

  lemma CalmInputLowers(s: Server, c: ClientPc)
    requires CurrentInv(s) && |s.pool.c| == 1 && s.main.Dispatch?
    ensures var s' := MainEffect(s, Calm(s));
            && StepsToUpdate(|s'.table|, s'.main, c) < Ahead(s) && s'.table == s.table
            && !s'.main.Stopped? && !s'.main.IoSubmit? && !s'.main.IoRelease?
  {
  }

  ghost predicate AtIo(pc: MainPc) {
    pc.IoWant? || pc.IoHold? || pc.IoReserved? || pc.IoSubmit? || pc.IoRelease?
  }

  lemma CalmIoLowers(s: Server, c: ClientPc)
    requires CurrentInv(s) && |s.pool.c| == 1 && AtIo(s.main) && !s.main.IoSubmit? && !Failing(s)
    ensures var s' := MainEffect(s, Calm(s));
            && StepsToUpdate(|s'.table|, s'.main, c) < Ahead(s) && s'.table == s.table
            && !s'.main.Stopped? && !s'.main.IoRelease? && (s'.main.IoSubmit? ==> s.main.IoReserved?)
  {
  }

  lemma CalmSubmitLowers(s: Server)
    requires SyncInv(s) && MainEnabled(s, Calm(s)) && s.main.IoSubmit? && !Failing(s)
    ensures var s' := MainNext(s, Calm(s));
            |s'.pool.c| == 1 && Ahead(s') < Ahead(s) && |s'.table| == |s.table| && !Failing(s')
  {
  }

  /** A calm step brings the main thread nearer to the update, and does not end the loop. */
  lemma CalmLowers(s: Server)
    requires SyncInv(s) && CurrentInv(s) && SlotInv(s) && MainEnabled(s, Calm(s)) && !s.main.Update? && !Failing(s)
    ensures var s' := MainNext(s, Calm(s));
            |s'.pool.c| == 1 && Ahead(s') < Ahead(s) && |s'.table| == |s.table| && !Failing(s')
  {
    MainKeepsSync(s, Calm(s));
    MainNextIs(s, Calm(s));
    var c := MainNext(s, Calm(s)).pool.c[0];
    if s.main.IoSubmit? {
      CalmSubmitLowers(s);
    } else if AtIo(s.main) {
      CalmIoLowers(s, c);
      if s.main.IoReserved? {
        ReservedSubmits(s);
      }
    } else if s.main.Dispatch? {
      CalmInputLowers(s, c);
    } else if Dispatching(s.main) {
      CalmDispatchLowers(s, c);
    } else {
      if s.main.SweepRead? {
        CurrentIsLive(s);
      }
      CalmSweepLowers(s, c);
    }
  }

  lemma ReservedSubmits(s: Server)
    requires SyncInv(s) && MainEnabled(s, Calm(s)) && s.main.IoReserved?
    ensures MainNext(s, Calm(s)).pool.c[0].SubWant?
  {
  }

  // ---------------------------------------------------------------------------
  // Steady steps: a worker's plain step that leaves the state of every context
  // ---------------------------------------------------------------------------

  ghost function Steady(s: Server, i: nat): Event
    requires i < |s.pool.w|
  {
    var pc := s.pool.w[i];
    Worker(Schedules.Plain(s.pool, W(i)), if pc.Body? && pc.t.ctx in s.ctxs then s.ctxs[pc.t.ctx].state else PendingClose)
  }

  /** What neither calm nor steady steps change: nothing is created, nothing leaks, and what
      is closing stays so. */
  ghost predicate Kept(s: Server, s': Server, x: nat) {
    x in s'.ctxs ==>
      x in s.ctxs && s'.ctxs[x].leaked == s.ctxs[x].leaked
      && (s.ctxs[x].state == PendingClose ==> s'.ctxs[x].state == PendingClose)
  }

  lemma SteadyEnabled(s: Server, i: nat)
    requires Schedules.Runs(s.pool, W(i))
    ensures EventEnabled(s, Steady(s, i))
  {
    Schedules.PlainEnabled(s.pool, W(i));
  }

  lemma SteadyFrame(s: Server, i: nat, x: nat)
    requires i < |s.pool.w| && EventEnabled(s, Steady(s, i))
    ensures var s' := EventNext(s, Steady(s, i));
            s' == s.(pool := Next(s.pool, Schedules.Plain(s.pool, W(i))), ctxs := s'.ctxs) && Kept(s, s', x)
  {
  }

  /** The loop goes on, the pool is open and has a worker. */
  ghost predicate Going(s: Server) {
    ServerInv(s) && Schedules.Open(s.pool) && |s.pool.w| > 0 && !Failing(s)
  }

  /** What such a step does to the pool. */
  lemma SteadyWorks(p: Pool, i: nat)
    requires Inv(p) && Schedules.Open(p) && Schedules.Runs(p, W(i)) && |p.c| == 1 && !p.c[0].WaitAsleep?
    ensures var a := Schedules.Plain(p, W(i));
            && Enabled(p, a) && Schedules.Open(Next(p, a)) && Schedules.Work(Next(p, a)) < Schedules.Work(p)
            && Next(p, a).c == p.c && |Next(p, a).w| == |p.w|
  {
    Schedules.PlainLowersWork(p, W(i));
    WorkerLeavesClient(p, Schedules.Plain(p, W(i)));
  }

  lemma SteadyKeepsFailing(s: Server, s': Server)
    requires s'.main == s.main && s'.pool.c == s.pool.c
    ensures Failing(s') <==> Failing(s)
  {
  }

  /** The client is not inside wait. */
  lemma MainDoesNotWait(s: Server)
    requires SyncInv(s)
    ensures |s.pool.c| == 1 && !s.pool.c[0].WaitAsleep?
  {
  }

  /** A plain step of a worker keeps the loop going, in whatever state a task body leaves its
      context. */
  lemma PlainKeepsGoing(s: Server, i: nat, after: ConnState)
    requires Going(s) && Schedules.Runs(s.pool, W(i))
    requires EventEnabled(s, Worker(Schedules.Plain(s.pool, W(i)), after))
    ensures var s' := EventNext(s, Worker(Schedules.Plain(s.pool, W(i)), after));
            && Going(s') && Schedules.Work(s'.pool) < Schedules.Work(s.pool)
            && s' == s.(pool := s'.pool, ctxs := s'.ctxs) && s'.pool.c == s.pool.c
  {
    var e := Worker(Schedules.Plain(s.pool, W(i)), after);
    EventKeepsInv(s, e);
    MainDoesNotWait(s);
    SteadyWorks(s.pool, i);
    WorkerEventFrame(s, e.a, after);
    SteadyKeepsFailing(s, EventNext(s, e));
  }

  lemma SteadyKeepsGoing(s: Server, i: nat)
    requires Going(s) && Schedules.Runs(s.pool, W(i))
    ensures EventEnabled(s, Steady(s, i))
    ensures var s' := EventNext(s, Steady(s, i));
            Going(s') && Schedules.Work(s'.pool) < Schedules.Work(s.pool) && s'.pool.c == s.pool.c
  {
    SteadyEnabled(s, i);
    PlainKeepsGoing(s, i, Steady(s, i).after);
  }

  lemma SteadyKeeps(s: Server, i: nat, x: nat)
    requires i < |s.pool.w| && EventEnabled(s, Steady(s, i))
    ensures var s' := EventNext(s, Steady(s, i));
            Kept(s, s', x) && Outstanding(s'.pool, x) <= Outstanding(s.pool, x)
  {
    SteadyFrame(s, i, x);
    WorkerOutstanding(s.pool, Schedules.Plain(s.pool, W(i)), x);
  }

  // ---------------------------------------------------------------------------
  // The main thread gets on
  // ---------------------------------------------------------------------------

  lemma CalmCreatesNothing(s: Server)
    requires |s.pool.c| == 1 && Current(s.main).None?
    ensures MainEffect(s, Calm(s)).ctxs == s.ctxs && (!s.main.Update? ==> MainEffect(s, Calm(s)).pending == s.pending)
  {
  }

  lemma CalmLeaksNothing(s: Server, x: nat)
    requires |s.pool.c| == 1 && x in MainEffect(s, Calm(s)).ctxs
    ensures x in s.ctxs && MainEffect(s, Calm(s)).ctxs[x].leaked == s.ctxs[x].leaked
  {
    if Current(s.main).None? {
      CalmCreatesNothing(s);
    } else if s.main.SweepAct? {
      SweepKeepsLeaked(s, x);
    } else {
      MarkEffect(s, Calm(s));
    }
  }

  lemma SweepKeepsLeaked(s: Server, x: nat)
    requires |s.pool.c| == 1 && s.main.SweepAct? && x in MainEffect(s, Calm(s)).ctxs
    ensures x in s.ctxs && MainEffect(s, Calm(s)).ctxs[x] == s.ctxs[x]
  {
  }

  lemma MainKeepsOpen(s: Server, c: Choice)
    requires SyncInv(s) && MainEnabled(s, c) && Schedules.Open(s.pool)
    ensures Schedules.Open(MainNext(s, c).pool) && |MainNext(s, c).pool.w| == |s.pool.w|
  {
    PoolPartKind(s, c);
  }

  lemma CalmKeepsGoing(s: Server)
    requires Going(s) && !s.main.Update? && MainEnabled(s, Calm(s))
    ensures var s' := MainNext(s, Calm(s)); Going(s') && Ahead(s') < Ahead(s)
  {
    MainKeepsInv(s, Calm(s));
    CalmLowers(s);
    MainKeepsOpen(s, Calm(s));
  }

  lemma CalmKeepsPending(s: Server)
    requires MainEnabled(s, Calm(s)) && !s.main.Update?
    ensures MainNext(s, Calm(s)).pending == s.pending
  {
    MainNextIs(s, Calm(s));
    MainMovesTable(s, Calm(s));
    if s.main.Accept? {
      CalmCreatesNothing(s);
    }
  }

  lemma CalmKeeps(s: Server, x: nat)
    requires SlotInv(s) && MainEnabled(s, Calm(s))
    ensures Kept(s, MainNext(s, Calm(s)), x)
  {
    MainNextIs(s, Calm(s));
    if x in MainNext(s, Calm(s)).ctxs {
      CalmLeaksNothing(s, x);
      MainKeepsFate(s, Calm(s), x);
    }
  }

  // ---------------------------------------------------------------------------
  // Runs of calm and steady steps
  // ---------------------------------------------------------------------------

  ghost predicate Onward(s: Server, e: Event) {
    && EventEnabled(s, e)
    && match e
       case Main(c) => c == Calm(s) && !s.main.Update?
       case Worker(a, _) => a.WorkerStep? && Schedules.Runs(s.pool, W(a.i)) && e == Steady(s, a.i)
  }

  lemma OnwardLowers(s: Server, e: Event)
    requires Going(s) && Onward(s, e)
    ensures var s' := EventNext(s, e);
            && Going(s') && s'.pending == s.pending
            && (Ahead(s') < Ahead(s) || (Ahead(s') == Ahead(s) && Schedules.Work(s'.pool) < Schedules.Work(s.pool)))
  {
    match e {
      case Main(c) =>
        CalmKeepsGoing(s);
        CalmKeepsPending(s);
      case Worker(a, _) =>
        SteadyKeepsGoing(s, a.i);
        SteadyFrame(s, a.i, 0);
    }
  }

  lemma OnwardKeeps(s: Server, e: Event, x: nat)
    requires SlotInv(s) && Onward(s, e)
    ensures Kept(s, EventNext(s, e), x)
  {
    match e {
      case Main(c) => CalmKeeps(s, x);
      case Worker(a, _) => SteadyKeeps(s, a.i, x);
    }
  }

  lemma OpenIsNotDead(p: Pool)
    requires Inv(p) && Schedules.Open(p)
    ensures !Dead(p)
  {
    assert forall j :: 0 <= j < |p.c| && p.c[j].Destroyed? ==> Stopping(p.c[j]);
  }

  /** If the main thread is blocked, a worker can take a plain step. */
  lemma BlockedMainRuns(s: Server) returns (i: nat)
    requires Inv(s.pool) && SyncInv(s) && MainBlocked(s)
    ensures Schedules.Runs(s.pool, W(i))
  {
    var r := PoolTheorems.BusyIsUnblocked(s.pool, C(0));
    assert r.W?;
    i := r.i;
  }

  /** Some step brings the server on. */
  lemma Advance(s: Server) returns (e: Event)
    requires Going(s) && !s.main.Update?
    ensures Onward(s, e)
  {
    if MainBlocked(s) {
      var i := BlockedMainRuns(s);
      SteadyEnabled(s, i);
      e := Steady(s, i);
    } else {
      OpenIsNotDead(s.pool);
      CalmEnabled(s);
      e := Main(Calm(s));
    }
  }

  // ---------------------------------------------------------------------------
  // On to the next poll and through its events
  // ---------------------------------------------------------------------------

  ghost predicate Polling(pc: MainPc) {
    pc.Poll? || Dispatching(pc)
  }

  lemma CalmStaysPolling(s: Server)
    requires MainEnabled(s, Calm(s)) && Polling(s.main) && !Failing(s)
    ensures Polling(MainNext(s, Calm(s)).main) || MainNext(s, Calm(s)).main.Loop?
  {
    MainNextIs(s, Calm(s));
  }

  lemma OnwardStaysPolling(s: Server, e: Event)
    requires Going(s) && Onward(s, e) && Polling(s.main)
    ensures Polling(EventNext(s, e).main) || EventNext(s, e).main.Loop?
  {
    match e {
      case Main(c) => CalmStaysPolling(s);
      case Worker(a, _) => SteadyFrame(s, a.i, 0);
    }
  }

  lemma {:induction false} RunToLoop(s: Server, x: nat) returns (es: seq<Event>)
    requires Going(s) && (Polling(s.main) || s.main.Loop?)
    ensures Lawful(s, es)
    ensures var s' := Serve(s, es); Going(s') && s'.main.Loop? && s'.pending == s.pending && Kept(s, s', x)
    decreases Ahead(s), Schedules.Work(s.pool)
  {
    if s.main.Loop? {
      es := [];
    } else {
      var e := Advance(s);
      OnwardLowers(s, e);
      OnwardKeeps(s, e, x);
      OnwardStaysPolling(s, e);
      var rest := RunToLoop(EventNext(s, e), x);
      LawfulCons(s, e, rest);
      es := [e] + rest;
    }
  }

  // ---------------------------------------------------------------------------
  // Through a sweep
  // ---------------------------------------------------------------------------

  /** The sweep has not passed the slot of x, and a snapshot of x says that it may go. */
  ghost predicate Faces(s: Server, x: nat) {
    && !Polling(s.main) && (exists j :: Swept(s) <= j < |s.table| && s.table[j] == Conn(x))
    && (s.main.SweepRelease? && s.main.x == x ==> s.main.refs == 0 && s.main.state == PendingClose)
    && (s.main.SweepAct? && s.main.x == x ==> s.main.refs == 0 && s.main.state == PendingClose)
  }

  /** If context x still exists, the sweep is about to destroy it. */
  ghost predicate Doomed(s: Server, x: nat) {
    x in s.ctxs ==>
      && s.ctxs[x].state == PendingClose && s.ctxs[x].leaked == 0 && Outstanding(s.pool, x) == 0
      && Faces(s, x)
  }

  lemma CalmActFaces(s: Server, x: nat)
    requires CurrentInv(s) && |s.pool.c| == 1 && s.main.SweepAct? && Faces(s, x)
    ensures x in MainEffect(s, Calm(s)).ctxs ==> Faces(MainEffect(s, Calm(s)), x)
  {
    var j :| Swept(s) <= j < |s.table| && s.table[j] == Conn(x);
    assert s.main.x != x ==> j > s.main.k && MainEffect(s, Calm(s)).table[j] == Conn(x);
  }

  lemma CalmSweepFaces(s: Server, x: nat)
    requires |s.pool.c| == 1 && (s.main.Loop? || s.main.Sweep?) && Faces(s, x)
    ensures Faces(MainEffect(s, Calm(s)), x)
  {
    var j :| Swept(s) <= j < |s.table| && s.table[j] == Conn(x);
    assert Swept(MainEffect(s, Calm(s))) <= j;
  }

  lemma CalmLookFaces(s: Server, x: nat)
    requires |s.pool.c| == 1 && Faces(s, x) && (s.main.SweepWant? || s.main.SweepRead? || s.main.SweepRelease?)
    requires s.main.SweepRead? ==> s.main.x in s.ctxs
    requires x in s.ctxs && s.ctxs[x].refs == 0 && s.ctxs[x].state == PendingClose
    ensures Faces(MainEffect(s, Calm(s)), x)
  {
    var j :| Swept(s) <= j < |s.table| && s.table[j] == Conn(x);
    assert Swept(MainEffect(s, Calm(s))) <= j;
  }

  lemma CalmFaces(s: Server, x: nat)
    requires CurrentInv(s) && SlotInv(s) && |s.pool.c| == 1 && Faces(s, x)
    requires x in s.ctxs && s.ctxs[x].refs == 0 && s.ctxs[x].state == PendingClose
    ensures x in MainEffect(s, Calm(s)).ctxs ==> Faces(MainEffect(s, Calm(s)), x)
  {
    if s.main.SweepAct? {
      CalmActFaces(s, x);
    } else if s.main.Loop? || s.main.Sweep? {
      CalmSweepFaces(s, x);
    } else if s.main.SweepWant? || s.main.SweepRead? || s.main.SweepRelease? {
      if s.main.SweepRead? {
        CurrentIsLive(s);
      }
      CalmLookFaces(s, x);
    }
  }

  /** Outside dispatch no task is pushed and none is reserved. */
  lemma SweepPushesNothing(s: Server, c: Choice, x: nat)
    requires SyncInv(s) && MainEnabled(s, c) && !Polling(s.main)
    ensures Outstanding(MainNext(s, c).pool, x) == Outstanding(s.pool, x) && Reserved(s, x) == 0
  {
    MainMovesTasks(s, c, x);
  }

  lemma CalmKeepsDoomed(s: Server, x: nat)
    requires SyncInv(s) && CurrentInv(s) && SlotInv(s) && RefInv(s) && MainEnabled(s, Calm(s))
    requires Doomed(s, x)
    ensures Doomed(MainNext(s, Calm(s)), x)
  {
    CalmKeeps(s, x);
    if x in MainNext(s, Calm(s)).ctxs {
      SweepPushesNothing(s, Calm(s), x);
      CalmFaces(s, x);
      FacesIgnoresPool(s, x);
    }
  }

  lemma FacesIgnoresPool(s: Server, x: nat)
    requires MainEnabled(s, Calm(s)) && Faces(MainEffect(s, Calm(s)), x)
    ensures Faces(MainNext(s, Calm(s)), x)
  {
    var s' := MainEffect(s, Calm(s));
    MainNextIs(s, Calm(s));
    var j :| Swept(s') <= j < |s'.table| && s'.table[j] == Conn(x);
  }

  lemma OnwardKeepsDoomed(s: Server, e: Event, x: nat)
    requires Going(s) && Onward(s, e) && Doomed(s, x)
    ensures Doomed(EventNext(s, e), x)
  {
    match e {
      case Main(c) => CalmKeepsDoomed(s, x);
      case Worker(a, _) =>
        SteadyFrame(s, a.i, x);
        SteadyKeeps(s, a.i, x);
    }
  }

  lemma {:induction false} RunToUpdate(s: Server, x: nat) returns (es: seq<Event>)
    requires Going(s)
    ensures Lawful(s, es)
    ensures var s' := Serve(s, es); Going(s') && s'.main.Update? && Kept(s, s', x) && (Doomed(s, x) ==> Doomed(s', x))
    decreases Ahead(s), Schedules.Work(s.pool)
  {
    if s.main.Update? {
      es := [];
    } else {
      var e := Advance(s);
      OnwardLowers(s, e);
      OnwardKeeps(s, e, x);
      if Doomed(s, x) {
        OnwardKeepsDoomed(s, e, x);
      }
      var rest := RunToUpdate(EventNext(s, e), x);
      LawfulCons(s, e, rest);
      es := [e] + rest;
    }
  }

  // ---------------------------------------------------------------------------
  // The workers finish every task
  // ---------------------------------------------------------------------------

  /** With something left to do and the main thread outside the pool, a worker can run. */
  lemma BusyWorkerRuns(p: Pool) returns (i: nat)
    requires Inv(p) && Schedules.Open(p) && |p.w| > 0 && p.c == [Idle(None)]
    requires p.queue != [] || !Schedules.Settled(p, {})
    ensures Schedules.Runs(p, W(i))
  {
    var r;
    if p.queue != [] {
      r := Schedules.WorkerRuns(p);
    } else {
      r := Schedules.UnsettledRuns(p, {});
    }
    assert r.W?;
    i := r.i;
  }

  lemma SettledNamesNothing(p: Pool, x: nat)
    requires p.queue == [] && Schedules.Settled(p, {})
    ensures Outstanding(p, x) == 0
  {
    NoneCarried(p.w, x);
  }

  lemma {:induction false} RunTasks(s: Server, x: nat) returns (es: seq<Event>)
    requires Going(s) && s.main.Loop?
    ensures Lawful(s, es)
    ensures var s' := Serve(s, es);
            && Going(s') && s'.main.Loop? && s'.pending == s.pending && s'.table == s.table
            && Kept(s, s', x) && Outstanding(s'.pool, x) == 0
    decreases Schedules.Work(s.pool)
  {
    if s.pool.queue == [] && Schedules.Settled(s.pool, {}) {
      es := [];
      SettledNamesNothing(s.pool, x);
    } else {
      var i := BusyWorkerRuns(s.pool);
      SteadyKeepsGoing(s, i);
      SteadyKeeps(s, i, x);
      SteadyFrame(s, i, x);
      var e := Steady(s, i);
      var rest := RunTasks(EventNext(s, e), x);
      LawfulCons(s, e, rest);
      es := [e] + rest;
    }
  }

  // ---------------------------------------------------------------------------
  // A closed connection can be destroyed exactly if the loop goes on and nothing leaked
  // ---------------------------------------------------------------------------

  /** The update moves what is pending into the table. */
  lemma UpdateStep(s: Server, x: nat)
    requires Going(s) && s.main.Update?
    ensures MainEnabled(s, Calm(s))
    ensures var s' := MainNext(s, Calm(s)); Going(s') && s'.main.Poll? && s'.pending == [] && Kept(s, s', x)
  {
    MainKeepsInv(s, Calm(s));
    CalmKeeps(s, x);
  }

  lemma DoomedAtLoop(s: Server, x: nat)
    requires SlotInv(s) && s.main.Loop? && s.pending == [] && Outstanding(s.pool, x) == 0
    requires x in s.ctxs ==> s.ctxs[x].state == PendingClose && s.ctxs[x].leaked == 0
    ensures Doomed(s, x)
  {
    if x in s.ctxs {
      assert (multiset(s.table) + multiset(s.pending))[Conn(x)] == 1;
      assert Conn(x) in s.table;
    }
  }

  /** From wherever the loop is: it updates the table, polls, passes all events, lets the
      workers finish every task, and sweeps once more. */
  lemma DestroyingRun(s: Server, x: nat) returns (es: seq<Event>)
    requires Going(s) && (x in s.ctxs ==> s.ctxs[x].state == PendingClose && s.ctxs[x].leaked == 0)
    ensures Lawful(s, es) && x !in Serve(s, es).ctxs
  {
    var first := RunToUpdate(s, x);
    var s1 := Serve(s, first);
    UpdateStep(s1, x);
    var s2 := MainNext(s1, Calm(s1));
    var rest := FromPoll(s2, x);
    LawfulCons(s1, Main(Calm(s1)), rest);
    LawfulConcat(s, first, [Main(Calm(s1))] + rest);
    es := first + ([Main(Calm(s1))] + rest);
  }

  lemma FromPoll(s: Server, x: nat) returns (es: seq<Event>)
    requires Going(s) && s.main.Poll? && s.pending == []
    requires x in s.ctxs ==> s.ctxs[x].state == PendingClose && s.ctxs[x].leaked == 0
    ensures Lawful(s, es) && x !in Serve(s, es).ctxs
  {
    var first := RunToLoop(s, x);
    var rest := FromLoop(Serve(s, first), x);
    LawfulConcat(s, first, rest);
    es := first + rest;
  }

  lemma FromLoop(s: Server, x: nat) returns (es: seq<Event>)
    requires Going(s) && s.main.Loop? && s.pending == []
    requires x in s.ctxs ==> s.ctxs[x].state == PendingClose && s.ctxs[x].leaked == 0
    ensures Lawful(s, es) && x !in Serve(s, es).ctxs
  {
    var first := RunTasks(s, x);
    var s1 := Serve(s, first);
    DoomedAtLoop(s1, x);
    var rest := RunToUpdate(s1, x);
    LawfulConcat(s, first, rest);
    es := first + rest;
  }

  ghost predicate CanBeDestroyed(s: Server, x: nat) {
    exists es :: Lawful(s, es) && x !in Serve(s, es).ctxs
  }

  /** A connection that has closed can still be destroyed exactly if the loop is not ending
      on an error and no reference to it has leaked. */
  lemma DestroyedExactlyIfNotLeaked(s: Server, x: nat)
    requires ServerInv(s) && Schedules.Open(s.pool) && |s.pool.w| > 0
    requires x in s.ctxs && s.ctxs[x].state == PendingClose
    ensures CanBeDestroyed(s, x) <==> !Failing(s) && s.ctxs[x].leaked == 0
  {
    if !Failing(s) && s.ctxs[x].leaked == 0 {
      var es := DestroyingRun(s, x);
    } else {
      forall es | Lawful(s, es) ensures x in Serve(s, es).ctxs {
        if Failing(s) {
          FailingDestroysNothing(s, es);
        } else {
          FateOverRuns(s, es, x);
        }
      }
    }
  }

  lemma WorkerKeepsOpen(p: Pool, a: Action)
    requires Inv(p) && IsWorkerAction(a) && Enabled(p, a) && Schedules.Open(p)
    ensures Schedules.Open(Next(p, a)) && |Next(p, a).w| == |p.w|
  {
    if a.WorkerStep? {
      WorkerMovesFlag(p, a.i, a.wake);
      WorkerMovesPcs(p, a.i, a.wake);
    }
  }

  lemma EventKeepsOpen(s: Server, e: Event)
    requires Inv(s.pool) && SyncInv(s) && EventEnabled(s, e) && Schedules.Open(s.pool)
    ensures Schedules.Open(EventNext(s, e).pool) && |EventNext(s, e).pool.w| == |s.pool.w|
  {
    match e {
      case Main(c) => MainKeepsOpen(s, c);
      case Worker(a, after) =>
        WorkerEventFrame(s, a, after);
        WorkerKeepsOpen(s.pool, a);
    }
  }

  lemma {:induction false} ServeKeepsOpen(s: Server, es: seq<Event>)
    requires ServerInv(s) && Lawful(s, es) && Schedules.Open(s.pool)
    ensures Schedules.Open(Serve(s, es).pool) && |Serve(s, es).pool.w| == |s.pool.w|
    decreases |es|
  {
    if es != [] {
      EventKeepsOpen(s, es[0]);
      EventKeepsInv(s, es[0]);
      ServeKeepsOpen(EventNext(s, es[0]), es[1..]);
    }
  }

  /** In every state the server reaches. */
  lemma ClosedConnectionsGoExactly(workers: nat, es: seq<Event>, x: nat)
    requires workers > 0 && Lawful(InitServer(workers), es)
    requires var s := Serve(InitServer(workers), es); x in s.ctxs && s.ctxs[x].state == PendingClose
    ensures var s := Serve(InitServer(workers), es);
            CanBeDestroyed(s, x) <==> !Failing(s) && s.ctxs[x].leaked == 0
  {
    ServeFromStart(workers, es);
    InitServerInv(workers);
    ServeKeepsOpen(InitServer(workers), es);
    DestroyedExactlyIfNotLeaked(Serve(InitServer(workers), es), x);
  }
}
