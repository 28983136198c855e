/** What the steady loop guarantees about connections, in every state of every run. */
module ServerTheorems {
  import opened Prelude
  import opened ThreadPool
  import opened PoolInvariant
  import PoolTheorems
  import Schedules
  import WaitReturn
  import opened Server
  import opened ServerInvariant
  import Connection
  import Framing
  import NetIo

  // ---------------------------------------------------------------------------
  // No context is destroyed while something can still reach it
  // ---------------------------------------------------------------------------

  /** Every task in the queue or in a worker's hand names a live context. */
  lemma TasksNameLiveContexts(s: Server, t: Task)
    requires LiveInv(s) && (t in s.pool.queue || t in Hands(s.pool.w))
    ensures t.ctx in s.ctxs
  {
    if t in s.pool.queue {
      var k :| 0 <= k < |s.pool.queue| && s.pool.queue[k] == t;
      SumAtLeast(s.pool.queue, k, Names(t.ctx));
    } else {
      var i := PoolTheorems.HandOf(s.pool.w, t);
      CarriedIsOutstanding(s.pool, i);
    }
  }

  /** Thread t holds the mutex of context x or is about to lock it. */
  ghost predicate Reaches(p: Pool, t: Tid, x: nat) {
    || Holds(p, t, CtxMutex(x))
    || (PoolTheorems.Exists(p, t) && PoolTheorems.WaitsFor(p, t) == Some(CtxMutex(x)))
  }

  lemma WorkerReachesItsTask(p: Pool, i: nat, x: nat)
    requires Reaches(p, W(i), x)
    ensures i < |p.w| && Carries(p.w[i]).Some? && Carries(p.w[i]).value.ctx == x
  {
  }

  lemma MainReachesItsCurrent(s: Server, j: nat, x: nat)
    requires SyncInv(s) && Reaches(s.pool, C(j), x)
    ensures Current(s.main).Some? && Current(s.main).value.1 == x
  {
  }

  /** Any context mutex that a thread holds or is about to lock belongs to a live context. */
  lemma MutexesBelongToLiveContexts(s: Server, t: Tid, x: nat)
    requires SyncInv(s) && CurrentInv(s) && SlotInv(s) && LiveInv(s) && Reaches(s.pool, t, x)
    ensures x in s.ctxs
  {
    match t {
      case W(i) =>
        WorkerReachesItsTask(s.pool, i, x);
        CarriedIsOutstanding(s.pool, i);
      case C(j) =>
        MainReachesItsCurrent(s, j, x);
        CurrentIsLive(s);
    }
  }

  /** When the sweep destroys a context, on a snapshot taken before it unlocked, the context
      is still closing, no task names it, and nobody holds or wants its mutex. */
  lemma SweepIsSound(s: Server, t: Tid)
    requires SyncInv(s) && RefInv(s) && SnapshotInv(s) && Decides(s)
    ensures s.main.x in s.ctxs && s.ctxs[s.main.x].state == PendingClose
    ensures Outstanding(s.pool, s.main.x) == 0 && s.ctxs[s.main.x].leaked == 0
    ensures !Reaches(s.pool, t, s.main.x)
  {
    NobodyReaches(s, t, s.main.x);
  }

  lemma NobodyReaches(s: Server, t: Tid, x: nat)
    requires SyncInv(s) && s.main.SweepAct? && Outstanding(s.pool, x) == 0
    ensures !Reaches(s.pool, t, x)
  {
    if t.W? && Reaches(s.pool, t, x) {
      WorkerReachesItsTask(s.pool, t.i, x);
      CarriedIsOutstanding(s.pool, t.i);
    }
  }

  /** A context under the sweep's eye gets the fatal snapshot exactly when it is closing, no
      task names it and no reference has leaked. */
  lemma SweepSnapshotExact(s: Server, c: Choice)
    requires SyncInv(s) && CurrentInv(s) && SlotInv(s) && RefInv(s) && MainEnabled(s, c) && s.main.SweepRead?
    ensures var s' := MainNext(s, c);
            var x := s.main.x;
            && s'.main.SweepRelease?
            && (s'.main.state == PendingClose && s'.main.refs == 0 <==>
                  s.ctxs[x].state == PendingClose && Outstanding(s.pool, x) == 0 && s.ctxs[x].leaked == 0)
  {
    CurrentIsLive(s);
  }

  /** What the connection's own tasks do to its state is among the moves a task body may make
      here. */
  lemma TasksMoveAsAllowed(stream: seq<Framing.Byte>, v: Connection.View, events: seq<NetIo.IoEvent>, shutdown: bool)
    requires Connection.Consistent(stream, v) && Connection.InRange(stream, v)
    ensures BodyMoves(IoRead, v.state, Connection.Turned(stream, v, Connection.In(events, shutdown)).state)
    ensures BodyMoves(IoSend, v.state, Connection.Turned(stream, v, Connection.Out(events, shutdown)).state)
  {
    Connection.StateCycle(stream, v, Connection.In(events, shutdown));
    Connection.StateCycle(stream, v, Connection.Out(events, shutdown));
  }

  // ---------------------------------------------------------------------------
  // Over whole runs
  // ---------------------------------------------------------------------------

  lemma LawfulCons(s: Server, e: Event, rest: seq<Event>)
    requires EventEnabled(s, e) && Lawful(EventNext(s, e), rest)
    ensures Lawful(s, [e] + rest) && Serve(s, [e] + rest) == Serve(EventNext(s, e), rest)
  {
    assert ([e] + rest)[1..] == rest;
  }

  lemma LawfulHead(s: Server, es: seq<Event>)
    requires es != [] && Lawful(s, es)
    ensures EventEnabled(s, es[0]) && Lawful(EventNext(s, es[0]), es[1..])
    ensures Serve(s, es) == Serve(EventNext(s, es[0]), es[1..])
  {
  }

  lemma {:induction false} LawfulConcat(s: Server, es: seq<Event>, rest: seq<Event>)
    requires Lawful(s, es) && Lawful(Serve(s, es), rest)
    ensures Lawful(s, es + rest) && Serve(s, es + rest) == Serve(Serve(s, es), rest)
    decreases |es|
  {
    if es == [] {
      assert es + rest == rest;
    } else {
      LawfulHead(s, es);
      LawfulConcat(EventNext(s, es[0]), es[1..], rest);
      LawfulCons(s, es[0], es[1..] + rest);
      HeadOfConcat(es, rest);
    }
  }

  lemma EventKeepsFate(s: Server, e: Event, x: nat)
    requires ServerInv(s) && EventEnabled(s, e)
    ensures var s' := EventNext(s, e);
            && s.nextId <= s'.nextId
            && (x in s.ctxs && x in s'.ctxs ==>
                  s.ctxs[x].leaked <= s'.ctxs[x].leaked &&
                  (s.ctxs[x].state == PendingClose ==> s'.ctxs[x].state == PendingClose))
            && (x in s.ctxs && s.ctxs[x].leaked > 0 ==> x in s'.ctxs)
            && (x !in s.ctxs && x < s.nextId ==> x !in s'.ctxs)
  {
    match e {
      case Main(c) =>
        MainMovesTable(s, c);
        MainMovesKeys(s, c);
        if Decides(s) {
          SweepIsSound(s, C(0));
        }
        if x in s.ctxs && x in MainNext(s, c).ctxs {
          MainKeepsFate(s, c, x);
        }
      case Worker(a, after) =>
        WorkerEventFrame(s, a, after);
        if x in s.ctxs {
          WorkerKeepsLeaked(s, a, after, x);
        }
    }
  }

  lemma MainKeepsFate(s: Server, c: Choice, x: nat)
    requires SlotInv(s) && MainEnabled(s, c) && x in s.ctxs && x in MainNext(s, c).ctxs
    ensures var s' := MainNext(s, c);
            && s.ctxs[x].leaked <= s'.ctxs[x].leaked
            && (s.ctxs[x].state == PendingClose ==> s'.ctxs[x].state == PendingClose)
  {
    EffectKeepsFate(s, c, x);
    MainNextIs(s, c);
  }

  lemma EffectKeepsFate(s: Server, c: Choice, x: nat)
    requires SlotInv(s) && |s.pool.c| == 1 && x in s.ctxs && x in MainEffect(s, c).ctxs
    ensures var s' := MainEffect(s, c);
            && s.ctxs[x].leaked <= s'.ctxs[x].leaked
            && (s.ctxs[x].state == PendingClose ==> s'.ctxs[x].state == PendingClose)
  {
    if Current(s.main).Some? && !s.main.SweepAct? {
      MarkEffect(s, c);
    } else {
      OtherEffect(s, c);
    }
  }

  /** While it works on a context, the main thread at most marks that context: it marks it
      closing exactly after a hang-up, and leaks a reference only if a submit fails. */
  lemma MarkEffect(s: Server, c: Choice)
    requires |s.pool.c| == 1 && Current(s.main).Some? && !s.main.SweepAct?
    ensures var x, ctxs := Current(s.main).value.1, MainEffect(s, c).ctxs;
            if s.main.HupHold? then ctxs == Mark(s, x, Close).ctxs
            else ctxs == s.ctxs || ctxs == Mark(s, x, Raise).ctxs || (!c.ok && ctxs == Mark(s, x, Leak).ctxs)
  {
  }

  /** Elsewhere it at most destroys one context or creates the next. */
  lemma OtherEffect(s: Server, c: Choice)
    requires |s.pool.c| == 1 && (Current(s.main).None? || s.main.SweepAct?)
    ensures var ctxs := MainEffect(s, c).ctxs;
            || ctxs == s.ctxs
            || ctxs == s.ctxs[s.nextId := Ctx(0, ReadHeader, 0)]
            || (s.main.SweepAct? && ctxs == s.ctxs - {s.main.x})
  {
  }

  /** A main step leaves the state of a context unless it marks that context closing. */
  lemma MainMovesState(s: Server, c: Choice, x: nat)
    requires SlotInv(s) && MainEnabled(s, c) && x in s.ctxs && x in MainNext(s, c).ctxs
    ensures MainNext(s, c).ctxs[x].state ==
            if s.main.HupHold? && s.main.x == x then PendingClose else s.ctxs[x].state
  {
    MainNextIs(s, c);
    if Current(s.main).Some? && !s.main.SweepAct? {
      MarkEffect(s, c);
    } else {
      OtherEffect(s, c);
    }
  }

  lemma WorkerKeepsLeaked(s: Server, a: Action, after: ConnState, x: nat)
    requires WorkerEventEnabled(s, a, after) && x in s.ctxs
    ensures WorkerEvent(s, a, after).ctxs[x].leaked == s.ctxs[x].leaked
  {
  }

  /** Closing is for ever: no task and no step of the main loop leaves PendingClose. A
      destroyed context never comes back, and one with a leaked reference is never
      destroyed by the loop. */
  lemma {:induction false} FateOverRuns(s: Server, es: seq<Event>, x: nat)
    requires ServerInv(s) && Lawful(s, es) && x < s.nextId
    ensures var s' := Serve(s, es);
            && x < s'.nextId
            && (x in s.ctxs && s.ctxs[x].state == PendingClose && x in s'.ctxs ==> s'.ctxs[x].state == PendingClose)
            && (x !in s.ctxs ==> x !in s'.ctxs)
            && (x in s.ctxs && s.ctxs[x].leaked > 0 ==> x in s'.ctxs)
    decreases |es|
  {
    if es != [] {
      EventKeepsFate(s, es[0], x);
      EventKeepsInv(s, es[0]);
      FateOverRuns(EventNext(s, es[0]), es[1..], x);
    }
  }

  /** Everything the server does to the pool is a legal run of the pool. */
  lemma {:induction false} ServeRefinesPool(s: Server, es: seq<Event>) returns (acts: seq<Action>)
    requires Lawful(s, es)
    ensures Legal(s.pool, acts) && Exec(s.pool, acts) == Serve(s, es).pool
    decreases |es|
  {
    if es == [] {
      acts := [];
    } else {
      acts := ServeRefinesPool(EventNext(s, es[0]), es[1..]);
      EventIsPoolStep(s, es[0]);
      var part := PoolStep(s, es[0]);
      if part.Some? {
        Schedules.LegalCons(s.pool, part.value, acts);
        acts := [part.value] + acts;
      }
    }
  }

  /** The pool step that an event consists of, if any. */
  ghost function PoolStep(s: Server, e: Event): Option<Action> {
    match e
    case Main(c) => PoolPart(s, c)
    case Worker(a, _) => Some(a)
  }

  lemma EventIsPoolStep(s: Server, e: Event)
    requires EventEnabled(s, e)
    ensures var part := PoolStep(s, e);
            if part.Some? then Enabled(s.pool, part.value) && EventNext(s, e).pool == Next(s.pool, part.value)
            else EventNext(s, e).pool == s.pool
  {
    match e {
      case Main(c) => MainIsPoolStep(s, c);
      case Worker(a, after) => WorkerEventFrame(s, a, after);
    }
  }

  lemma MainIsPoolStep(s: Server, c: Choice)
    requires MainEnabled(s, c)
    ensures var part := PoolPart(s, c);
            MainNext(s, c).pool == if part.Some? then Next(s.pool, part.value) else s.pool
  {
    EffectKeepsPool(s, c);
  }

  lemma EffectKeepsPool(s: Server, c: Choice)
    requires |s.pool.c| == 1
    ensures MainEffect(s, c).pool == s.pool
  {
  }

  /** Every state of every run from the start satisfies the invariant, its pool is a
      reachable pool, and active and queued connections together never pass 1025. */
  lemma ServeFromStart(workers: nat, es: seq<Event>)
    requires Lawful(InitServer(workers), es)
    ensures var s := Serve(InitServer(workers), es);
            && ServerInv(s)
            && Reachable(s.pool, workers, 1)
            && |s.table| + |s.pending| <= MAX_CONNECTIONS + 1
  {
    InitServerInv(workers);
    ServeKeepsInv(InitServer(workers), es);
    var acts := ServeRefinesPool(InitServer(workers), es);
  }

  /** After any run from the start, no task and no thread can reach a context that has been
      destroyed. */
  lemma NothingReachesDestroyed(workers: nat, es: seq<Event>)
    requires Lawful(InitServer(workers), es)
    ensures var s := Serve(InitServer(workers), es);
            && (forall t :: t in s.pool.queue || t in Hands(s.pool.w) ==> t.ctx in s.ctxs)
            && (forall t, x: nat :: Reaches(s.pool, t, x) ==> x in s.ctxs)
  {
    ServeFromStart(workers, es);
    var s := Serve(InitServer(workers), es);
    forall t | t in s.pool.queue || t in Hands(s.pool.w) ensures t.ctx in s.ctxs {
      TasksNameLiveContexts(s, t);
    }
    forall t, x: nat | Reaches(s.pool, t, x) ensures x in s.ctxs {
      MutexesBelongToLiveContexts(s, t, x);
    }
  }

  /** After any run from the start, a live context's reference count is the number of
      unfinished tasks that name it, plus the reservation of a submit under way, plus what
      failed submits have leaked: never below the number of tasks, and equal to it between
      submits if none has failed. */
  lemma ReferencesExact(workers: nat, es: seq<Event>, x: nat)
    requires Lawful(InitServer(workers), es) && x in Serve(InitServer(workers), es).ctxs
    ensures var s := Serve(InitServer(workers), es);
            && s.ctxs[x].refs == Outstanding(s.pool, x) + Reserved(s, x) + s.ctxs[x].leaked
            && s.ctxs[x].refs >= Outstanding(s.pool, x)
            && (s.ctxs[x].leaked == 0 && !s.main.IoReserved? && !s.main.IoSubmit? ==>
                  s.ctxs[x].refs == Outstanding(s.pool, x))
  {
    ServeFromStart(workers, es);
  }

  /** An outstanding context is named by a queued or carried task. */
  lemma OutstandingTask(p: Pool, x: nat) returns (t: Task)
    requires Outstanding(p, x) > 0
    ensures t.ctx == x && (t in p.queue || t in Hands(p.w))
  {
    if Sum(p.queue, Names(x)) > 0 {
      var k := SumPositive(p.queue, Names(x));
      t := p.queue[k];
    } else {
      var i := SumPositive(p.w, CarriesFor(x));
      t := Carries(p.w[i]).value;
      HandsUpdate(p.w, i, p.w[i]);
      assert t in Hand(p.w[i]);
    }
  }

  /** The clean exit frees every context after wait has returned. From the pass on, hence at
      the return and when contexts are freed, as long as nothing more is pushed: a context is
      still named by an unfinished task exactly if a worker still carries one for it that it
      carried at the pass, between its pop and its increment. */
  lemma WaitLeavesNamed(p: Pool, j: nat, acts: seq<Action>, x: nat)
    requires Inv(p) && PoolTheorems.AtPass(p, j) && Legal(p, acts) && Exec(p, acts).h.pushed == p.h.pushed
    ensures Outstanding(Exec(p, acts), x) > 0 <==>
            exists i: nat, t: Task :: WaitReturn.CarriedBy(p, i, t) && PoolTheorems.InWindow(p.w[i])
              && WaitReturn.CarriedBy(Exec(p, acts), i, t) && t.ctx == x
  {
    var p' := Exec(p, acts);
    RunKeepsInv(p, acts);
    if Outstanding(p', x) > 0 {
      var t := OutstandingTask(p', x);
      PoolTheorems.ExactlyOnce(p', t);
      WaitReturn.PassGuaranteesReturn(p, j, acts, t);
    }
    if i: nat, t: Task :| WaitReturn.CarriedBy(p', i, t) && t.ctx == x {
      CarriedIsOutstanding(p', i);
    }
  }

  // ---------------------------------------------------------------------------
  // Progress
  // ---------------------------------------------------------------------------

  /** The main thread's next step needs a mutex that is taken. */
  ghost predicate MainBlocked(s: Server) {
    && |s.pool.c| == 1
    && ClientWaitsFor(s.pool.c[0]).Some?
    && Owner(s.pool.locks, ClientWaitsFor(s.pool.c[0]).value).Some?
  }

  lemma UnblockedMainCanStep(s: Server) returns (c: Choice)
    requires SyncInv(s) && CurrentInv(s) && !s.main.Stopped? && !MainBlocked(s)
    requires !Dead(s.pool)
    ensures MainEnabled(s, c)
  {
    var wake := set k | 0 <= k < |s.pool.w| && s.pool.w[k].Asleep?;
    assert SignalWakes(s.pool.w, wake) by {
      assert forall k :: 0 <= k < |s.pool.w| && s.pool.w[k].Asleep? ==> k in wake;
    }
    c := Choice(wake, true, false, false, seq(|s.table|, _ => NONE));
  }

  /** If the main thread is blocked, some worker can step. */
  lemma BlockedMainLeavesWorker(s: Server) returns (i: nat, wake: set<nat>)
    requires Inv(s.pool) && SyncInv(s) && MainBlocked(s)
    ensures WorkerEnabled(s.pool, i, wake)
  {
    var r := PoolTheorems.SomeoneCanStep(s.pool, C(0));
    assert r != C(0);
    i := r.i;
    wake :| WorkerEnabled(s.pool, i, wake);
  }

  lemma SomeWorkerEvent(s: Server, i: nat, wake: set<nat>) returns (e: Event)
    requires WorkerEnabled(s.pool, i, wake)
    ensures EventEnabled(s, e)
  {
    var a := WorkerStep(i, wake);
    var after := if RunsBody(s.pool, a) && s.pool.w[i].t.ctx in s.ctxs
      then s.ctxs[s.pool.w[i].t.ctx].state else PendingClose;
    e := Worker(a, after);
  }

  /** In every state of the steady loop some step can be taken: the main thread's own, or,
      if it waits for a mutex, a worker's. */
  lemma SteadyLoopNeverStuck(s: Server) returns (e: Event)
    requires ServerInv(s) && !s.main.Stopped?
    ensures EventEnabled(s, e)
  {
    if MainBlocked(s) {
      var i, wake := BlockedMainLeavesWorker(s);
      e := SomeWorkerEvent(s, i, wake);
    } else {
      var c := UnblockedMainCanStep(s);
      e := Main(c);
    }
  }
}
