/** Runs of the server in which it does less than one might expect. */
module ServerRuns {
  import opened Prelude
  import opened ThreadPool
  import opened PoolInvariant
  import opened Server
  import opened ServerInvariant
  import ServerTheorems
  import Schedules
  import WaitReturn

  // ---------------------------------------------------------------------------
  // Building runs
  // ---------------------------------------------------------------------------

  ghost predicate Reached(s: Server) {
    exists es :: Lawful(InitServer(1), es) && Serve(InitServer(1), es) == s
  }

  lemma ReachedNext(s: Server, e: Event)
    requires Reached(s) && EventEnabled(s, e)
    ensures Reached(EventNext(s, e))
  {
    var es :| Lawful(InitServer(1), es) && Serve(InitServer(1), es) == s;
    assert Lawful(Serve(InitServer(1), es), [e]);
    ServerTheorems.LawfulConcat(InitServer(1), es, [e]);
  }

  lemma ReachedInv(s: Server)
    requires Reached(s)
    ensures ServerInv(s)
  {
    var first :| Lawful(InitServer(1), first) && Serve(InitServer(1), first) == s;
    ServerTheorems.ServeFromStart(1, first);
  }

  /** A main step in which all goes well. */
  ghost function Go(ready: seq<Ready>): Choice {
    Choice({}, true, false, false, ready)
  }

  lemma MainStep(s: Server, c: Choice) returns (r: Server)
    requires Reached(s) && MainEnabled(s, c)
    ensures r == MainNext(s, c) && Reached(r)
  {
    ReachedNext(s, Main(c));
    r := MainNext(s, c);
  }

  /** Dispatch passes over a slot without events in three steps. */
  lemma SkipSlot(s: Server, k: nat) returns (r: Server)
    requires Reached(s) && |s.pool.c| == 1 && s.main == Dispatch(k)
    requires k < |s.table| && k < |s.ready| && s.ready[k] == NONE
    ensures r == s.(main := Dispatch(k + 1)) && Reached(r)
  {
    r := MainStep(s, Go([]));
    assert r == s.(main := HupTest(k));
    r := SkipTests(r, k);
  }

  lemma SkipTests(s: Server, k: nat) returns (r: Server)
    requires Reached(s) && |s.pool.c| == 1 && s.main == HupTest(k)
    requires k < |s.table| && k < |s.ready| && s.ready[k] == NONE
    ensures r == s.(main := Dispatch(k + 1)) && Reached(r)
  {
    r := MainStep(s, Go([]));
    assert r == s.(main := OutTest(k));
    r := MainStep(r, Go([]));
  }

  // ---------------------------------------------------------------------------
  // One connection accepted
  // ---------------------------------------------------------------------------

  const TABLE: seq<Slot> := [Listener, SignalPipe, Conn(0)]

  /** One worker that has not moved, one connection. */
  ghost function At(pool: Pool, m: Ctx, ready: seq<Ready>, main: MainPc): Server {
    Server(pool, map[0 := m], 1, TABLE, [], ready, main)
  }

  lemma FirstPoll() returns (s: Server)
    ensures Reached(s)
    ensures s == Server(Init(1, 1), map[], 0, [Listener, SignalPipe], [], [], Poll)
  {
    s := InitServer(1);
    assert Lawful(s, []) && Serve(s, []) == s;
    s := MainStep(s, Go([]));
    assert s == InitServer(1).(main := Sweep(0));
    s := MainStep(s, Go([]));
    assert s == InitServer(1).(main := Update);
    s := MainStep(s, Go([]));
    assert NonEmpty([]) + [Listener, SignalPipe] == [Listener, SignalPipe];
  }

  /** The listener reports input, and one client is accepted. */
  lemma Accepted() returns (s: Server)
    ensures Reached(s) && s.pool == Init(1, 1) && s.ready == [Ready(true, false, false), NONE]
    ensures s.ctxs == map[0 := Ctx(0, ReadHeader, 0)] && s.nextId == 1
    ensures s.table == [Listener, SignalPipe] && s.pending == [Conn(0)] && s.main == HupTest(0)
  {
    var first := FirstPoll();
    var ready := [Ready(true, false, false), NONE];
    s := MainStep(first, Go(ready));
    assert s == first.(ready := ready, main := Dispatch(0));
    s := MainStep(s, Go([]));
    assert s == first.(ready := ready, main := Accept(0));
    s := MainStep(s, Go([]));
    assert s == first.(ready := ready, main := Accept(0), ctxs := map[0 := Ctx(0, ReadHeader, 0)],
                       pending := [Conn(0)], nextId := 1);
    s := MainStep(s, Choice({}, true, true, false, []));
  }

  lemma ListenerDone() returns (s: Server)
    ensures Reached(s) && s.pool == Init(1, 1) && s.ready == [Ready(true, false, false), NONE]
    ensures s.ctxs == map[0 := Ctx(0, ReadHeader, 0)] && s.nextId == 1
    ensures s.table == [Listener, SignalPipe] && s.pending == [Conn(0)] && s.main == Dispatch(1)
  {
    var a := Accepted();
    s := MainStep(a, Go([]));
    assert s == a.(main := OutTest(0));
    s := MainStep(s, Go([]));
  }

  lemma AcceptedLoop() returns (s: Server)
    ensures Reached(s) && s.pool == Init(1, 1)
    ensures s.ctxs == map[0 := Ctx(0, ReadHeader, 0)] && s.nextId == 1
    ensures s.table == [Listener, SignalPipe] && s.pending == [Conn(0)] && s.main == Loop
  {
    var a := ListenerDone();
    s := SkipSlot(a, 1);
    s := MainStep(s, Go([]));
  }

  lemma SweepPassed() returns (s: Server)
    ensures Reached(s) && s.pool == Init(1, 1)
    ensures s.ctxs == map[0 := Ctx(0, ReadHeader, 0)] && s.nextId == 1
    ensures s.table == [Listener, SignalPipe] && s.pending == [Conn(0)] && s.main == Sweep(2)
  {
    var a := AcceptedLoop();
    s := MainStep(a, Go([]));
    assert s == a.(main := Sweep(0));
    s := MainStep(s, Go([]));
    assert s == a.(main := Sweep(1));
    s := MainStep(s, Go([]));
  }

  /** The next round moves it into the table. */
  lemma SecondPoll() returns (s: Server)
    ensures Reached(s) && s == At(Init(1, 1), Ctx(0, ReadHeader, 0), s.ready, Poll)
  {
    var a := SweepPassed();
    s := MainStep(a, Go([]));
    assert s == a.(main := Update);
    s := MainStep(s, Go([]));
    assert NonEmpty(a.table) == a.table by {
      assert a.table[1..] == [SignalPipe];
      assert a.table[1..][1..] == [];
    }
    assert a.table + a.pending == TABLE;
  }

  /** Poll reports events on the connection alone, and dispatch comes to its slot. */
  lemma AtConnection(event: Ready) returns (s: Server)
    ensures Reached(s) && s == At(Init(1, 1), Ctx(0, ReadHeader, 0), [NONE, NONE, event], Dispatch(2))
  {
    var a := SecondPoll();
    var ready := [NONE, NONE, event];
    s := MainStep(a, Go(ready));
    assert s == a.(ready := ready, main := Dispatch(0));
    s := SkipSlot(s, 0);
    s := SkipSlot(s, 1);
  }

  // ---------------------------------------------------------------------------
  // A reference that leaks
  // ---------------------------------------------------------------------------

  /** The pool with the main thread at `c`, holding or not holding the connection's mutex. */
  ghost function Main0(c: ClientPc, held: bool): Pool {
    Init(1, 1).(c := [c], locks := Locks(None, None, if held then map[0 := C(0)] else map[]))
  }

  const HUNG_UP := [NONE, NONE, Ready(false, true, true)]

  /** The connection has hung up: the main thread takes its mutex. */
  lemma HangUpSeen() returns (s: Server)
    ensures Reached(s) && s == At(Main0(WantCtx(0), false), Ctx(0, ReadHeader, 0), HUNG_UP, HupWant(2, 0))
  {
    s := AtConnection(HUNG_UP[2]);
    s := MainStep(s, Go([]));
    assert s == At(Init(1, 1), Ctx(0, ReadHeader, 0), HUNG_UP, HupTest(2));
    s := MainStep(s, Go([]));
  }

  lemma HangUpHeld() returns (s: Server)
    ensures Reached(s) && s == At(Main0(Idle(Some(0)), true), Ctx(0, ReadHeader, 0), HUNG_UP, HupHold(2, 0))
  {
    s := HangUpSeen();
    s := MainStep(s, Go([]));
  }

  /** It marks the connection closing. */
  lemma Marked() returns (s: Server)
    ensures Reached(s) && s == At(Main0(Idle(Some(0)), true), Ctx(0, PendingClose, 0), HUNG_UP, HupRelease(2, 0))
  {
    s := HangUpHeld();
    s := MainStep(s, Go([]));
  }

  /** The same event reports that output is possible. */
  lemma OutputSeen() returns (s: Server)
    ensures Reached(s) && s == At(Main0(WantCtx(0), false), Ctx(0, PendingClose, 0), HUNG_UP, IoWant(2, 0, IoSend))
  {
    s := Marked();
    s := MainStep(s, Go([]));
    assert s.pool.locks.ctx == map[];
    assert s == At(Main0(Idle(None), false), Ctx(0, PendingClose, 0), HUNG_UP, OutTest(2));
    s := MainStep(s, Go([]));
  }

  lemma OutputHeld() returns (s: Server)
    ensures Reached(s) && s == At(Main0(Idle(Some(0)), true), Ctx(0, PendingClose, 0), HUNG_UP, IoHold(2, 0, IoSend))
  {
    s := OutputSeen();
    s := MainStep(s, Go([]));
  }

  /** The count is raised for the send task. */
  lemma RaisedForSend() returns (s: Server)
    ensures Reached(s)
    ensures s == At(Main0(Idle(Some(0)), true), Ctx(1, PendingClose, 0), HUNG_UP, IoReserved(2, 0, IoSend))
  {
    s := OutputHeld();
    s := MainStep(s, Go([]));
  }

  /** The submit has no memory: the count stays raised. */
  lemma SubmitFailed() returns (s: Server)
    ensures Reached(s)
    ensures s == At(Main0(Idle(Some(0)), true), Ctx(1, PendingClose, 1), HUNG_UP, IoRelease(2, 0, IoSend, false))
  {
    s := RaisedForSend();
    s := MainStep(s, Choice({}, false, false, false, []));
  }

  lemma LeakedReference() returns (s: Server)
    ensures Reached(s) && s == At(Main0(Idle(None), false), Ctx(1, PendingClose, 1), HUNG_UP, Dispatch(3))
  {
    s := SubmitFailed();
    s := MainStep(s, Go([]));
    assert s.pool.locks.ctx == map[];
  }

  /** Such a state, by what matters about it. */
  lemma ClosedWithLeak() returns (s: Server)
    ensures Reached(s) && ServerInv(s) && 0 in s.ctxs && s.ctxs[0].state == PendingClose && s.ctxs[0].leaked > 0
    ensures Outstanding(s.pool, 0) == 0
  {
    s := LeakedReference();
    ReachedInv(s);
    NothingOutstanding(s.pool);
  }

  /** So the server can come to hold a connection that has closed, that no task names, and
      that no continuation of the loop ever destroys. */
  lemma ClosedButNeverDestroyed() returns (s: Server)
    ensures Reached(s) && 0 in s.ctxs && s.ctxs[0].state == PendingClose && Outstanding(s.pool, 0) == 0
    ensures forall es :: Lawful(s, es) ==> 0 in Serve(s, es).ctxs
  {
    s := ClosedWithLeak();
    LeakIsForEver(s, 0);
  }

  lemma NothingOutstanding(p: Pool)
    requires p == Main0(Idle(None), false)
    ensures Outstanding(p, 0) == 0
  {
    NoneCarried(p.w, 0);
  }

  lemma {:induction false} LeakIsForEver(s: Server, x: nat)
    requires ServerInv(s) && x in s.ctxs && s.ctxs[x].leaked > 0
    ensures forall es :: Lawful(s, es) ==> x in Serve(s, es).ctxs
  {
    assert x < s.nextId;
    forall es | Lawful(s, es) ensures x in Serve(s, es).ctxs {
      ServerTheorems.FateOverRuns(s, es, x);
    }
  }

  // ---------------------------------------------------------------------------
  // The clean exit
  // ---------------------------------------------------------------------------

  const INPUT := [NONE, NONE, Ready(true, false, false)]
  const TASK := Task(0, IoRead, 0)

  /** The pool with the worker at `w` and the main thread at `c`, with one task pushed. */
  ghost function Busy(w: WorkerPc, c: ClientPc, q: Option<Tid>, held: bool, queue: seq<Task>, popped: seq<Task>): Pool {
    Pool([w], [c], Locks(q, None, if held then map[0 := C(0)] else map[]), queue, 0, false, false,
         History([TASK], popped, [], []))
  }

  /** The connection has input: the main thread takes its mutex. */
  lemma InputSeen() returns (s: Server)
    ensures Reached(s) && s == At(Main0(Idle(Some(0)), true), Ctx(0, ReadHeader, 0), INPUT, IoHold(2, 0, IoRead))
  {
    s := AtConnection(INPUT[2]);
    s := MainStep(s, Go([]));
    assert s == At(Main0(WantCtx(0), false), Ctx(0, ReadHeader, 0), INPUT, IoWant(2, 0, IoRead));
    s := MainStep(s, Go([]));
  }

  lemma RaisedForRead() returns (s: Server)
    ensures Reached(s) && s == At(Main0(Idle(Some(0)), true), Ctx(1, ReadHeader, 0), INPUT, IoReserved(2, 0, IoRead))
  {
    s := InputSeen();
    s := MainStep(s, Go([]));
  }

  /** Its count is raised and submit is called. */
  lemma Submitting() returns (s: Server)
    ensures Reached(s)
    ensures s == At(Main0(SubWant(Some(0), IoRead, 0), true), Ctx(1, ReadHeader, 0), INPUT, IoSubmit(2, 0, IoRead))
  {
    s := RaisedForRead();
    s := MainStep(s, Go([]));
  }

  /** The read task is pushed. */
  lemma TaskPushed() returns (s: Server)
    ensures Reached(s)
    ensures s == At(Busy(WantQueue, SubSignal(Some(0)), Some(C(0)), true, [TASK], []), Ctx(1, ReadHeader, 0), INPUT,
                    IoSubmit(2, 0, IoRead))
  {
    s := Submitting();
    s := MainStep(s, Go([]));
    s := MainStep(s, Go([]));
  }

  /** Submit returns. */
  lemma TaskSubmitted() returns (s: Server)
    ensures Reached(s)
    ensures s == At(Busy(WantQueue, Idle(Some(0)), None, true, [TASK], []), Ctx(1, ReadHeader, 0), INPUT,
                    IoRelease(2, 0, IoRead, true))
  {
    s := TaskPushed();
    s := MainStep(s, Go([]));
    assert s.pool == Busy(WantQueue, SubUnlock(Some(0), true), Some(C(0)), true, [TASK], []);
    s := MainStep(s, Go([]));
  }

  lemma MutexReleased() returns (s: Server)
    ensures Reached(s)
    ensures s == At(Busy(WantQueue, Idle(None), None, false, [TASK], []), Ctx(1, ReadHeader, 0), INPUT, OutTest(2))
  {
    s := TaskSubmitted();
    s := MainStep(s, Go([]));
    assert s.pool.locks.ctx == map[];
    assert s == At(Busy(WantQueue, Idle(None), None, false, [TASK], []), Ctx(1, ReadHeader, 0), INPUT, HupTest(2));
    s := MainStep(s, Go([]));
  }

  /** The main thread reaches the end of its loop, which stops. */
  lemma LoopLeft() returns (s: Server)
    ensures Reached(s)
    ensures s == At(Busy(WantQueue, Idle(None), None, false, [TASK], []), Ctx(1, ReadHeader, 0), INPUT, Stopped)
  {
    s := MutexReleased();
    s := MainStep(s, Go([]));
    assert s == At(Busy(WantQueue, Idle(None), None, false, [TASK], []), Ctx(1, ReadHeader, 0), INPUT, Dispatch(3));
    s := MainStep(s, Go([]));
    s := MainStep(s, Choice({}, true, true, false, []));
  }

  /** The worker pops the task and is stopped before it counts itself. */
  lemma TaskTaken() returns (s: Server)
    ensures Reached(s)
    ensures s == At(Busy(Relay(TASK), Idle(None), Some(W(0)), false, [], [TASK]), Ctx(1, ReadHeader, 0), INPUT, Stopped)
  {
    var s0 := LoopLeft();
    var e := Worker(WorkerStep(0, {}), ReadHeader);
    ReachedNext(s0, e);
    var s1 := EventNext(s0, e);
    assert s1 == s0.(pool := Busy(Check, Idle(None), Some(W(0)), false, [TASK], []));
    ReachedNext(s1, e);
    s := EventNext(s1, e);
    assert s == s0.(pool := Busy(Relay(TASK), Idle(None), Some(W(0)), false, [], [TASK]));
  }

  lemma TaskPopped() returns (s: Server)
    ensures Reached(s)
    ensures s == At(Busy(WantInc(TASK), Idle(None), None, false, [], [TASK]), Ctx(1, ReadHeader, 0), INPUT, Stopped)
  {
    var s0 := TaskTaken();
    var e := Worker(WorkerStep(0, {}), ReadHeader);
    ReachedNext(s0, e);
    var s1 := EventNext(s0, e);
    assert s1 == s0.(pool := Busy(UnlockQueue(TASK), Idle(None), Some(W(0)), false, [], [TASK]));
    ReachedNext(s1, e);
    s := EventNext(s1, e);
  }

  lemma WaitReturnsEarly(p: Pool) returns (acts: seq<Action>)
    requires Inv(p) && p == Busy(WantInc(TASK), WaitWant, None, false, [], [TASK])
    ensures Legal(p, acts) && WaitReturn.Returning(Exec(p, acts), 0)
    ensures WaitReturn.CarriedBy(Exec(p, acts), 0, TASK) && TASK !in Exec(p, acts).h.finished
  {
    acts := WaitReturn.PausedToReturn(p, 0, 0);
    WaitReturn.CarriedRun(p, acts, 0, TASK);
  }

  lemma WaitCalled(s: Server) returns (p: Pool)
    requires Inv(s.pool) && s.pool == Busy(WantInc(TASK), Idle(None), None, false, [], [TASK])
    ensures Enabled(s.pool, ClientCall(0, Wait)) && p == Next(s.pool, ClientCall(0, Wait)) && Inv(p)
    ensures p == Busy(WantInc(TASK), WaitWant, None, false, [], [TASK])
  {
    assert !Dead(s.pool);
    StepKeepsInv(s.pool, ClientCall(0, Wait));
    p := Next(s.pool, ClientCall(0, Wait));
  }

  /** Some worker still has to run a task that names one of the server's contexts. */
  ghost predicate StillNamed(p: Pool, s: Server) {
    exists i: nat :: i < |p.w| && Carries(p.w[i]).Some? && Unfinished(p, Carries(p.w[i]).value, s)
  }

  ghost predicate Unfinished(p: Pool, t: Task, s: Server) {
    t !in p.h.finished && t.ctx in s.ctxs
  }

  /** From here wait can be called and come to report success with a context still named. */
  ghost predicate WaitCanLeaveNamed(s: Server) {
    exists acts :: WaitLeaves(s, acts)
  }

  ghost predicate WaitLeaves(s: Server, acts: seq<Action>) {
    && acts != [] && acts[0] == ClientCall(0, Wait) && Legal(s.pool, acts)
    && WaitReturn.Returning(Exec(s.pool, acts), 0) && StillNamed(Exec(s.pool, acts), s)
  }

  lemma LeavesNamed(s: Server, rest: seq<Action>)
    requires Enabled(s.pool, ClientCall(0, Wait)) && Legal(Next(s.pool, ClientCall(0, Wait)), rest)
    requires var p := Exec(Next(s.pool, ClientCall(0, Wait)), rest);
             && WaitReturn.Returning(p, 0) && WaitReturn.CarriedBy(p, 0, TASK) && Unfinished(p, TASK, s)
    ensures WaitCanLeaveNamed(s)
  {
    Schedules.LegalCons(s.pool, ClientCall(0, Wait), rest);
    assert WaitLeaves(s, [ClientCall(0, Wait)] + rest);
  }

  /** The clean exit frees every context once wait has returned. Here it has left the loop,
      and wait can come to report success while a worker still has to run a task that names
      one of those contexts. */
  lemma CleanExitLeavesNamed() returns (s: Server)
    ensures Reached(s) && s.main.Stopped? && WaitCanLeaveNamed(s)
  {
    s := TaskPopped();
    ReachedInv(s);
    var p := WaitCalled(s);
    var rest := WaitReturnsEarly(p);
    LeavesNamed(s, rest);
  }
}
