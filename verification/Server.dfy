/**
 * The server's main loop over the worker pool: sweep, update, poll, dispatch.
 *
 * The main thread is the pool's only client. Each of its steps is at most one step of
 * that client. Contexts have identities that are never reused; destroying one removes
 * it from `ctxs`, so a later use would name a context that is not there.
 */
module Server {
  import opened Prelude
  import opened ThreadPool

  /** `leaked` counts the references raised for a submit that then failed. */
  datatype Ctx = Ctx(refs: int, state: ConnState, leaked: nat)

  /** What the main thread does to a context under its mutex. */
  datatype Change = Raise | Leak | Close

  /** An entry of the connection table. */
  datatype Slot = Empty | Listener | SignalPipe | Conn(x: nat)

  datatype Ready = Ready(input: bool, hangup: bool, output: bool)

  /** No event. */
  const NONE := Ready(false, false, false)

  datatype MainPc =
    | Loop                                                       // the while test
    | Sweep(k: nat)
    | SweepWant(k: nat, x: nat)
    | SweepRead(k: nat, x: nat)
    | SweepRelease(k: nat, x: nat, refs: int, state: ConnState)  // holds the mutex and a snapshot
    | SweepAct(k: nat, x: nat, refs: int, state: ConnState)      // acts on the snapshot, unlocked
    | Update
    | Poll
    | Dispatch(k: nat)
    | Accept(k: nat)
    | HupTest(k: nat)
    | HupWant(k: nat, x: nat)
    | HupHold(k: nat, x: nat)
    | HupRelease(k: nat, x: nat)
    | OutTest(k: nat)
    | IoWant(k: nat, x: nat, fn: Fn)
    | IoHold(k: nat, x: nat, fn: Fn)
    | IoReserved(k: nat, x: nat, fn: Fn)                         // reference raised, submit not begun
    | IoSubmit(k: nat, x: nat, fn: Fn)                           // inside submit
    | IoRelease(k: nat, x: nat, fn: Fn, ok: bool)
    | Stopped                                                    // out of the steady loop

  datatype Server = Server(
    pool: Pool,
    ctxs: map<nat, Ctx>,
    nextId: nat,
    table: seq<Slot>,
    pending: seq<Slot>,
    ready: seq<Ready>,
    main: MainPc
  )

  /** What the outside decides in one step of the main thread: whom a signal wakes, whether
      allocations and calls succeed, whether to stop (the loop, or accepting), whether an
      arrival is lost for want of a buffer, and what poll reports. */
  datatype Choice = Choice(wake: set<nat>, ok: bool, stop: bool, lost: bool, ready: seq<Ready>)

  /** `after` is the state a task body leaves its context in. */
  datatype Event = Main(choice: Choice) | Worker(a: Action, after: ConnState)

  ghost function InitServer(workers: nat): Server {
    Server(Init(workers, 1), map[], 0, [], [Listener, SignalPipe], [], Loop)
  }

  // ---------------------------------------------------------------------------
  // Tasks
  // ---------------------------------------------------------------------------

  /** The states a task body may leave behind. It leaves every state it is not meant for,
      and any state during shutdown, unchanged. */
  ghost predicate BodyMoves(fn: Fn, before: ConnState, after: ConnState) {
    || after == before
    || (fn.IoRead? && before.ReadHeader? && (after.ReadContent? || after.PendingClose?))
    || (fn.IoRead? && before.ReadContent? && (after.WriteResponse? || after.PendingClose?))
    || (fn.IoSend? && before.WriteResponse? && after.ReadHeader?)
  }

  ghost predicate IsWorkerAction(a: Action) {
    a.WorkerStep? || a.WorkerSpurious?
  }

  /** This worker action runs a task body under its context mutex. */
  ghost predicate RunsBody(p: Pool, a: Action) {
    a.WorkerStep? && a.i < |p.w| && p.w[a.i].Body?
  }

  ghost predicate WorkerEventEnabled(s: Server, a: Action, after: ConnState) {
    && IsWorkerAction(a)
    && Enabled(s.pool, a)
    && (RunsBody(s.pool, a) && s.pool.w[a.i].t.ctx in s.ctxs ==>
          BodyMoves(s.pool.w[a.i].t.fn, s.ctxs[s.pool.w[a.i].t.ctx].state, after))
  }

  ghost function WorkerEvent(s: Server, a: Action, after: ConnState): Server
    requires WorkerEventEnabled(s, a, after)
  {
    var s1 := s.(pool := Next(s.pool, a));
    if RunsBody(s.pool, a) && s.pool.w[a.i].t.ctx in s.ctxs then
      var x := s.pool.w[a.i].t.ctx;
      s1.(ctxs := s.ctxs[x := s.ctxs[x].(refs := s.ctxs[x].refs - 1, state := after)])
    else
      s1
  }

  // ---------------------------------------------------------------------------
  // The main thread
  // ---------------------------------------------------------------------------

  ghost function NonEmpty(table: seq<Slot>): seq<Slot> {
    if table == [] then []
    else if table[0].Empty? then NonEmpty(table[1..])
    else [table[0]] + NonEmpty(table[1..])
  }

  /** The pool step that the main thread's next step consists of, if any. */
  ghost function PoolPart(s: Server, c: Choice): Option<Action> {
    match s.main
    case Sweep(k) => LockSlot(s, k, true)
    case SweepWant(_, _) => Some(ClientStep(0, c.wake, c.ok))
    case SweepRelease(_, _, _, _) => Some(ClientCall(0, UnlockCtx))
    case Dispatch(k) => LockSlot(s, k, k < |s.ready| && s.ready[k].input)
    case HupTest(k) => LockSlot(s, k, k < |s.ready| && s.ready[k].hangup)
    case HupWant(_, _) => Some(ClientStep(0, c.wake, c.ok))
    case HupRelease(_, _) => Some(ClientCall(0, UnlockCtx))
    case OutTest(k) => LockSlot(s, k, k < |s.ready| && s.ready[k].output)
    case IoWant(_, _, _) => Some(ClientStep(0, c.wake, c.ok))
    case IoReserved(_, x, fn) => if c.ok then Some(ClientCall(0, Submit(fn, x))) else None
    case IoSubmit(_, _, _) => Some(ClientStep(0, c.wake, c.ok))
    case IoRelease(_, _, _, _) => Some(ClientCall(0, UnlockCtx))
    case _ => None
  }

  /** Asking for the mutex of the context in slot k. */
  ghost function LockSlot(s: Server, k: nat, wanted: bool): Option<Action> {
    if wanted && k < |s.table| && s.table[k].Conn? then Some(ClientCall(0, LockCtx(s.table[k].x))) else None
  }

  ghost predicate MainEnabled(s: Server, c: Choice) {
    && |s.pool.c| == 1
    && !s.main.Stopped?
    && (s.main.Poll? ==> |c.ready| == |s.table|)
    && (PoolPart(s, c).Some? ==> Enabled(s.pool, PoolPart(s, c).value))
  }

  ghost function MainNext(s: Server, c: Choice): Server
    requires MainEnabled(s, c)
  {
    var s' := MainEffect(s, c);
    if PoolPart(s, c).Some? then s'.(pool := Next(s.pool, PoolPart(s, c).value)) else s'
  }

  /** What the main thread's next step does outside the pool. */
  ghost function MainEffect(s: Server, c: Choice): Server
    requires |s.pool.c| == 1
  {
    match s.main
    case Loop => s.(main := if c.stop then Stopped else Sweep(0))
    case Sweep(k) =>
      if k >= |s.table| then s.(main := Update)
      else if s.table[k].Conn? then s.(main := SweepWant(k, s.table[k].x))
      else s.(main := Sweep(k + 1))
    case SweepWant(k, x) => s.(main := SweepRead(k, x))
    case SweepRead(k, x) =>
      if x in s.ctxs then s.(main := SweepRelease(k, x, s.ctxs[x].refs, s.ctxs[x].state)) else s.(main := Stopped)
    case SweepRelease(k, x, refs, state) => s.(main := SweepAct(k, x, refs, state))
    case SweepAct(k, x, refs, state) => SweepDecide(s, k, x, refs, state)
    case Update =>
      if c.ok then s.(table := NonEmpty(s.table) + s.pending, pending := [], main := Poll)
      else s.(main := Stopped)
    case Poll => s.(ready := c.ready, main := if c.ok then Dispatch(0) else Stopped)
    case Dispatch(k) => DispatchInput(s, k)
    case Accept(k) => AcceptOne(s, c, k)
    case HupTest(k) =>
      if LockSlot(s, k, k < |s.ready| && s.ready[k].hangup).Some? then s.(main := HupWant(k, s.table[k].x))
      else s.(main := OutTest(k))
    case HupWant(k, x) => s.(main := HupHold(k, x))
    case HupHold(k, x) => Mark(s, x, Close).(main := HupRelease(k, x))
    case HupRelease(k, x) => s.(main := OutTest(k))
    case OutTest(k) =>
      if LockSlot(s, k, k < |s.ready| && s.ready[k].output).Some? then s.(main := IoWant(k, s.table[k].x, IoSend))
      else s.(main := Dispatch(k + 1))
    case IoWant(k, x, fn) => s.(main := IoHold(k, x, fn))
    case IoHold(k, x, fn) => Mark(s, x, Raise).(main := IoReserved(k, x, fn))
    case IoReserved(k, x, fn) =>
      if c.ok then s.(main := IoSubmit(k, x, fn))
      else Mark(s, x, Leak).(main := IoRelease(k, x, fn, false))
    case IoSubmit(k, x, fn) => SubmitStep(s, c, k, x, fn)
    case IoRelease(k, x, fn, ok) =>
      s.(main := if fn.IoSend? then Dispatch(k + 1) else if ok then HupTest(k) else Stopped)
    case Stopped => s
  }

  /** Update context x, if it is still there. */
  ghost function Mark(s: Server, x: nat, change: Change): Server {
    if x in s.ctxs then s.(ctxs := s.ctxs[x := Changed(s.ctxs[x], change)]) else s
  }

  ghost function Changed(m: Ctx, change: Change): Ctx {
    match change
    case Raise => m.(refs := m.refs + 1)
    case Leak => m.(leaked := m.leaked + 1)
    case Close => m.(state := PendingClose)
  }

  /** The sweep acts on the snapshot it took before it released the context. */
  ghost function SweepDecide(s: Server, k: nat, x: nat, refs: int, state: ConnState): Server {
    if state == PendingClose && refs == 0 && k < |s.table| then
      s.(ctxs := s.ctxs - {x}, table := s.table[k := Empty], main := Sweep(k + 1))
    else
      s.(main := Sweep(k + 1))
  }

  ghost function DispatchInput(s: Server, k: nat): Server {
    if k >= |s.table| then s.(main := Loop)
    else if k >= |s.ready| || !s.ready[k].input then s.(main := HupTest(k))
    else match s.table[k]
      case Empty => s.(main := HupTest(k))
      case Listener => s.(main := Accept(k))
      case SignalPipe => s.(main := Loop)
      case Conn(x) => s.(main := IoWant(k, x, IoRead))
  }

  /** One round of the accept loop. Leaving it is an error unless errno reads as would-block.
      An arrival without memory for its buffers counts as created. */
  ghost function AcceptOne(s: Server, c: Choice, k: nat): Server {
    if MAX_CONNECTIONS - |s.table| - |s.pending| + 1 == 0 || c.stop then
      s.(main := if c.ok then HupTest(k) else Stopped)
    else if !c.ok then
      s.(main := Stopped)
    else if c.lost then
      s
    else
      s.(ctxs := s.ctxs[s.nextId := Ctx(0, ReadHeader, 0)], pending := s.pending + [Conn(s.nextId)],
         nextId := s.nextId + 1)
  }

  /** One step inside submit. A node allocation that fails leaves the reference raised. */
  ghost function SubmitStep(s: Server, c: Choice, k: nat, x: nat, fn: Fn): Server
    requires |s.pool.c| == 1
  {
    match s.pool.c[0]
    case SubPush(_, _, _) => if c.ok then s else Mark(s, x, Leak)
    case SubUnlock(_, ok) => s.(main := IoRelease(k, x, fn, ok))
    case _ => s
  }

  // ---------------------------------------------------------------------------
  // Runs
  // ---------------------------------------------------------------------------

  ghost predicate EventEnabled(s: Server, e: Event) {
    match e
    case Main(c) => MainEnabled(s, c)
    case Worker(a, after) => WorkerEventEnabled(s, a, after)
  }

  ghost function EventNext(s: Server, e: Event): Server
    requires EventEnabled(s, e)
  {
    match e
    case Main(c) => MainNext(s, c)
    case Worker(a, after) => WorkerEvent(s, a, after)
  }

  ghost predicate Lawful(s: Server, es: seq<Event>)
    decreases |es|
  {
    es == [] || (EventEnabled(s, es[0]) && Lawful(EventNext(s, es[0]), es[1..]))
  }

  ghost function Serve(s: Server, es: seq<Event>): Server
    requires Lawful(s, es)
    decreases |es|
  {
    if es == [] then s else Serve(EventNext(s, es[0]), es[1..])
  }
}
