/**
 * The worker pool as a system of atomic steps.
 *
 * Any number of workers and any number of client threads share one work queue, one
 * counter of active tasks and one shutdown flag, under a queue mutex and an active
 * mutex, each with its condition variable. Every thread has a program counter; one
 * step is one lock acquisition, one unlock, or one action inside a critical section.
 * A task body locks the mutex of the context it names; a client may hold such a
 * mutex while it submits.
 */
module ThreadPool {
  import opened Prelude

  datatype Fn = IoRead | IoSend

  /** A submitted task. `id` is its position in submission order. */
  datatype Task = Task(id: nat, fn: Fn, ctx: nat)

  datatype Tid = W(i: nat) | C(j: nat)

  datatype Mutex = CtxMutex(x: nat) | QueueMutex | ActiveMutex

  /** Worker program counter, in the order of the worker loop. */
  datatype WorkerPc =
    | WantQueue              // about to lock the queue mutex
    | Woken                  // signalled, about to re-lock the queue mutex
    | Check                  // holds the queue mutex, at the loop test
    | Asleep                 // in the queue wait set
    | Relay(t: Task)         // popped t, about to pass a signal on
    | UnlockQueue(t: Task)
    | WantInc(t: Task)
    | Inc(t: Task)
    | UnlockInc(t: Task)
    | Start(t: Task)         // counted; the body is about to lock its context
    | Body(t: Task)          // the body runs under the context mutex
    | WantDec
    | Dec
    | UnlockDec
    | UnlockExit             // saw the shutdown flag
    | WantExit
    | ExitCheck
    | Exited

  /** Client program counter: idle, or inside submit, wait or destroy. */
  datatype ClientPc =
    | Idle(held: Option<nat>)
    | WantCtx(x: nat)
    | SubWant(held: Option<nat>, fn: Fn, x: nat)
    | SubPush(held: Option<nat>, fn: Fn, x: nat)
    | SubSignal(held: Option<nat>)
    | SubUnlock(held: Option<nat>, ok: bool)
    | WaitWant
    | WaitWoken
    | WaitTest
    | WaitAsleep
    | WaitSize
    | WaitRetry
    | WaitPass
    | WaitWantQueue
    | WaitCheck
    | WaitUnlock(empty: bool)
    | StopWant
    | StopSet
    | StopBroadcast
    | StopUnlock
    | Join(k: nat)
    | Destroyed

  /** Who holds each mutex. */
  datatype Locks = Locks(queue: Option<Tid>, active: Option<Tid>, ctx: map<nat, Tid>)

  /** What has happened so far: pushes and pops in order, bodies run to their end, and
      what destroy freed unrun. */
  datatype History = History(pushed: seq<Task>, popped: seq<Task>, finished: seq<Task>, discarded: seq<Task>)

  /** `closing` records that some client has entered destroy. */
  datatype Pool = Pool(
    w: seq<WorkerPc>,
    c: seq<ClientPc>,
    locks: Locks,
    queue: seq<Task>,
    active: int,
    shutdown: bool,
    closing: bool,
    h: History
  )

  datatype Call = LockCtx(x: nat) | UnlockCtx | Submit(fn: Fn, x: nat) | Wait | Destroy

  /**
   * `wake` is the set of workers a signal in this step moves out of the wait set;
   * `ok` is whether the allocation in this step succeeds.
   */
  datatype Action =
    | WorkerStep(i: nat, wake: set<nat>)
    | WorkerSpurious(i: nat)
    | ClientCall(j: nat, call: Call)
    | ClientStep(j: nat, wake: set<nat>, ok: bool)
    | ClientSpurious(j: nat)

  ghost function Init(workers: nat, clients: nat): Pool {
    Pool(seq(workers, _ => WantQueue), seq(clients, _ => Idle(None)), Locks(None, None, map[]),
         [], 0, false, false, History([], [], [], []))
  }

  ghost function Owner(l: Locks, m: Mutex): Option<Tid> {
    match m
    case CtxMutex(x) => if x in l.ctx then Some(l.ctx[x]) else None
    case QueueMutex => l.queue
    case ActiveMutex => l.active
  }

  ghost function Lock(l: Locks, m: Mutex, t: Tid): Locks {
    match m
    case CtxMutex(x) => l.(ctx := l.ctx[x := t])
    case QueueMutex => l.(queue := Some(t))
    case ActiveMutex => l.(active := Some(t))
  }

  ghost function Unlock(l: Locks, m: Mutex): Locks {
    match m
    case CtxMutex(x) => l.(ctx := l.ctx - {x})
    case QueueMutex => l.(queue := None)
    case ActiveMutex => l.(active := None)
  }

  // ---------------------------------------------------------------------------
  // Condition variables
  // ---------------------------------------------------------------------------

  /** A signal wakes only sleepers, and at least one if there is one. */
  ghost predicate SignalWakes(w: seq<WorkerPc>, wake: set<nat>) {
    && (forall k :: k in wake ==> k < |w| && w[k] == Asleep)
    && (wake == {} ==> forall k :: 0 <= k < |w| ==> w[k] != Asleep)
  }

  ghost function Wake(w: seq<WorkerPc>, wake: set<nat>): (r: seq<WorkerPc>)
    ensures |r| == |w|
    ensures forall k :: 0 <= k < |w| ==> r[k] == if k in wake && w[k] == Asleep then Woken else w[k]
  {
    seq(|w|, k requires 0 <= k < |w| => if k in wake && w[k] == Asleep then Woken else w[k])
  }

  ghost function WakeAll(w: seq<WorkerPc>): (r: seq<WorkerPc>)
    ensures |r| == |w|
    ensures forall k :: 0 <= k < |w| ==> r[k] == if w[k] == Asleep then Woken else w[k]
  {
    seq(|w|, k requires 0 <= k < |w| => if w[k] == Asleep then Woken else w[k])
  }

  ghost function WakeWaiters(c: seq<ClientPc>): (r: seq<ClientPc>)
    ensures |r| == |c|
    ensures forall k :: 0 <= k < |c| ==> r[k] == if c[k] == WaitAsleep then WaitWoken else c[k]
  {
    seq(|c|, k requires 0 <= k < |c| => if c[k] == WaitAsleep then WaitWoken else c[k])
  }

  // ---------------------------------------------------------------------------
  // Worker steps
  // ---------------------------------------------------------------------------

  /** The mutex a worker's next step must acquire, if any. */
  ghost function WorkerWaitsFor(pc: WorkerPc): Option<Mutex> {
    match pc
    case WantQueue => Some(QueueMutex)
    case Woken => Some(QueueMutex)
    case WantExit => Some(QueueMutex)
    case WantInc(_) => Some(ActiveMutex)
    case WantDec => Some(ActiveMutex)
    case Start(t) => Some(CtxMutex(t.ctx))
    case _ => None
  }

  ghost function WorkerLocked(pc: WorkerPc): WorkerPc {
    match pc
    case WantQueue => Check
    case Woken => Check
    case WantExit => ExitCheck
    case WantInc(t) => Inc(t)
    case WantDec => Dec
    case Start(t) => Body(t)
    case _ => pc
  }

  /** The mutex a worker's next step does nothing but release, if any. */
  ghost function WorkerReleases(pc: WorkerPc): Option<Mutex> {
    match pc
    case UnlockQueue(_) => Some(QueueMutex)
    case UnlockInc(_) => Some(ActiveMutex)
    case UnlockDec => Some(ActiveMutex)
    case UnlockExit => Some(QueueMutex)
    case _ => None
  }

  ghost function WorkerUnlocked(pc: WorkerPc): WorkerPc {
    match pc
    case UnlockQueue(t) => WantInc(t)
    case UnlockInc(t) => Start(t)
    case UnlockDec => WantQueue
    case UnlockExit => WantExit
    case _ => pc
  }

  ghost predicate WorkerEnabled(s: Pool, i: nat, wake: set<nat>) {
    && i < |s.w|
    && !s.w[i].Asleep?
    && !s.w[i].Exited?
    && (WorkerWaitsFor(s.w[i]).Some? ==> Owner(s.locks, WorkerWaitsFor(s.w[i]).value) == None)
    && (s.w[i].Relay? && s.queue != [] ==> SignalWakes(s.w, wake))
  }

  ghost function WorkerNext(s: Pool, i: nat, wake: set<nat>): Pool
    requires WorkerEnabled(s, i, wake)
  {
    var pc := s.w[i];
    if WorkerWaitsFor(pc).Some? then
      s.(locks := Lock(s.locks, WorkerWaitsFor(pc).value, W(i)), w := s.w[i := WorkerLocked(pc)])
    else if WorkerReleases(pc).Some? then
      s.(locks := Unlock(s.locks, WorkerReleases(pc).value), w := s.w[i := WorkerUnlocked(pc)])
    else
      WorkerActs(s, i, wake)
  }

  /** The steps that do something other than lock or unlock. */
  ghost function WorkerActs(s: Pool, i: nat, wake: set<nat>): Pool
    requires WorkerEnabled(s, i, wake)
    requires WorkerWaitsFor(s.w[i]).None? && WorkerReleases(s.w[i]).None?
  {
    match s.w[i]
    case Check =>
      if s.shutdown then s.(w := s.w[i := UnlockExit])
      else if s.queue == [] then s.(locks := Unlock(s.locks, QueueMutex), w := s.w[i := Asleep])
      else s.(w := s.w[i := Relay(s.queue[0])], queue := s.queue[1..],
              h := s.h.(popped := s.h.popped + [s.queue[0]]))
    case Relay(t) =>
      s.(w := (if s.queue != [] then Wake(s.w, wake) else s.w)[i := UnlockQueue(t)])
    case Inc(t) =>
      s.(active := s.active + 1, c := WakeWaiters(s.c), w := s.w[i := UnlockInc(t)])
    case Body(t) =>
      s.(locks := Unlock(s.locks, CtxMutex(t.ctx)), w := s.w[i := WantDec],
         h := s.h.(finished := s.h.finished + [t]))
    case Dec =>
      s.(active := s.active - 1, c := WakeWaiters(s.c), w := s.w[i := UnlockDec])
    case ExitCheck =>
      s.(shutdown := true, locks := Unlock(s.locks, QueueMutex),
         w := (if s.shutdown then s.w else WakeAll(s.w))[i := Exited])
  }

  // ---------------------------------------------------------------------------
  // Client steps
  // ---------------------------------------------------------------------------

  ghost function ClientWaitsFor(pc: ClientPc): Option<Mutex> {
    match pc
    case WantCtx(x) => Some(CtxMutex(x))
    case SubWant(_, _, _) => Some(QueueMutex)
    case WaitWant => Some(ActiveMutex)
    case WaitWoken => Some(ActiveMutex)
    case WaitWantQueue => Some(QueueMutex)
    case StopWant => Some(QueueMutex)
    case _ => None
  }

  ghost function ClientLocked(pc: ClientPc): ClientPc {
    match pc
    case WantCtx(x) => Idle(Some(x))
    case SubWant(h, fn, x) => SubPush(h, fn, x)
    case WaitWant => WaitTest
    case WaitWoken => WaitTest
    case WaitWantQueue => WaitCheck
    case StopWant => StopSet
    case _ => pc
  }

  ghost function ClientReleases(pc: ClientPc): Option<Mutex> {
    match pc
    case SubUnlock(_, _) => Some(QueueMutex)
    case WaitRetry => Some(ActiveMutex)
    case WaitPass => Some(ActiveMutex)
    case WaitUnlock(_) => Some(QueueMutex)
    case StopUnlock => Some(QueueMutex)
    case _ => None
  }

  ghost function ClientUnlocked(pc: ClientPc): ClientPc {
    match pc
    case SubUnlock(h, _) => Idle(h)
    case WaitRetry => WaitWant
    case WaitPass => WaitWantQueue
    case WaitUnlock(empty) => if empty then Idle(None) else WaitWant
    case StopUnlock => Join(0)
    case _ => pc
  }

  /** Destroy's contract: nobody else is inside the pool when it is torn down. */
  ghost predicate OthersIdle(c: seq<ClientPc>, j: nat) {
    forall k :: 0 <= k < |c| && k != j ==> c[k].Idle? || c[k].WantCtx?
  }

  /** A thread inside a call can take its next step. */
  ghost predicate ClientEnabled(s: Pool, j: nat, wake: set<nat>) {
    && j < |s.c|
    && !s.c[j].Idle?
    && !s.c[j].WaitAsleep?
    && !s.c[j].Destroyed?
    && (ClientWaitsFor(s.c[j]).Some? ==> Owner(s.locks, ClientWaitsFor(s.c[j]).value) == None)
    && (s.c[j].SubSignal? ==> SignalWakes(s.w, wake))
    && (s.c[j].Join? ==> if s.c[j].k < |s.w| then s.w[s.c[j].k] == Exited else OthersIdle(s.c, j))
  }

  ghost function ClientNext(s: Pool, j: nat, wake: set<nat>, ok: bool): Pool
    requires ClientEnabled(s, j, wake)
  {
    var pc := s.c[j];
    if ClientWaitsFor(pc).Some? then
      s.(locks := Lock(s.locks, ClientWaitsFor(pc).value, C(j)), c := s.c[j := ClientLocked(pc)])
    else if ClientReleases(pc).Some? then
      s.(locks := Unlock(s.locks, ClientReleases(pc).value), c := s.c[j := ClientUnlocked(pc)])
    else
      ClientActs(s, j, wake, ok)
  }

  ghost function ClientActs(s: Pool, j: nat, wake: set<nat>, ok: bool): Pool
    requires ClientEnabled(s, j, wake)
    requires ClientWaitsFor(s.c[j]).None? && ClientReleases(s.c[j]).None?
  {
    match s.c[j]
    case SubPush(h, fn, x) =>
      if ok then
        var t := Task(|s.h.pushed|, fn, x);
        s.(queue := s.queue + [t], h := s.h.(pushed := s.h.pushed + [t]), c := s.c[j := SubSignal(h)])
      else
        s.(c := s.c[j := SubUnlock(h, false)])
    case SubSignal(h) => s.(w := Wake(s.w, wake), c := s.c[j := SubUnlock(h, true)])
    case WaitTest =>
      if s.active > 0 then s.(locks := Unlock(s.locks, ActiveMutex), c := s.c[j := WaitAsleep])
      else s.(c := s.c[j := WaitSize])
    case WaitSize => s.(c := s.c[j := if |s.queue| > 0 then WaitRetry else WaitPass])
    case WaitCheck => s.(c := s.c[j := WaitUnlock(s.queue == [])])
    case StopSet => s.(shutdown := true, c := s.c[j := StopBroadcast])
    case StopBroadcast => s.(w := WakeAll(s.w), c := s.c[j := StopUnlock])
    case Join(k) =>
      if k < |s.w| then s.(c := s.c[j := Join(k + 1)])
      else s.(h := s.h.(discarded := s.h.discarded + s.queue), queue := [], c := s.c[j := Destroyed])
  }

  /** The pool has been torn down; no call into it may begin. */
  ghost predicate Dead(s: Pool) {
    exists j :: 0 <= j < |s.c| && s.c[j].Destroyed?
  }

  ghost predicate CallEnabled(s: Pool, j: nat, call: Call) {
    && j < |s.c|
    && s.c[j].Idle?
    && match call
       case LockCtx(x) => s.c[j].held.None?
       case UnlockCtx => s.c[j].held.Some?
       case Submit(_, _) => !Dead(s)
       case Wait => s.c[j].held.None? && !Dead(s)
       case Destroy => s.c[j].held.None? && !Dead(s) && !s.closing
  }

  ghost function CallNext(s: Pool, j: nat, call: Call): Pool
    requires CallEnabled(s, j, call)
  {
    match call
    case LockCtx(x) => s.(c := s.c[j := WantCtx(x)])
    case UnlockCtx => s.(locks := Unlock(s.locks, CtxMutex(s.c[j].held.value)), c := s.c[j := Idle(None)])
    case Submit(fn, x) => s.(c := s.c[j := SubWant(s.c[j].held, fn, x)])
    case Wait => s.(c := s.c[j := WaitWant])
    case Destroy => s.(closing := true, c := s.c[j := StopWant])
  }

  // ---------------------------------------------------------------------------
  // Runs
  // ---------------------------------------------------------------------------

  ghost predicate Enabled(s: Pool, a: Action) {
    match a
    case WorkerStep(i, wake) => WorkerEnabled(s, i, wake)
    case WorkerSpurious(i) => i < |s.w| && s.w[i].Asleep?
    case ClientCall(j, call) => CallEnabled(s, j, call)
    case ClientStep(j, wake, _) => ClientEnabled(s, j, wake)
    case ClientSpurious(j) => j < |s.c| && s.c[j].WaitAsleep?
  }

  ghost function Next(s: Pool, a: Action): Pool
    requires Enabled(s, a)
  {
    match a
    case WorkerStep(i, wake) => WorkerNext(s, i, wake)
    case WorkerSpurious(i) => s.(w := s.w[i := Woken])
    case ClientCall(j, call) => CallNext(s, j, call)
    case ClientStep(j, wake, ok) => ClientNext(s, j, wake, ok)
    case ClientSpurious(j) => s.(c := s.c[j := WaitWoken])
  }

  ghost predicate Legal(s: Pool, acts: seq<Action>)
    decreases |acts|
  {
    acts == [] || (Enabled(s, acts[0]) && Legal(Next(s, acts[0]), acts[1..]))
  }

  ghost function Exec(s: Pool, acts: seq<Action>): Pool
    requires Legal(s, acts)
    decreases |acts|
  {
    if acts == [] then s else Exec(Next(s, acts[0]), acts[1..])
  }

  ghost predicate Reachable(s: Pool, workers: nat, clients: nat) {
    exists acts :: Legal(Init(workers, clients), acts) && Exec(Init(workers, clients), acts) == s
  }
}
