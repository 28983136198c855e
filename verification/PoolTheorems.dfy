/** What the worker pool guarantees in every reachable state and over every run. */
module PoolTheorems {
  import opened Prelude
  import opened ThreadPool
  import opened PoolInvariant

  // ---------------------------------------------------------------------------
  // Every task is in exactly one place, and tasks start in submission order
  // ---------------------------------------------------------------------------

  /** All tasks the pool has ever been given, by where they are now. */
  ghost function Places(s: Pool): multiset<Task> {
    multiset(s.queue) + Hands(s.w) + multiset(s.h.finished) + multiset(s.h.discarded)
  }

  lemma {:induction false} DistinctIds(ts: seq<Task>, base: nat, t: Task)
    requires forall k :: 0 <= k < |ts| ==> ts[k].id == base + k
    ensures multiset(ts)[t] <= 1
    ensures t in multiset(ts) ==> base <= t.id < base + |ts|
  {
    if ts != [] {
      var n := |ts| - 1;
      assert ts == ts[..n] + [ts[n]];
      DistinctIds(ts[..n], base, t);
    }
  }

  /** Conservation: queued, in hand, finished and discarded together are exactly what was
      pushed, and no task is in two places or twice in one. */
  lemma ExactlyOnce(s: Pool, t: Task)
    requires Inv(s)
    ensures multiset(s.h.pushed) == Places(s)
    ensures Places(s)[t] <= 1
    ensures multiset(s.queue)[t] + Hands(s.w)[t] + multiset(s.h.finished)[t] + multiset(s.h.discarded)[t] <= 1
    ensures t in s.h.pushed <==> t in s.queue || t in Hands(s.w) || t in s.h.finished || t in s.h.discarded
  {
    assert multiset(s.h.pushed) == multiset(s.h.popped) + multiset(s.h.discarded) + multiset(s.queue);
    DistinctIds(s.h.pushed, 0, t);
    assert t in multiset(s.h.pushed) <==> t in s.h.pushed;
  }

  /** Until destroy discards the rest, pops followed by the queue are the pushes in order. */
  lemma StartsInSubmissionOrder(s: Pool)
    requires Inv(s) && !Dead(s)
    ensures s.h.popped + s.queue == s.h.pushed
    ensures forall k :: 0 <= k < |s.h.popped| ==> s.h.popped[k].id == k
  {
    assert s.h.popped + [] + s.queue == s.h.popped + s.queue;
    assert forall k :: 0 <= k < |s.h.popped| ==> s.h.popped[k] == s.h.pushed[k];
  }

  lemma {:induction false} HandsAtMostWorkers(w: seq<WorkerPc>)
    ensures |Hands(w)| <= |w|
  {
    if w != [] {
      HandsAtMostWorkers(w[..|w| - 1]);
    }
  }

  lemma {:induction false} HandOf(w: seq<WorkerPc>, t: Task) returns (i: nat)
    requires t in Hands(w)
    ensures i < |w| && Carries(w[i]) == Some(t)
  {
    var n := |w| - 1;
    if t in Hand(w[n]) {
      i := n;
    } else {
      i := HandOf(w[..n], t);
    }
  }

  // ---------------------------------------------------------------------------
  // The count of active tasks
  // ---------------------------------------------------------------------------

  /** The counter is the number of workers between increment and decrement: it never
      underflows, never exceeds the number of workers, and a sleeping waiter always has a
      counted worker left to wake it. */
  lemma ActiveTasksExact(s: Pool)
    requires Inv(s)
    ensures s.active == Sum(s.w, Counted) && 0 <= s.active <= |s.w|
    ensures (exists j :: 0 <= j < |s.c| && s.c[j].WaitAsleep?) ==>
              exists i :: 0 <= i < |s.w| && Counted(s.w[i]) == 1
  {
    SumBound(s.w, Counted, 1);
    if j :| 0 <= j < |s.c| && s.c[j].WaitAsleep? {
      var i := SumPositive(s.w, Counted);
      assert Counted(s.w[i]) == 1;
    }
  }

  /** When every worker has exited, no task is in hand and the counter is zero. */
  lemma ExitedIsQuiet(s: Pool)
    requires Inv(s) && AllExited(s.w)
    ensures Hands(s.w) == multiset{} && s.active == 0
  {
    NoHands(s.w);
  }

  // ---------------------------------------------------------------------------
  // No lost wakeup
  // ---------------------------------------------------------------------------

  /** With the queue mutex free, nobody is at the queue test or about to signal. */
  lemma NobodyInQueue(s: Pool)
    requires Inv(s) && s.locks.queue.None?
    ensures forall k :: 0 <= k < |s.w| ==> !s.w[k].Check? && !s.w[k].Relay?
    ensures forall j :: 0 <= j < |s.c| ==> !s.c[j].SubSignal?
  {
    forall k | 0 <= k < |s.w| ensures !s.w[k].Check? && !s.w[k].Relay? {
      assert !Holds(s, W(k), QueueMutex);
    }
    forall j | 0 <= j < |s.c| ensures !s.c[j].SubSignal? {
      assert !Holds(s, C(j), QueueMutex);
    }
  }

  /** While there is work, a sleeper is never the only hope: some other worker is awake,
      empty-handed and heading for the queue test. */
  lemma NoLostWakeup(s: Pool) returns (i: nat)
    requires Inv(s) && s.locks.queue.None? && !s.shutdown && s.queue != [] && SomeAsleep(s.w)
    ensures i < |s.w| && Heading(s.w[i]) && Carries(s.w[i]).None?
  {
    NobodyInQueue(s);
    assert SomeoneWillSignal(s);
    i :| 0 <= i < |s.w| && Heading(s.w[i]);
  }

  // ---------------------------------------------------------------------------
  // No circular wait, and progress
  // ---------------------------------------------------------------------------

  ghost function Rank(m: Mutex): nat {
    match m
    case CtxMutex(_) => 0
    case QueueMutex => 1
    case ActiveMutex => 2
  }

  ghost predicate Exists(s: Pool, t: Tid) {
    match t
    case W(i) => i < |s.w|
    case C(j) => j < |s.c|
  }

  ghost function WaitsFor(s: Pool, t: Tid): Option<Mutex>
    requires Exists(s, t)
  {
    match t
    case W(i) => WorkerWaitsFor(s.w[i])
    case C(j) => ClientWaitsFor(s.c[j])
  }

  /** Neither at rest in a wait set, nor finished, nor outside the pool with nothing held. */
  ghost predicate Busy(s: Pool, t: Tid) {
    && Exists(s, t)
    && match t
       case W(i) => !s.w[i].Asleep? && !s.w[i].Exited?
       case C(j) => s.c[j] != Idle(None) && !s.c[j].WaitAsleep? && !s.c[j].Destroyed?
  }

  /** The thread can take a step of its own: no spurious wakeup and no new work counts.
      A client that holds a context outside any call is running its own code and can
      release it. */
  ghost predicate CanStep(s: Pool, t: Tid) {
    && Exists(s, t)
    && match t
       case W(i) => exists wake :: WorkerEnabled(s, i, wake)
       case C(j) => (exists wake :: ClientEnabled(s, j, wake)) || CallEnabled(s, j, UnlockCtx)
  }

  /** A thread whose next mutex is free, or who needs none, can step; joins aside. */
  lemma UnblockedCanStep(s: Pool, t: Tid)
    requires Busy(s, t)
    requires t.C? ==> !s.c[t.j].Join?
    requires WaitsFor(s, t).Some? ==> Owner(s.locks, WaitsFor(s, t).value) == None
    ensures CanStep(s, t)
  {
    var wake := set k | 0 <= k < |s.w| && s.w[k].Asleep?;
    assert SignalWakes(s.w, wake) by {
      assert forall k :: 0 <= k < |s.w| && s.w[k].Asleep? ==> k in wake;
    }
    match t {
      case W(i) => assert WorkerEnabled(s, i, wake);
      case C(j) => assert s.c[j].Idle? || ClientEnabled(s, j, wake);
    }
  }

  /** Lock order: whoever holds a mutex either can step or waits for one of higher rank. */
  lemma HolderStepsOrWaitsHigher(s: Pool, t: Tid, m: Mutex)
    requires Inv(s) && Holds(s, t, m)
    ensures Exists(s, t)
    ensures CanStep(s, t) || (WaitsFor(s, t).Some? && Rank(m) < Rank(WaitsFor(s, t).value))
  {
    assert Busy(s, t);
    if WaitsFor(s, t).None? {
      UnblockedCanStep(s, t);
    }
  }

  /** Who holds the queue or the active mutex waits for nothing. */
  lemma InnerHolderCanStep(s: Pool, t: Tid, m: Mutex)
    requires Inv(s) && Holds(s, t, m) && !m.CtxMutex?
    ensures Exists(s, t) && Busy(s, t) && WaitsFor(s, t).None? && CanStep(s, t)
  {
    UnblockedCanStep(s, t);
  }

  /** Thread t waits for a mutex that thread r owns. */
  ghost predicate BlockedBy(s: Pool, t: Tid, r: Tid) {
    Exists(s, t) && WaitsFor(s, t).Some? && Owner(s.locks, WaitsFor(s, t).value) == Some(r)
  }

  /** Thread r can step, and it is t, or owns the mutex t waits for, or owns the mutex that
      owner waits for. */
  ghost predicate Unblocks(s: Pool, t: Tid, r: Tid) {
    && Exists(s, t)
    && CanStep(s, r)
    && (|| r == t
        || BlockedBy(s, t, r)
        || exists q :: BlockedBy(s, t, q) && BlockedBy(s, q, r))
  }

  /** Behind every thread that is neither at rest nor joining stands, at most two mutexes
      away, a thread that can step. */
  lemma BusyIsUnblocked(s: Pool, t: Tid) returns (r: Tid)
    requires Inv(s) && Busy(s, t) && (t.C? ==> !s.c[t.j].Join?)
    ensures Unblocks(s, t, r)
  {
    r := t;
    if WaitsFor(s, t).None? || Owner(s.locks, WaitsFor(s, t).value).None? {
      UnblockedCanStep(s, t);
    } else {
      var m := WaitsFor(s, t).value;
      var q := Owner(s.locks, m).value;
      assert Holds(s, q, m);
      HolderStepsOrWaitsHigher(s, q, m);
      r := q;
      if !CanStep(s, q) {
        var n := WaitsFor(s, q).value;
        if Owner(s.locks, n).None? {
          UnblockedCanStep(s, q);
        } else {
          r := Owner(s.locks, n).value;
          assert Holds(s, r, n);
          InnerHolderCanStep(s, r, n);
          assert BlockedBy(s, t, q) && BlockedBy(s, q, r);
        }
      }
    }
  }

  /** Progress: as long as some thread is neither asleep nor finished, some thread can step. */
  lemma SomeoneCanStep(s: Pool, t: Tid) returns (r: Tid)
    requires Inv(s) && Busy(s, t)
    ensures CanStep(s, r)
  {
    if t.W? || !s.c[t.j].Join? {
      r := BusyIsUnblocked(s, t);
    } else if s.c[t.j].k < |s.w| {
      var k := s.c[t.j].k;
      if s.w[k].Exited? {
        assert ClientEnabled(s, t.j, {});
        r := t;
      } else {
        r := BusyIsUnblocked(s, W(k));
      }
    } else if OthersIdle(s.c, t.j) {
      assert ClientEnabled(s, t.j, {});
      r := t;
    } else {
      var k :| 0 <= k < |s.c| && k != t.j && !(s.c[k].Idle? || s.c[k].WantCtx?);
      assert Stopping(s.c[t.j]) && !Stopping(s.c[k]);
      ExitedIsQuiet(s);
      r := BusyIsUnblocked(s, C(k));
    }
  }

  /** A running pool never stalls on a non-empty queue: some worker is awake and unblocked,
      or a submitter about to wake one can step. */
  lemma WorkNeverStalls(s: Pool) returns (t: Tid, r: Tid)
    requires Inv(s) && |s.w| > 0 && !s.shutdown && s.queue != []
    ensures Unblocks(s, t, r)
    ensures match t
            case W(i) => i < |s.w| && !s.w[i].Asleep? && !s.w[i].Exited?
            case C(j) => j < |s.c| && s.c[j].SubSignal? && SomeAsleep(s.w) && r == t
  {
    if !SomeAsleep(s.w) {
      assert !s.w[0].Asleep? && !Leaving(s.w[0]);
      t := W(0);
      r := BusyIsUnblocked(s, t);
    } else if i :| 0 <= i < |s.w| && (Heading(s.w[i]) || s.w[i].Check? || s.w[i].Relay?) {
      t := W(i);
      r := BusyIsUnblocked(s, t);
    } else {
      assert SomeoneWillSignal(s);
      var j :| 0 <= j < |s.c| && s.c[j].SubSignal?;
      t, r := C(j), C(j);
      UnblockedCanStep(s, t);
    }
  }

  // ---------------------------------------------------------------------------
  // What wait guarantees
  // ---------------------------------------------------------------------------

  /** Between a pop and the increment that counts it. */
  ghost predicate InWindow(pc: WorkerPc) {
    pc.Relay? || pc.UnlockQueue? || pc.WantInc?
  }

  /** A waiter at the pass that finds both counts at zero, holding the active mutex. */
  ghost predicate AtPass(s: Pool, j: nat) {
    j < |s.c| && s.c[j].WaitSize? && s.queue == []
  }

  /** Every pushed task is finished or carried by a worker that has popped it and not yet
      counted it; so at most one task per worker is unfinished. */
  lemma WaitPassGuarantee(s: Pool, j: nat)
    requires Inv(s) && AtPass(s, j)
    ensures forall t :: t in s.h.pushed && t !in s.h.finished ==>
              exists i :: 0 <= i < |s.w| && InWindow(s.w[i]) && Carries(s.w[i]) == Some(t)
    ensures |s.h.pushed| <= |s.h.finished| + |s.w|
  {
    NoneCounted(s, j);
    forall t | t in s.h.pushed && t !in s.h.finished
      ensures exists i :: 0 <= i < |s.w| && InWindow(s.w[i]) && Carries(s.w[i]) == Some(t)
    {
      ExactlyOnce(s, t);
      var i := HandOf(s.w, t);
      assert InWindow(s.w[i]);
    }
    QueueEmptyBound(s);
  }

  /** At the pass no worker is counted or about to count itself under the mutex. */
  lemma NoneCounted(s: Pool, j: nat)
    requires Inv(s) && AtPass(s, j)
    ensures !Dead(s)
    ensures forall i :: 0 <= i < |s.w| ==> Counted(s.w[i]) == 0 && !s.w[i].Inc?
  {
    assert Holds(s, C(j), ActiveMutex);
    forall i | 0 <= i < |s.w| ensures Counted(s.w[i]) == 0 && !s.w[i].Inc? {
      assert !Holds(s, W(i), ActiveMutex);
      SumAtLeast(s.w, i, Counted);
    }
  }

  /** With nothing queued and nothing discarded, the unfinished tasks are all in hands. */
  lemma QueueEmptyBound(s: Pool)
    requires Inv(s) && !Dead(s) && s.queue == []
    ensures |s.h.pushed| <= |s.h.finished| + |s.w|
  {
    assert s.h.pushed == s.h.popped;
    assert |s.h.pushed| == |multiset(s.h.popped)| == |Hands(s.w)| + |s.h.finished|;
    HandsAtMostWorkers(s.w);
  }

  /** The documented promise, that every task has finished, holds at the pass exactly when
      no worker is between a pop and its increment. */
  lemma WaitPassExact(s: Pool, j: nat)
    requires Inv(s) && AtPass(s, j)
    ensures (forall t :: t in s.h.pushed ==> t in s.h.finished) <==>
            (forall i :: 0 <= i < |s.w| ==> !InWindow(s.w[i]))
  {
    WaitPassGuarantee(s, j);
    forall i | 0 <= i < |s.w| && InWindow(s.w[i])
      ensures exists t :: t in s.h.pushed && t !in s.h.finished
    {
      var t := Carries(s.w[i]).value;
      HandsUpdate(s.w, i, s.w[i]);
      assert t in Hand(s.w[i]);
      ExactlyOnce(s, t);
    }
  }

  // ---------------------------------------------------------------------------
  // Shutdown
  // ---------------------------------------------------------------------------

  /** Steps a worker has left once the shutdown flag is set. */
  ghost function StepsLeft(pc: WorkerPc): nat {
    match pc
    case Exited => 0
    case ExitCheck => 1
    case WantExit => 2
    case UnlockExit => 3
    case Check => 4
    case WantQueue => 5
    case Woken => 5
    case Asleep => 6
    case UnlockDec => 6
    case Dec => 7
    case WantDec => 8
    case Body(_) => 9
    case Start(_) => 10
    case UnlockInc(_) => 11
    case Inc(_) => 12
    case WantInc(_) => 13
    case UnlockQueue(_) => 14
    case Relay(_) => 15
  }

  ghost function WorkerSteps(acts: seq<Action>): nat {
    if acts == [] then 0 else (if acts[0].WorkerStep? then 1 else 0) + WorkerSteps(acts[1..])
  }

  lemma WorkerStepDescends(s: Pool, i: nat, wake: set<nat>)
    requires WorkerEnabled(s, i, wake) && s.shutdown
    ensures var s' := WorkerNext(s, i, wake);
            && StepsLeft(s'.w[i]) < StepsLeft(s.w[i])
            && s'.shutdown && s'.h.popped == s.h.popped && !s'.w[i].Asleep?
  {
  }

  lemma ClientStepKeepsDescent(s: Pool, j: nat, wake: set<nat>, ok: bool)
    requires ClientEnabled(s, j, wake) && s.shutdown
    ensures var s' := ClientNext(s, j, wake, ok);
            && s'.shutdown && s'.h.popped == s.h.popped
            && Sum(s'.w, StepsLeft) <= Sum(s.w, StepsLeft)
            && (SomeAsleep(s'.w) ==> SomeAsleep(s.w))
  {
    ClientMovesPcs(s, j, wake, ok);
    ClientMovesTask(s, j, wake, ok);
    ClientMovesFlag(s, j, wake, ok);
    SumMonotone(ClientNext(s, j, wake, ok).w, s.w, StepsLeft);
  }

  lemma WorkerStepLowersSum(s: Pool, i: nat, wake: set<nat>)
    requires WorkerEnabled(s, i, wake) && s.shutdown
    ensures var s' := WorkerNext(s, i, wake);
            && Sum(s'.w, StepsLeft) < Sum(s.w, StepsLeft)
            && (SomeAsleep(s'.w) ==> SomeAsleep(s.w))
  {
    var s' := WorkerNext(s, i, wake);
    WorkerStepDescends(s, i, wake);
    WorkerMovesPcs(s, i, wake);
    SumUpdate(s.w, i, s'.w[i], StepsLeft);
    SumMonotone(s'.w, s.w[i := s'.w[i]], StepsLeft);
  }

  /** After shutdown every worker step strictly lowers the total, no step raises it, nobody
      pops, and nobody goes to sleep. */
  lemma ShutdownStep(s: Pool, a: Action)
    requires Inv(s) && s.shutdown && Enabled(s, a)
    ensures var s' := Next(s, a);
            && s'.shutdown && s'.h.popped == s.h.popped
            && Sum(s'.w, StepsLeft) + (if a.WorkerStep? then 1 else 0) <= Sum(s.w, StepsLeft)
            && (SomeAsleep(s'.w) ==> SomeAsleep(s.w))
  {
    var s' := Next(s, a);
    match a {
      case WorkerStep(i, wake) =>
        WorkerStepDescends(s, i, wake);
        WorkerStepLowersSum(s, i, wake);
      case WorkerSpurious(i) =>
        SumMonotone(s'.w, s.w, StepsLeft);
      case ClientCall(j, call) =>
        CallMoves(s, j, call);
      case ClientStep(j, wake, ok) =>
        ClientStepKeepsDescent(s, j, wake, ok);
      case ClientSpurious(j) =>
    }
  }

  /** Over any run after shutdown, the workers take at most as many steps as they have
      left, whatever the clients do, and pop nothing. */
  lemma {:induction false} ShutdownTerminates(s: Pool, acts: seq<Action>)
    requires Inv(s) && s.shutdown && Legal(s, acts)
    ensures var s' := Exec(s, acts);
            && s'.shutdown && s'.h.popped == s.h.popped
            && WorkerSteps(acts) + Sum(s'.w, StepsLeft) <= Sum(s.w, StepsLeft)
            && (SomeAsleep(s'.w) ==> SomeAsleep(s.w))
    decreases |acts|
  {
    if acts != [] {
      ShutdownStep(s, acts[0]);
      StepKeepsInv(s, acts[0]);
      ShutdownTerminates(Next(s, acts[0]), acts[1..]);
    }
  }

  /** So any run after shutdown holds at most fifteen worker steps per worker; and every
      worker that has not exited is unblocked, or asleep with the broadcaster about to step. */
  lemma ShutdownBound(s: Pool, acts: seq<Action>, i: nat) returns (t: Tid, r: Tid)
    requires Inv(s) && s.shutdown && Legal(s, acts)
    requires i < |Exec(s, acts).w| && !Exec(s, acts).w[i].Exited?
    ensures WorkerSteps(acts) <= 15 * |s.w|
    ensures var s' := Exec(s, acts);
            && Unblocks(s', t, r)
            && if s'.w[i].Asleep? then t.C? && t.j < |s'.c| && s'.c[t.j].StopBroadcast? && r == t else t == W(i)
  {
    ShutdownTerminates(s, acts);
    SumBound(s.w, StepsLeft, 15);
    RunKeepsInv(s, acts);
    t, r := UnexitedIsUnblocked(Exec(s, acts), i);
  }

  lemma UnexitedIsUnblocked(s: Pool, i: nat) returns (t: Tid, r: Tid)
    requires Inv(s) && s.shutdown && i < |s.w| && !s.w[i].Exited?
    ensures Unblocks(s, t, r)
    ensures if s.w[i].Asleep? then t.C? && t.j < |s.c| && s.c[t.j].StopBroadcast? && r == t else t == W(i)
  {
    if s.w[i].Asleep? {
      var b :| 0 <= b < |s.c| && s.c[b].StopBroadcast?;
      t, r := C(b), C(b);
      UnblockedCanStep(s, t);
    } else {
      t := W(i);
      r := BusyIsUnblocked(s, t);
    }
  }

  /** After destroy every task ever pushed has either run once or been discarded once: what
      was popped has finished, and what was discarded is the unpopped rest, in order. */
  lemma DestroyDiscardsTheRest(s: Pool)
    requires Inv(s) && Dead(s)
    ensures AllExited(s.w) && s.active == 0 && s.queue == []
    ensures s.h.pushed == s.h.popped + s.h.discarded
    ensures multiset(s.h.popped) == multiset(s.h.finished)
  {
    ExitedIsQuiet(s);
    assert s.h.popped + s.h.discarded + [] == s.h.popped + s.h.discarded;
  }
}
