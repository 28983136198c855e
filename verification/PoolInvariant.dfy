/** The inductive invariant of the worker pool, kept by every step of every thread. */
module PoolInvariant {
  import opened Prelude
  import opened ThreadPool

  // ---------------------------------------------------------------------------
  // Who holds what
  // ---------------------------------------------------------------------------

  ghost predicate WorkerHolds(pc: WorkerPc, m: Mutex) {
    match pc
    case Check => m == QueueMutex
    case Relay(_) => m == QueueMutex
    case UnlockQueue(_) => m == QueueMutex
    case UnlockExit => m == QueueMutex
    case ExitCheck => m == QueueMutex
    case Inc(_) => m == ActiveMutex
    case UnlockInc(_) => m == ActiveMutex
    case Dec => m == ActiveMutex
    case UnlockDec => m == ActiveMutex
    case Body(t) => m == CtxMutex(t.ctx)
    case _ => false
  }

  ghost predicate HeldCtx(held: Option<nat>, m: Mutex) {
    held.Some? && m == CtxMutex(held.value)
  }

  ghost predicate ClientHolds(pc: ClientPc, m: Mutex) {
    match pc
    case Idle(h) => HeldCtx(h, m)
    case SubWant(h, _, _) => HeldCtx(h, m)
    case SubPush(h, _, _) => HeldCtx(h, m) || m == QueueMutex
    case SubSignal(h) => HeldCtx(h, m) || m == QueueMutex
    case SubUnlock(h, _) => HeldCtx(h, m) || m == QueueMutex
    case WaitTest => m == ActiveMutex
    case WaitSize => m == ActiveMutex
    case WaitRetry => m == ActiveMutex
    case WaitPass => m == ActiveMutex
    case WaitCheck => m == QueueMutex
    case WaitUnlock(_) => m == QueueMutex
    case StopSet => m == QueueMutex
    case StopBroadcast => m == QueueMutex
    case StopUnlock => m == QueueMutex
    case _ => false
  }

  ghost predicate Holds(s: Pool, t: Tid, m: Mutex) {
    match t
    case W(i) => i < |s.w| && WorkerHolds(s.w[i], m)
    case C(j) => j < |s.c| && ClientHolds(s.c[j], m)
  }

  /** Every mutex is held by exactly the thread its owner field names, or by nobody. */
  ghost predicate LockInv(s: Pool) {
    forall t, m :: Holds(s, t, m) <==> Owner(s.locks, m) == Some(t)
  }

  // ---------------------------------------------------------------------------
  // Where the tasks are
  // ---------------------------------------------------------------------------

  /** The task a worker has popped and not yet finished, if any. */
  ghost function Carries(pc: WorkerPc): Option<Task> {
    match pc
    case Relay(t) => Some(t)
    case UnlockQueue(t) => Some(t)
    case WantInc(t) => Some(t)
    case Inc(t) => Some(t)
    case UnlockInc(t) => Some(t)
    case Start(t) => Some(t)
    case Body(t) => Some(t)
    case _ => None
  }

  ghost function Hand(pc: WorkerPc): multiset<Task> {
    if Carries(pc).Some? then multiset{Carries(pc).value} else multiset{}
  }

  /** The tasks in the hands of all workers. */
  ghost function Hands(w: seq<WorkerPc>): multiset<Task> {
    if w == [] then multiset{} else Hands(w[..|w| - 1]) + Hand(w[|w| - 1])
  }

  /** Ids are positions; tasks leave the queue in the order they entered it; and every
      popped task is in exactly one hand or finished. */
  ghost predicate Accounted(h: History, queue: seq<Task>, hands: multiset<Task>) {
    && (forall k :: 0 <= k < |h.pushed| ==> h.pushed[k].id == k)
    && h.pushed == h.popped + h.discarded + queue
    && multiset(h.popped) == hands + multiset(h.finished)
  }

  ghost predicate HistoryInv(s: Pool) {
    Accounted(s.h, s.queue, Hands(s.w))
  }

  // ---------------------------------------------------------------------------
  // Counting, waking, stopping
  // ---------------------------------------------------------------------------

  /** One for a worker between its increment and its decrement. */
  ghost function Counted(pc: WorkerPc): nat {
    if pc.UnlockInc? || pc.Start? || pc.Body? || pc.WantDec? || pc.Dec? then 1 else 0
  }

  ghost predicate ActiveInv(s: Pool) {
    s.active == Sum(s.w, Counted)
  }

  ghost predicate SomeAsleep(w: seq<WorkerPc>) {
    exists i :: 0 <= i < |w| && w[i].Asleep?
  }

  /** Awake, holding no task, and heading for the queue test. */
  ghost predicate Heading(pc: WorkerPc) {
    pc.WantQueue? || pc.Woken?
  }

  ghost predicate SomeoneWillSignal(s: Pool) {
    || (exists i :: 0 <= i < |s.w| && (Heading(s.w[i]) || s.w[i].Check? || s.w[i].Relay?))
    || (exists j :: 0 <= j < |s.c| && s.c[j].SubSignal?)
  }

  ghost predicate WakeupInv(s: Pool) {
    !s.shutdown && s.queue != [] && SomeAsleep(s.w) ==> SomeoneWillSignal(s)
  }

  ghost predicate WaiterInv(s: Pool) {
    forall j :: 0 <= j < |s.c| && s.c[j].WaitAsleep? ==> s.active > 0
  }

  /** A waiter that has seen zero active tasks and still holds the active mutex. */
  ghost predicate SawNone(pc: ClientPc) {
    pc.WaitSize? || pc.WaitRetry? || pc.WaitPass?
  }

  ghost predicate PassInv(s: Pool) {
    forall j :: 0 <= j < |s.c| && SawNone(s.c[j]) ==> s.active <= 0
  }

  ghost predicate Leaving(pc: WorkerPc) {
    pc.UnlockExit? || pc.WantExit? || pc.ExitCheck? || pc.Exited?
  }

  ghost predicate AfterSet(pc: ClientPc) {
    pc.StopBroadcast? || pc.StopUnlock? || pc.Join? || pc.Destroyed?
  }

  ghost predicate Broadcasting(s: Pool) {
    exists j :: 0 <= j < |s.c| && s.c[j].StopBroadcast?
  }

  ghost predicate AllExited(w: seq<WorkerPc>) {
    forall i :: 0 <= i < |w| ==> w[i].Exited?
  }

  ghost predicate ShutdownInv(s: Pool) {
    && (!s.shutdown ==> forall i :: 0 <= i < |s.w| ==> !Leaving(s.w[i]))
    && (!s.shutdown ==> forall j :: 0 <= j < |s.c| ==> !AfterSet(s.c[j]))
    && (s.shutdown && SomeAsleep(s.w) ==> Broadcasting(s))
    && (forall j :: 0 <= j < |s.c| && s.c[j].Join? ==>
          s.c[j].k <= |s.w| && forall i :: 0 <= i < s.c[j].k ==> s.w[i].Exited?)
  }

  /** Inside destroy. */
  ghost predicate Stopping(pc: ClientPc) {
    pc.StopWant? || pc.StopSet? || AfterSet(pc)
  }

  /** At most one client is ever inside destroy. */
  ghost predicate StopperInv(s: Pool) {
    && (forall j :: 0 <= j < |s.c| && Stopping(s.c[j]) ==> s.closing)
    && (forall j, k :: 0 <= j < |s.c| && 0 <= k < |s.c| && Stopping(s.c[j]) && Stopping(s.c[k]) ==> j == k)
  }

  ghost predicate DeadInv(s: Pool) {
    && (Dead(s) ==> AllExited(s.w) && s.queue == [])
    && (Dead(s) ==> forall j :: 0 <= j < |s.c| ==> s.c[j].Idle? || s.c[j].WantCtx? || s.c[j].Destroyed?)
    && (!Dead(s) ==> s.h.discarded == [])
  }

  ghost predicate Inv(s: Pool) {
    && LockInv(s)
    && HistoryInv(s)
    && ActiveInv(s)
    && WakeupInv(s)
    && WaiterInv(s)
    && PassInv(s)
    && ShutdownInv(s)
    && StopperInv(s)
    && DeadInv(s)
  }

  // ---------------------------------------------------------------------------
  // Sums and hands under a step
  // ---------------------------------------------------------------------------

  /** Changing one worker changes how often a task is in hand by what that worker carries. */
  lemma {:induction false} HandsCount(w: seq<WorkerPc>, i: nat, pc: WorkerPc, t: Task)
    requires i < |w|
    ensures Hand(w[i])[t] <= Hands(w)[t]
    ensures Hands(w[i := pc])[t] == Hands(w)[t] - Hand(w[i])[t] + Hand(pc)[t]
  {
    var n, v := |w| - 1, w[i := pc];
    assert Hands(w)[t] == Hands(w[..n])[t] + Hand(w[n])[t];
    assert Hands(v)[t] == Hands(v[..n])[t] + Hand(v[n])[t];
    if i == n {
      assert v[..n] == w[..n];
    } else {
      HandsCount(w[..n], i, pc, t);
      assert v[..n] == w[..n][i := pc];
    }
  }

  lemma {:induction false} HandsUpdate(w: seq<WorkerPc>, i: nat, pc: WorkerPc)
    requires i < |w|
    ensures Hand(w[i]) <= Hands(w)
    ensures Hands(w[i := pc]) == Hands(w) - Hand(w[i]) + Hand(pc)
  {
    forall t ensures Hand(w[i])[t] <= Hands(w)[t] && Hands(w[i := pc])[t] == Hands(w)[t] - Hand(w[i])[t] + Hand(pc)[t] {
      HandsCount(w, i, pc, t);
    }
  }

  /** Waking sleepers moves no task and changes no count. */
  lemma {:induction false} HandsSame(w: seq<WorkerPc>, v: seq<WorkerPc>)
    requires |w| == |v|
    requires forall k :: 0 <= k < |w| ==> v[k] == w[k] || (w[k].Asleep? && v[k].Woken?)
    ensures Hands(v) == Hands(w)
    ensures Sum(v, Counted) == Sum(w, Counted)
  {
    if w != [] {
      var n := |w| - 1;
      HandsSame(w[..n], v[..n]);
    }
  }

  lemma CountStep(w: seq<WorkerPc>, v: seq<WorkerPc>, i: nat)
    requires i < |w| == |v|
    requires forall k :: 0 <= k < |w| && k != i ==> v[k] == w[k] || (w[k].Asleep? && v[k].Woken?)
    ensures Hand(w[i]) <= Hands(w)
    ensures Hands(v) == Hands(w) - Hand(w[i]) + Hand(v[i])
    ensures Sum(v, Counted) == Sum(w, Counted) - Counted(w[i]) + Counted(v[i])
  {
    HandsUpdate(w, i, v[i]);
    SumUpdate(w, i, v[i], Counted);
    HandsSame(w[i := v[i]], v);
  }

  /** The effect of a step of worker i on the hands: kept, one taken up, or one put down. */
  lemma HandsStep(w: seq<WorkerPc>, v: seq<WorkerPc>, i: nat)
    requires i < |w| == |v|
    requires forall k :: 0 <= k < |w| && k != i ==> v[k] == w[k] || (w[k].Asleep? && v[k].Woken?)
    ensures Carries(v[i]) == Carries(w[i]) ==> Hands(v) == Hands(w)
    ensures Carries(w[i]).None? && Carries(v[i]).Some? ==> Hands(v) == Hands(w) + multiset{Carries(v[i]).value}
    ensures Carries(w[i]).Some? && Carries(v[i]).None? ==>
              var t := Carries(w[i]).value; t in Hands(w) && Hands(v) == Hands(w) - multiset{t}
  {
    CountStep(w, v, i);
    PutBack(Hands(w), Hand(w[i]), Hand(v[i]));
  }

  lemma PutBack(a: multiset<Task>, b: multiset<Task>, c: multiset<Task>)
    requires b <= a
    ensures b == c ==> a - b + c == a
    ensures b == multiset{} ==> a - b + c == a + c
    ensures c == multiset{} ==> a - b + c == a - b
  {
  }

  // ---------------------------------------------------------------------------
  // Preservation
  // ---------------------------------------------------------------------------

  /** A step of one thread leaves what every other thread holds unchanged. */
  lemma WorkerLeavesOthers(s: Pool, i: nat, wake: set<nat>, t: Tid, m: Mutex)
    requires WorkerEnabled(s, i, wake) && t != W(i)
    ensures Holds(WorkerNext(s, i, wake), t, m) <==> Holds(s, t, m)
  {
  }

  lemma LockOwner(l: Locks, a: Mutex, t: Tid, m: Mutex)
    ensures Owner(Lock(l, a, t), m) == if m == a then Some(t) else Owner(l, m)
    ensures Owner(Unlock(l, a), m) == if m == a then None else Owner(l, m)
  {
  }

  /** A step changes an owner only by taking a free mutex or releasing its own. */
  ghost predicate OwnerMove(l: Locks, l': Locks, t: Tid, m: Mutex, before: bool, after: bool) {
    && (if before then (Owner(l', m) == if after then Some(t) else None)
        else Owner(l', m) == Owner(l, m) || (Owner(l, m) == None && Owner(l', m) == Some(t)))
    && (after <==> Owner(l', m) == Some(t))
  }

  lemma WorkerLockHolds(pc: WorkerPc, m: Mutex)
    ensures WorkerWaitsFor(pc).Some? ==>
              !WorkerHolds(pc, WorkerWaitsFor(pc).value) &&
              (WorkerHolds(WorkerLocked(pc), m) <==> WorkerHolds(pc, m) || m == WorkerWaitsFor(pc).value)
    ensures WorkerReleases(pc).Some? ==>
              WorkerHolds(pc, WorkerReleases(pc).value) &&
              (WorkerHolds(WorkerUnlocked(pc), m) <==> WorkerHolds(pc, m) && m != WorkerReleases(pc).value)
  {
  }

  /** The mutex that an acting step of a worker releases, if any. */
  ghost function WorkerDrops(s: Pool, pc: WorkerPc): Option<Mutex> {
    match pc
    case Check => if !s.shutdown && s.queue == [] then Some(QueueMutex) else None
    case Body(t) => Some(CtxMutex(t.ctx))
    case ExitCheck => Some(QueueMutex)
    case _ => None
  }

  lemma WorkerActsLocks(s: Pool, i: nat, wake: set<nat>)
    requires WorkerEnabled(s, i, wake) && WorkerWaitsFor(s.w[i]).None? && WorkerReleases(s.w[i]).None?
    ensures var m := WorkerDrops(s, s.w[i]);
            WorkerActs(s, i, wake).locks == if m.Some? then Unlock(s.locks, m.value) else s.locks
  {
  }

  lemma WorkerActsHolds(s: Pool, i: nat, wake: set<nat>, m: Mutex)
    requires WorkerEnabled(s, i, wake) && WorkerWaitsFor(s.w[i]).None? && WorkerReleases(s.w[i]).None?
    ensures WorkerHolds(WorkerActs(s, i, wake).w[i], m) <==> WorkerHolds(s.w[i], m) && WorkerDrops(s, s.w[i]) != Some(m)
    ensures WorkerDrops(s, s.w[i]) == Some(m) ==> WorkerHolds(s.w[i], m)
  {
  }

  lemma WorkerActsOwner(s: Pool, i: nat, wake: set<nat>, m: Mutex)
    requires WorkerEnabled(s, i, wake) && WorkerWaitsFor(s.w[i]).None? && WorkerReleases(s.w[i]).None?
    requires WorkerHolds(s.w[i], m) <==> Owner(s.locks, m) == Some(W(i))
    ensures var s' := WorkerActs(s, i, wake);
            OwnerMove(s.locks, s'.locks, W(i), m, WorkerHolds(s.w[i], m), WorkerHolds(s'.w[i], m))
  {
    WorkerActsLocks(s, i, wake);
    WorkerActsHolds(s, i, wake, m);
    if WorkerDrops(s, s.w[i]).Some? {
      LockOwner(s.locks, WorkerDrops(s, s.w[i]).value, W(i), m);
    }
  }

  lemma WorkerMovesOwner(s: Pool, i: nat, wake: set<nat>, m: Mutex)
    requires WorkerEnabled(s, i, wake)
    requires WorkerHolds(s.w[i], m) <==> Owner(s.locks, m) == Some(W(i))
    ensures var s' := WorkerNext(s, i, wake);
            OwnerMove(s.locks, s'.locks, W(i), m, WorkerHolds(s.w[i], m), WorkerHolds(s'.w[i], m))
  {
    var pc := s.w[i];
    WorkerLockHolds(pc, m);
    if WorkerWaitsFor(pc).Some? {
      LockOwner(s.locks, WorkerWaitsFor(pc).value, W(i), m);
    } else if WorkerReleases(pc).Some? {
      LockOwner(s.locks, WorkerReleases(pc).value, W(i), m);
    } else {
      WorkerActsOwner(s, i, wake, m);
    }
  }

  lemma WorkerKeepsLocks(s: Pool, i: nat, wake: set<nat>)
    requires LockInv(s) && WorkerEnabled(s, i, wake)
    ensures LockInv(WorkerNext(s, i, wake))
  {
    var s' := WorkerNext(s, i, wake);
    forall t, m ensures Holds(s', t, m) <==> Owner(s'.locks, m) == Some(t) {
      assert Holds(s, t, m) <==> Owner(s.locks, m) == Some(t);
      assert Holds(s, W(i), m) <==> Owner(s.locks, m) == Some(W(i));
      WorkerMovesOwner(s, i, wake, m);
      if t != W(i) {
        WorkerLeavesOthers(s, i, wake, t, m);
      }
    }
  }

  lemma ClientLeavesOthers(s: Pool, j: nat, wake: set<nat>, ok: bool, t: Tid, m: Mutex)
    requires ClientEnabled(s, j, wake) && t != C(j)
    ensures Holds(ClientNext(s, j, wake, ok), t, m) <==> Holds(s, t, m)
  {
  }

  lemma ClientLockHolds(pc: ClientPc, m: Mutex)
    ensures ClientWaitsFor(pc).Some? ==>
              !ClientHolds(pc, ClientWaitsFor(pc).value) &&
              (ClientHolds(ClientLocked(pc), m) <==> ClientHolds(pc, m) || m == ClientWaitsFor(pc).value)
    ensures ClientReleases(pc).Some? ==>
              ClientHolds(pc, ClientReleases(pc).value) &&
              (ClientHolds(ClientUnlocked(pc), m) <==> ClientHolds(pc, m) && m != ClientReleases(pc).value)
  {
  }

  ghost predicate GoesToSleep(s: Pool, pc: ClientPc) {
    pc.WaitTest? && s.active > 0
  }

  /** The only acting step of a client that touches a mutex is going to sleep in wait. */
  lemma ClientActsLocks(s: Pool, j: nat, wake: set<nat>, ok: bool)
    requires ClientEnabled(s, j, wake) && ClientWaitsFor(s.c[j]).None? && ClientReleases(s.c[j]).None?
    ensures ClientActs(s, j, wake, ok).locks ==
            if GoesToSleep(s, s.c[j]) then Unlock(s.locks, ActiveMutex) else s.locks
  {
  }

  lemma ClientActsHolds(s: Pool, j: nat, wake: set<nat>, ok: bool, m: Mutex)
    requires ClientEnabled(s, j, wake) && ClientWaitsFor(s.c[j]).None? && ClientReleases(s.c[j]).None?
    ensures ClientHolds(ClientActs(s, j, wake, ok).c[j], m) <==>
            ClientHolds(s.c[j], m) && !(GoesToSleep(s, s.c[j]) && m == ActiveMutex)
  {
  }

  lemma ClientActsOwner(s: Pool, j: nat, wake: set<nat>, ok: bool, m: Mutex)
    requires ClientEnabled(s, j, wake) && ClientWaitsFor(s.c[j]).None? && ClientReleases(s.c[j]).None?
    requires ClientHolds(s.c[j], m) <==> Owner(s.locks, m) == Some(C(j))
    ensures var s' := ClientActs(s, j, wake, ok);
            OwnerMove(s.locks, s'.locks, C(j), m, ClientHolds(s.c[j], m), ClientHolds(s'.c[j], m))
  {
    ClientActsLocks(s, j, wake, ok);
    ClientActsHolds(s, j, wake, ok, m);
    LockOwner(s.locks, ActiveMutex, C(j), m);
  }

  lemma ClientMovesOwner(s: Pool, j: nat, wake: set<nat>, ok: bool, m: Mutex)
    requires ClientEnabled(s, j, wake)
    requires ClientHolds(s.c[j], m) <==> Owner(s.locks, m) == Some(C(j))
    ensures var s' := ClientNext(s, j, wake, ok);
            OwnerMove(s.locks, s'.locks, C(j), m, ClientHolds(s.c[j], m), ClientHolds(s'.c[j], m))
  {
    var pc := s.c[j];
    ClientLockHolds(pc, m);
    if ClientWaitsFor(pc).Some? {
      LockOwner(s.locks, ClientWaitsFor(pc).value, C(j), m);
    } else if ClientReleases(pc).Some? {
      LockOwner(s.locks, ClientReleases(pc).value, C(j), m);
    } else {
      ClientActsOwner(s, j, wake, ok, m);
    }
  }

  lemma ClientKeepsLocks(s: Pool, j: nat, wake: set<nat>, ok: bool)
    requires LockInv(s) && ClientEnabled(s, j, wake)
    ensures LockInv(ClientNext(s, j, wake, ok))
  {
    var s' := ClientNext(s, j, wake, ok);
    forall t, m ensures Holds(s', t, m) <==> Owner(s'.locks, m) == Some(t) {
      assert Holds(s, t, m) <==> Owner(s.locks, m) == Some(t);
      assert Holds(s, C(j), m) <==> Owner(s.locks, m) == Some(C(j));
      ClientMovesOwner(s, j, wake, ok, m);
      if t != C(j) {
        ClientLeavesOthers(s, j, wake, ok, t, m);
      }
    }
  }

  lemma CallKeepsLocks(s: Pool, j: nat, call: Call)
    requires LockInv(s) && CallEnabled(s, j, call)
    ensures LockInv(CallNext(s, j, call))
  {
    var s' := CallNext(s, j, call);
    forall t, m ensures Holds(s', t, m) <==> Owner(s'.locks, m) == Some(t) {
      assert Holds(s, t, m) <==> Owner(s.locks, m) == Some(t);
      assert Holds(s, C(j), m) <==> Owner(s.locks, m) == Some(C(j));
    }
  }

  lemma WorkerMovesPcs(s: Pool, i: nat, wake: set<nat>)
    requires WorkerEnabled(s, i, wake)
    ensures var s' := WorkerNext(s, i, wake);
            && |s'.w| == |s.w|
            && forall k :: 0 <= k < |s.w| && k != i ==> s'.w[k] == s.w[k] || (s.w[k].Asleep? && s'.w[k].Woken?)
  {
  }

  ghost predicate Takes(s: Pool, pc: WorkerPc) {
    pc.Check? && !s.shutdown && s.queue != []
  }

  lemma WorkerTakes(s: Pool, i: nat, wake: set<nat>)
    requires WorkerEnabled(s, i, wake) && Takes(s, s.w[i])
    ensures var s' := WorkerNext(s, i, wake);
            && s'.h == s.h.(popped := s.h.popped + [s.queue[0]]) && s'.queue == s.queue[1..]
            && Carries(s.w[i]) == None && Carries(s'.w[i]) == Some(s.queue[0]) && s'.active == s.active
            && Counted(s.w[i]) == Counted(s'.w[i])
  {
  }

  lemma WorkerFinishes(s: Pool, i: nat, wake: set<nat>)
    requires WorkerEnabled(s, i, wake) && s.w[i].Body?
    ensures var s' := WorkerNext(s, i, wake);
            && s'.h == s.h.(finished := s.h.finished + [s.w[i].t]) && s'.queue == s.queue
            && Carries(s.w[i]) == Some(s.w[i].t) && Carries(s'.w[i]) == None && s'.active == s.active
            && Counted(s.w[i]) == Counted(s'.w[i])
  {
  }

  lemma WorkerCarries(s: Pool, i: nat, wake: set<nat>)
    requires WorkerEnabled(s, i, wake) && !Takes(s, s.w[i]) && !s.w[i].Body?
    ensures var s' := WorkerNext(s, i, wake);
            && s'.h == s.h && s'.queue == s.queue && Carries(s'.w[i]) == Carries(s.w[i])
            && s'.active - s.active == Counted(s'.w[i]) - Counted(s.w[i])
  {
  }

  lemma TakeAccounted(h: History, queue: seq<Task>, hands: multiset<Task>)
    requires Accounted(h, queue, hands) && queue != [] && h.discarded == []
    ensures Accounted(h.(popped := h.popped + [queue[0]]), queue[1..], hands + multiset{queue[0]})
  {
    assert queue == [queue[0]] + queue[1..];
    assert h.popped + h.discarded + queue == h.popped + [queue[0]] + h.discarded + queue[1..];
  }

  lemma FinishAccounted(h: History, queue: seq<Task>, hands: multiset<Task>, t: Task)
    requires Accounted(h, queue, hands) && t in hands
    ensures Accounted(h.(finished := h.finished + [t]), queue, hands - multiset{t})
  {
  }

  lemma PushAccounted(h: History, queue: seq<Task>, hands: multiset<Task>, t: Task)
    requires Accounted(h, queue, hands) && t.id == |h.pushed|
    ensures Accounted(h.(pushed := h.pushed + [t]), queue + [t], hands)
  {
    assert h.popped + h.discarded + (queue + [t]) == h.popped + h.discarded + queue + [t];
  }

  lemma WorkerKeepsHistory(s: Pool, i: nat, wake: set<nat>)
    requires HistoryInv(s) && DeadInv(s) && WorkerEnabled(s, i, wake)
    ensures HistoryInv(WorkerNext(s, i, wake))
  {
    var s' := WorkerNext(s, i, wake);
    WorkerMovesPcs(s, i, wake);
    HandsStep(s.w, s'.w, i);
    if Takes(s, s.w[i]) {
      WorkerTakes(s, i, wake);
      TakeAccounted(s.h, s.queue, Hands(s.w));
    } else if s.w[i].Body? {
      WorkerFinishes(s, i, wake);
      FinishAccounted(s.h, s.queue, Hands(s.w), s.w[i].t);
    } else {
      WorkerCarries(s, i, wake);
    }
  }

  lemma WorkerKeepsActive(s: Pool, i: nat, wake: set<nat>)
    requires ActiveInv(s) && WorkerEnabled(s, i, wake)
    ensures ActiveInv(WorkerNext(s, i, wake))
  {
    var s' := WorkerNext(s, i, wake);
    WorkerMovesPcs(s, i, wake);
    CountStep(s.w, s'.w, i);
    if Takes(s, s.w[i]) {
      WorkerTakes(s, i, wake);
    } else if s.w[i].Body? {
      WorkerFinishes(s, i, wake);
    } else {
      WorkerCarries(s, i, wake);
    }
  }

  ghost predicate Pushes(pc: ClientPc, ok: bool) {
    pc.SubPush? && ok
  }

  ghost predicate Discards(s: Pool, pc: ClientPc) {
    pc.Join? && pc.k >= |s.w|
  }

  /** What a client step does to the tasks: a push, the final discard, or nothing. */
  lemma ClientMovesTask(s: Pool, j: nat, wake: set<nat>, ok: bool)
    requires ClientEnabled(s, j, wake)
    ensures var s' := ClientNext(s, j, wake, ok);
            if Pushes(s.c[j], ok) then
              var t := Task(|s.h.pushed|, s.c[j].fn, s.c[j].x);
              s'.h == s.h.(pushed := s.h.pushed + [t]) && s'.queue == s.queue + [t]
            else if Discards(s, s.c[j]) then
              s'.h == s.h.(discarded := s.h.discarded + s.queue) && s'.queue == []
            else
              s'.h == s.h && s'.queue == s.queue
  {
  }

  lemma ClientMovesPcs(s: Pool, j: nat, wake: set<nat>, ok: bool)
    requires ClientEnabled(s, j, wake)
    ensures var s' := ClientNext(s, j, wake, ok);
            && |s'.w| == |s.w| && s'.active == s.active
            && (forall k :: 0 <= k < |s.w| ==> s'.w[k] == s.w[k] || (s.w[k].Asleep? && s'.w[k].Woken?))
            && |s'.c| == |s.c|
            && (forall k :: 0 <= k < |s.c| && k != j ==> s'.c[k] == s.c[k])
  {
  }

  lemma DiscardAccounted(h: History, queue: seq<Task>, hands: multiset<Task>)
    requires Accounted(h, queue, hands)
    ensures Accounted(h.(discarded := h.discarded + queue), [], hands)
  {
    assert h.popped + h.discarded + queue == h.popped + (h.discarded + queue) + [];
  }

  lemma ClientKeepsHistory(s: Pool, j: nat, wake: set<nat>, ok: bool)
    requires HistoryInv(s) && ClientEnabled(s, j, wake)
    ensures HistoryInv(ClientNext(s, j, wake, ok))
  {
    var s' := ClientNext(s, j, wake, ok);
    ClientKeepsHands(s, j, wake, ok);
    ClientMovesTask(s, j, wake, ok);
    if Pushes(s.c[j], ok) {
      PushAccounted(s.h, s.queue, Hands(s.w), Task(|s.h.pushed|, s.c[j].fn, s.c[j].x));
    } else if Discards(s, s.c[j]) {
      DiscardAccounted(s.h, s.queue, Hands(s.w));
    }
  }

  lemma ClientKeepsHands(s: Pool, j: nat, wake: set<nat>, ok: bool)
    requires ClientEnabled(s, j, wake)
    ensures var s' := ClientNext(s, j, wake, ok);
            Hands(s'.w) == Hands(s.w) && (ActiveInv(s) ==> ActiveInv(s'))
  {
    ClientMovesPcs(s, j, wake, ok);
    HandsSame(s.w, ClientNext(s, j, wake, ok).w);
  }

  lemma WorkerKeepsWakeup(s: Pool, i: nat, wake: set<nat>)
    requires WakeupInv(s) && WorkerEnabled(s, i, wake)
    ensures WakeupInv(WorkerNext(s, i, wake))
  {
    var s' := WorkerNext(s, i, wake);
    if !s'.shutdown && s'.queue != [] && SomeAsleep(s'.w) {
      var k :| 0 <= k < |s'.w| && s'.w[k].Asleep?;
      assert k != i;
      assert s.w[k].Asleep?;
      if s.w[i].Relay? {
        var m :| m in wake;
        assert s'.w[m].Woken?;
      } else if Heading(s.w[i]) || s.w[i].Check? {
        assert s'.w[i].Check? || s'.w[i].Relay?;
      } else if j :| 0 <= j < |s.c| && s.c[j].SubSignal? {
        assert s'.c[j].SubSignal?;
      } else {
        var m :| 0 <= m < |s.w| && (Heading(s.w[m]) || s.w[m].Check? || s.w[m].Relay?);
        assert s'.w[m] == s.w[m];
      }
    }
  }

  /** A push is followed by its signal, and the signal wakes a sleeper if there is one. */
  lemma ClientSignals(s: Pool, j: nat, wake: set<nat>, ok: bool)
    requires ClientEnabled(s, j, wake)
    ensures var s' := ClientNext(s, j, wake, ok);
            && (s.shutdown ==> s'.shutdown)
            && (Pushes(s.c[j], ok) ==> s'.c[j].SubSignal?)
            && (s.c[j].SubSignal? ==> SignalWakes(s.w, wake) && s'.w == Wake(s.w, wake))
  {
  }

  lemma ClientKeepsWakeup(s: Pool, j: nat, wake: set<nat>, ok: bool)
    requires WakeupInv(s) && ClientEnabled(s, j, wake)
    ensures WakeupInv(ClientNext(s, j, wake, ok))
  {
    var s' := ClientNext(s, j, wake, ok);
    ClientMovesPcs(s, j, wake, ok);
    ClientMovesTask(s, j, wake, ok);
    ClientSignals(s, j, wake, ok);
    if !s'.shutdown && s'.queue != [] && SomeAsleep(s'.w) {
      var k :| 0 <= k < |s'.w| && s'.w[k].Asleep?;
      assert s.w[k].Asleep?;
      if s.c[j].SubSignal? {
        var m :| m in wake;
        assert s'.w[m].Woken?;
      } else if s'.c[j].SubSignal? {
      } else if m :| 0 <= m < |s.w| && (Heading(s.w[m]) || s.w[m].Check? || s.w[m].Relay?) {
        assert s'.w[m] == s.w[m];
      } else {
        var m :| 0 <= m < |s.c| && s.c[m].SubSignal?;
        assert s'.c[m].SubSignal?;
      }
    }
  }

  /** What a worker step can do to the flag, to sleepers and to waiters. */
  lemma WorkerMovesFlag(s: Pool, i: nat, wake: set<nat>)
    requires WorkerEnabled(s, i, wake)
    ensures var s' := WorkerNext(s, i, wake);
            && (s'.shutdown <==> s.shutdown || s.w[i].ExitCheck?)
            && (Leaving(s'.w[i]) ==> s.shutdown || Leaving(s.w[i]))
            && (s'.w[i].Asleep? ==> !s'.shutdown && s.queue == [])
            && |s'.c| == |s.c|
            && (forall j :: 0 <= j < |s.c| ==> s'.c[j] == s.c[j] || (s.c[j].WaitAsleep? && s'.c[j].WaitWoken?))
            && (s'.active != s.active ==> forall j :: 0 <= j < |s.c| ==> !s'.c[j].WaitAsleep?)
  {
  }

  lemma WorkerKeepsShutdown(s: Pool, i: nat, wake: set<nat>)
    requires ShutdownInv(s) && WorkerEnabled(s, i, wake)
    ensures ShutdownInv(WorkerNext(s, i, wake))
  {
    var s' := WorkerNext(s, i, wake);
    WorkerMovesFlag(s, i, wake);
    WorkerMovesPcs(s, i, wake);
    if s'.shutdown && SomeAsleep(s'.w) {
      var k :| 0 <= k < |s'.w| && s'.w[k].Asleep?;
      assert s.w[k].Asleep?;
      var j :| 0 <= j < |s.c| && s.c[j].StopBroadcast?;
      assert s'.c[j].StopBroadcast?;
    }
  }

  lemma WorkerKeepsDead(s: Pool, i: nat, wake: set<nat>)
    requires DeadInv(s) && WaiterInv(s) && WorkerEnabled(s, i, wake)
    ensures DeadInv(WorkerNext(s, i, wake)) && WaiterInv(WorkerNext(s, i, wake))
  {
    var s' := WorkerNext(s, i, wake);
    WorkerMovesFlag(s, i, wake);
    assert !Dead(s) && !Dead(s');
    if Takes(s, s.w[i]) {
      WorkerTakes(s, i, wake);
    } else if s.w[i].Body? {
      WorkerFinishes(s, i, wake);
    } else {
      WorkerCarries(s, i, wake);
    }
  }

  /** What a client step can do to the flag and to sleepers. */
  lemma ClientMovesFlag(s: Pool, j: nat, wake: set<nat>, ok: bool)
    requires ClientEnabled(s, j, wake)
    ensures var s' := ClientNext(s, j, wake, ok);
            && (s'.shutdown <==> s.shutdown || s.c[j].StopSet?)
            && (s.c[j].StopSet? <==> s'.c[j].StopBroadcast?)
            && (s.c[j].StopBroadcast? ==> !SomeAsleep(s'.w))
  {
  }

  lemma LockingMovesInto(pc: ClientPc)
    ensures var l := ClientLocked(pc);
            ClientWaitsFor(pc).Some? ==>
              && (AfterSet(l) ==> AfterSet(pc)) && !l.WaitAsleep? && !l.Join? && !l.Destroyed? && (pc.WantCtx? ==> l.Idle?)
    ensures var u := ClientUnlocked(pc);
            ClientReleases(pc).Some? ==>
              && (AfterSet(u) ==> AfterSet(pc)) && !u.WaitAsleep? && (u.Join? ==> u.k == 0) && !u.Destroyed?
  {
  }

  lemma ActingMovesInto(s: Pool, j: nat, wake: set<nat>, ok: bool)
    requires ClientEnabled(s, j, wake) && ClientWaitsFor(s.c[j]).None? && ClientReleases(s.c[j]).None?
    ensures var pc := ClientActs(s, j, wake, ok).c[j];
            && (AfterSet(pc) ==> AfterSet(s.c[j]) || s.c[j].StopSet?)
            && (pc.WaitAsleep? ==> s.active > 0)
            && (pc.Destroyed? <==> Discards(s, s.c[j]))
            && (pc.Join? ==> s.c[j].Join? && pc.k == s.c[j].k + 1 <= |s.w|)
  {
  }

  /** Which program counters a client step can reach. */
  lemma ClientMovesInto(s: Pool, j: nat, wake: set<nat>, ok: bool)
    requires ClientEnabled(s, j, wake)
    ensures var s' := ClientNext(s, j, wake, ok);
            && (AfterSet(s'.c[j]) ==> AfterSet(s.c[j]) || s.c[j].StopSet?)
            && (s'.c[j].WaitAsleep? ==> s.active > 0)
            && (s.c[j].WantCtx? ==> s'.c[j].Idle?)
            && (s'.c[j].Destroyed? <==> Discards(s, s.c[j]))
            && (s'.c[j].Join? ==> s'.c[j].k == 0 || (s.c[j].Join? && s'.c[j].k == s.c[j].k + 1 <= |s.w|))
  {
    LockingMovesInto(s.c[j]);
    if ClientWaitsFor(s.c[j]).None? && ClientReleases(s.c[j]).None? {
      ActingMovesInto(s, j, wake, ok);
    }
  }

  lemma ClientKeepsShutdown(s: Pool, j: nat, wake: set<nat>, ok: bool)
    requires ShutdownInv(s) && WaiterInv(s) && ClientEnabled(s, j, wake)
    ensures ShutdownInv(ClientNext(s, j, wake, ok)) && WaiterInv(ClientNext(s, j, wake, ok))
  {
    var s' := ClientNext(s, j, wake, ok);
    ClientMovesPcs(s, j, wake, ok);
    ClientMovesFlag(s, j, wake, ok);
    ClientMovesInto(s, j, wake, ok);
    if s'.shutdown && SomeAsleep(s'.w) {
      if s.c[j].StopSet? {
        assert s'.c[j].StopBroadcast?;
      } else {
        var k :| 0 <= k < |s'.w| && s'.w[k].Asleep?;
        assert s.w[k].Asleep?;
        var b :| 0 <= b < |s.c| && s.c[b].StopBroadcast?;
        assert s'.c[b].StopBroadcast?;
      }
    }
  }

  lemma ClientKeepsDead(s: Pool, j: nat, wake: set<nat>, ok: bool)
    requires ShutdownInv(s) && DeadInv(s) && ClientEnabled(s, j, wake)
    ensures DeadInv(ClientNext(s, j, wake, ok))
  {
    var s' := ClientNext(s, j, wake, ok);
    ClientMovesPcs(s, j, wake, ok);
    ClientMovesFlag(s, j, wake, ok);
    ClientMovesInto(s, j, wake, ok);
    ClientMovesTask(s, j, wake, ok);
    if d :| 0 <= d < |s.c| && s.c[d].Destroyed? {
      assert s'.c[d].Destroyed?;
    } else if Discards(s, s.c[j]) {
      assert s'.c[j].Destroyed?;
    } else {
      assert !Dead(s');
    }
  }

  lemma WorkerKeepsPass(s: Pool, i: nat, wake: set<nat>)
    requires PassInv(s) && LockInv(s) && WorkerEnabled(s, i, wake)
    ensures PassInv(WorkerNext(s, i, wake))
  {
    var s' := WorkerNext(s, i, wake);
    WorkerMovesFlag(s, i, wake);
    forall j | 0 <= j < |s'.c| && SawNone(s'.c[j]) ensures s'.active <= 0 {
      assert Holds(s, C(j), ActiveMutex);
      assert !Holds(s, W(i), ActiveMutex);
      assert s'.active == s.active;
    }
  }

  lemma WorkerKeepsStopper(s: Pool, i: nat, wake: set<nat>)
    requires StopperInv(s) && WorkerEnabled(s, i, wake)
    ensures StopperInv(WorkerNext(s, i, wake))
  {
    var s' := WorkerNext(s, i, wake);
    WorkerMovesFlag(s, i, wake);
    assert s'.closing == s.closing;
    assert forall j :: 0 <= j < |s.c| && Stopping(s'.c[j]) ==> Stopping(s.c[j]);
  }

  lemma ClientKeepsStopper(s: Pool, j: nat, wake: set<nat>, ok: bool)
    requires StopperInv(s) && PassInv(s) && ClientEnabled(s, j, wake)
    ensures StopperInv(ClientNext(s, j, wake, ok)) && PassInv(ClientNext(s, j, wake, ok))
  {
    var s' := ClientNext(s, j, wake, ok);
    ClientMovesPcs(s, j, wake, ok);
    ClientMovesStage(s, j, wake, ok);
    assert forall k :: 0 <= k < |s.c| && Stopping(s'.c[k]) ==> Stopping(s.c[k]);
  }

  /** Taking and releasing a mutex moves a client within the call it is in. */
  lemma LockingStage(pc: ClientPc)
    ensures ClientWaitsFor(pc).Some? ==>
              && (Stopping(ClientLocked(pc)) <==> Stopping(pc)) && (SawNone(ClientLocked(pc)) <==> SawNone(pc))
    ensures ClientReleases(pc).Some? ==>
              && (Stopping(ClientUnlocked(pc)) <==> Stopping(pc)) && (SawNone(ClientUnlocked(pc)) ==> SawNone(pc))
  {
  }

  lemma ActingStage(s: Pool, j: nat, wake: set<nat>, ok: bool)
    requires ClientEnabled(s, j, wake) && ClientWaitsFor(s.c[j]).None? && ClientReleases(s.c[j]).None?
    ensures var s' := ClientActs(s, j, wake, ok);
            && s'.closing == s.closing
            && (Stopping(s'.c[j]) <==> Stopping(s.c[j]))
            && (SawNone(s'.c[j]) ==> SawNone(s.c[j]) || s.active <= 0)
  {
  }

  lemma ClientMovesStage(s: Pool, j: nat, wake: set<nat>, ok: bool)
    requires ClientEnabled(s, j, wake)
    ensures var s' := ClientNext(s, j, wake, ok);
            && s'.closing == s.closing
            && (Stopping(s'.c[j]) <==> Stopping(s.c[j]))
            && (SawNone(s'.c[j]) ==> SawNone(s.c[j]) || s.active <= 0)
  {
    LockingStage(s.c[j]);
    if ClientWaitsFor(s.c[j]).None? && ClientReleases(s.c[j]).None? {
      ActingStage(s, j, wake, ok);
    }
  }

  /** What the start of a call changes: one program counter, and perhaps `closing`. */
  lemma CallMoves(s: Pool, j: nat, call: Call)
    requires CallEnabled(s, j, call)
    ensures var s' := CallNext(s, j, call);
            && s' == s.(c := s'.c, locks := s'.locks, closing := s'.closing)
            && s'.c == s.c[j := s'.c[j]]
            && (s'.closing <==> s.closing || call.Destroy?)
            && (Stopping(s'.c[j]) <==> call.Destroy?)
            && !AfterSet(s'.c[j]) && !s'.c[j].WaitAsleep? && !SawNone(s'.c[j])
            && (Dead(s) ==> s'.c[j].Idle? || s'.c[j].WantCtx?)
  {
  }

  lemma CallKeepsFlags(s: Pool, j: nat, call: Call)
    requires WakeupInv(s) && WaiterInv(s) && PassInv(s) && ShutdownInv(s) && StopperInv(s) && CallEnabled(s, j, call)
    ensures var s' := CallNext(s, j, call);
            WakeupInv(s') && WaiterInv(s') && PassInv(s') && ShutdownInv(s') && StopperInv(s')
  {
    var s' := CallNext(s, j, call);
    CallMoves(s, j, call);
    if b :| 0 <= b < |s.c| && s.c[b].SubSignal? {
      assert s'.c[b].SubSignal?;
    }
    if b :| 0 <= b < |s.c| && s.c[b].StopBroadcast? {
      assert s'.c[b].StopBroadcast?;
    }
  }

  lemma CallKeepsDead(s: Pool, j: nat, call: Call)
    requires DeadInv(s) && CallEnabled(s, j, call)
    ensures DeadInv(CallNext(s, j, call))
  {
    var s' := CallNext(s, j, call);
    CallMoves(s, j, call);
    if d :| 0 <= d < |s.c| && s.c[d].Destroyed? {
      assert s'.c[d].Destroyed?;
    } else {
      assert !Dead(s');
    }
  }

  lemma SpuriousKeepsInv(s: Pool, i: nat)
    requires Inv(s) && i < |s.w| && s.w[i].Asleep?
    ensures Inv(s.(w := s.w[i := Woken]))
  {
    SpuriousKeepsLocks(s, i);
    HandsSame(s.w, s.w[i := Woken]);
    SpuriousKeepsFlags(s, i);
  }

  lemma SpuriousKeepsFlags(s: Pool, i: nat)
    requires WakeupInv(s) && ShutdownInv(s) && DeadInv(s) && i < |s.w| && s.w[i].Asleep?
    ensures var s' := s.(w := s.w[i := Woken]); WakeupInv(s') && ShutdownInv(s') && DeadInv(s')
  {
    var s' := s.(w := s.w[i := Woken]);
    assert Heading(s'.w[i]);
  }

  lemma SpuriousKeepsLocks(s: Pool, i: nat)
    requires LockInv(s) && i < |s.w| && s.w[i].Asleep?
    ensures LockInv(s.(w := s.w[i := Woken]))
  {
    var s' := s.(w := s.w[i := Woken]);
    forall t, m ensures Holds(s', t, m) <==> Owner(s'.locks, m) == Some(t) {
      assert Holds(s, t, m) <==> Owner(s.locks, m) == Some(t);
    }
  }

  lemma WaiterSpuriousKeepsInv(s: Pool, j: nat)
    requires Inv(s) && j < |s.c| && s.c[j].WaitAsleep?
    ensures Inv(s.(c := s.c[j := WaitWoken]))
  {
    var s' := s.(c := s.c[j := WaitWoken]);
    forall t, m ensures Holds(s', t, m) <==> Owner(s'.locks, m) == Some(t) {
      assert Holds(s, t, m) <==> Owner(s.locks, m) == Some(t);
    }
    if b :| 0 <= b < |s.c| && s.c[b].SubSignal? {
      assert s'.c[b].SubSignal?;
    }
    if b :| 0 <= b < |s.c| && s.c[b].StopBroadcast? {
      assert s'.c[b].StopBroadcast?;
    }
  }

  lemma InitInv(workers: nat, clients: nat)
    ensures Inv(Init(workers, clients))
  {
    var s := Init(workers, clients);
    NoHands(s.w);
    InitLocks(workers, clients);
  }

  lemma InitLocks(workers: nat, clients: nat)
    ensures LockInv(Init(workers, clients))
  {
    var s := Init(workers, clients);
    forall t, m ensures Holds(s, t, m) <==> Owner(s.locks, m) == Some(t) {
      assert !Holds(s, t, m) && Owner(s.locks, m) == None;
    }
  }

  lemma {:induction false} NoHands(w: seq<WorkerPc>)
    requires forall k :: 0 <= k < |w| ==> Carries(w[k]).None? && Counted(w[k]) == 0
    ensures Hands(w) == multiset{} && Sum(w, Counted) == 0
  {
    if w != [] {
      NoHands(w[..|w| - 1]);
    }
  }

  /** Every step of every thread keeps the invariant. */
  lemma StepKeepsInv(s: Pool, a: Action)
    requires Inv(s) && Enabled(s, a)
    ensures Inv(Next(s, a))
  {
    match a {
      case WorkerStep(i, wake) =>
        WorkerKeepsLocks(s, i, wake);
        WorkerKeepsHistory(s, i, wake);
        WorkerKeepsActive(s, i, wake);
        WorkerKeepsWakeup(s, i, wake);
        WorkerKeepsShutdown(s, i, wake);
        WorkerKeepsDead(s, i, wake);
        WorkerKeepsPass(s, i, wake);
        WorkerKeepsStopper(s, i, wake);
      case WorkerSpurious(i) =>
        SpuriousKeepsInv(s, i);
      case ClientCall(j, call) =>
        CallKeepsLocks(s, j, call);
        CallMoves(s, j, call);
        CallKeepsFlags(s, j, call);
        CallKeepsDead(s, j, call);
      case ClientStep(j, wake, ok) =>
        ClientKeepsLocks(s, j, wake, ok);
        ClientKeepsHistory(s, j, wake, ok);
        ClientKeepsHands(s, j, wake, ok);
        ClientKeepsWakeup(s, j, wake, ok);
        ClientKeepsShutdown(s, j, wake, ok);
        ClientKeepsDead(s, j, wake, ok);
        ClientKeepsStopper(s, j, wake, ok);
      case ClientSpurious(j) =>
        WaiterSpuriousKeepsInv(s, j);
    }
  }

  lemma {:induction false} RunKeepsInv(s: Pool, acts: seq<Action>)
    requires Inv(s) && Legal(s, acts)
    ensures Inv(Exec(s, acts))
    decreases |acts|
  {
    if acts != [] {
      StepKeepsInv(s, acts[0]);
      RunKeepsInv(Next(s, acts[0]), acts[1..]);
    }
  }

  /** The invariant holds in every reachable state, for any number of workers and clients. */
  lemma ReachableInv(s: Pool, workers: nat, clients: nat)
    requires Reachable(s, workers, clients)
    ensures Inv(s)
  {
    var acts :| Legal(Init(workers, clients), acts) && Exec(Init(workers, clients), acts) == s;
    InitInv(workers, clients);
    RunKeepsInv(Init(workers, clients), acts);
  }
}
