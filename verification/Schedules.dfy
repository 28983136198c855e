/** Schedules: runs that exist from any state, without spurious wakeups or new calls. */
module Schedules {
  import opened Prelude
  import opened ThreadPool
  import opened PoolInvariant
  import opened PoolTheorems

  // ---------------------------------------------------------------------------
  // Concatenating runs
  // ---------------------------------------------------------------------------

  /** No spurious wakeup, no successful push, no call but the release of a context. */
  ghost predicate QuietStep(a: Action) {
    match a
    case WorkerStep(_, _) => true
    case ClientStep(_, _, ok) => !ok
    case ClientCall(_, call) => call == UnlockCtx
    case _ => false
  }

  ghost predicate Quiet(acts: seq<Action>) {
    acts == [] || (QuietStep(acts[0]) && Quiet(acts[1..]))
  }

  lemma LegalCons(s: Pool, a: Action, rest: seq<Action>)
    requires Enabled(s, a) && Legal(Next(s, a), rest)
    ensures Legal(s, [a] + rest) && Exec(s, [a] + rest) == Exec(Next(s, a), rest)
    ensures QuietStep(a) && Quiet(rest) ==> Quiet([a] + rest)
  {
    assert ([a] + rest)[1..] == rest;
  }

  lemma {:induction false} LegalConcat(s: Pool, acts: seq<Action>, rest: seq<Action>)
    requires Legal(s, acts) && Legal(Exec(s, acts), rest)
    ensures Legal(s, acts + rest) && Exec(s, acts + rest) == Exec(Exec(s, acts), rest)
    decreases |acts|
  {
    if acts == [] {
      assert acts + rest == rest;
    } else {
      var all := acts + rest;
      assert all[0] == acts[0] && all[1..] == acts[1..] + rest;
      LegalConcat(Next(s, acts[0]), acts[1..], rest);
    }
  }

  lemma {:induction false} QuietConcat(acts: seq<Action>, rest: seq<Action>)
    requires Quiet(acts) && Quiet(rest)
    ensures Quiet(acts + rest)
  {
    if acts == [] {
      assert acts + rest == rest;
    } else {
      QuietConcat(acts[1..], rest);
      assert (acts + rest)[1..] == acts[1..] + rest;
    }
  }

  // ---------------------------------------------------------------------------
  // A plain step: a thread that has something to do does it; signals wake one sleeper,
  // allocations fail, and a client outside the pool releases the context it holds
  // ---------------------------------------------------------------------------

  ghost function OneSleeper(w: seq<WorkerPc>): (wake: set<nat>)
    ensures SignalWakes(w, wake)
    ensures wake == {} || exists k :: wake == {k}
  {
    if SomeAsleep(w) then var k :| 0 <= k < |w| && w[k].Asleep?; {k} else {}
  }

  ghost function Plain(s: Pool, r: Tid): Action {
    match r
    case W(i) => WorkerStep(i, OneSleeper(s.w))
    case C(j) =>
      if j < |s.c| && s.c[j].Idle? then ClientCall(j, UnlockCtx) else ClientStep(j, OneSleeper(s.w), false)
  }

  lemma PlainEnabled(s: Pool, r: Tid)
    requires CanStep(s, r)
    ensures Enabled(s, Plain(s, r))
  {
  }

  /** Steps after which a client holds nothing; zero where it holds nothing or is joining. */
  ghost function ClientLeft(pc: ClientPc): nat {
    match pc
    case Idle(h) => if h.Some? then 1 else 0
    case SubWant(h, _, _) => 7
    case SubPush(h, _, _) => 6
    case SubSignal(h) => 5
    case SubUnlock(h, _) => 2
    case WaitTest => 3
    case WaitSize => 2
    case WaitRetry => 1
    case WaitPass => 1
    case WaitCheck => 2
    case WaitUnlock(_) => 1
    case StopSet => 3
    case StopBroadcast => 2
    case StopUnlock => 1
    case _ => 0
  }

  lemma HolderHasLeft(pc: ClientPc, m: Mutex)
    requires ClientHolds(pc, m)
    ensures ClientLeft(pc) > 0
  {
  }

  /** A thread that a schedule may run: a worker, or a client with something to release. */
  ghost predicate Runs(s: Pool, r: Tid) {
    CanStep(s, r) && (r.C? ==> ClientLeft(s.c[r.j]) > 0)
  }

  lemma UnblockerRuns(s: Pool, t: Tid, r: Tid)
    requires LockInv(s) && Unblocks(s, t, r) && (t.C? ==> ClientLeft(s.c[t.j]) > 0)
    ensures Runs(s, r)
    ensures r == t || exists m :: Holds(s, r, m)
  {
    if r != t {
      var m :| Owner(s.locks, m) == Some(r);
      assert Holds(s, r, m);
      if r.C? {
        HolderHasLeft(s.c[r.j], m);
      }
    }
  }

  lemma LockingLowers(pc: ClientPc)
    requires ClientLeft(pc) > 0
    ensures ClientWaitsFor(pc).Some? ==> ClientLeft(ClientLocked(pc)) < ClientLeft(pc)
    ensures ClientReleases(pc).Some? ==> ClientLeft(ClientUnlocked(pc)) < ClientLeft(pc)
  {
  }

  lemma ActingLowers(s: Pool, j: nat, wake: set<nat>)
    requires ClientEnabled(s, j, wake) && ClientWaitsFor(s.c[j]).None? && ClientReleases(s.c[j]).None?
    requires ClientLeft(s.c[j]) > 0
    ensures ClientLeft(ClientActs(s, j, wake, false).c[j]) + (if s.c[j].SubSignal? then 3 else 1) <= ClientLeft(s.c[j])
  {
  }

  lemma ClientStepLowers(s: Pool, j: nat, wake: set<nat>)
    requires ClientEnabled(s, j, wake) && ClientLeft(s.c[j]) > 0
    ensures ClientLeft(ClientNext(s, j, wake, false).c[j]) + (if s.c[j].SubSignal? then 3 else 1) <= ClientLeft(s.c[j])
  {
    LockingLowers(s.c[j]);
    if ClientWaitsFor(s.c[j]).None? && ClientReleases(s.c[j]).None? {
      ActingLowers(s, j, wake);
    }
  }

  /** What every plain step leaves as it is. */
  ghost predicate Follows(s: Pool, s': Pool) {
    && |s'.c| == |s.c| && |s'.w| == |s.w| && s'.h.pushed == s.h.pushed
    && (s.shutdown ==> s'.shutdown)
    && (Open(s) ==> Open(s'))
    && (forall j :: 0 <= j < |s.c| && s.c[j] == WaitWant ==> s'.c[j] == WaitWant)
    && (forall j :: 0 <= j < |s.c| && Ending(s.c[j]) ==> Ending(s'.c[j]))
  }

  /** Destroy has not been called. */
  ghost predicate Open(s: Pool) {
    !s.shutdown && !s.closing
  }

  /** Inside destroy, with the flag set and the pool not yet torn down. */
  ghost predicate Ending(pc: ClientPc) {
    AfterSet(pc) && !pc.Destroyed?
  }

  lemma FollowsOn(a: Pool, b: Pool, c: Pool)
    requires Follows(a, b) && Follows(b, c)
    ensures Follows(a, c)
  {
  }

  /** A plain step of a client, by what it may change. */
  lemma PlainClient(s: Pool, j: nat)
    requires Inv(s) && Runs(s, C(j))
    ensures Enabled(s, Plain(s, C(j)))
    ensures var s' := Next(s, Plain(s, C(j)));
            && Follows(s, s') && s'.queue == s.queue && s'.active == s.active
            && s'.c == s.c[j := s'.c[j]]
            && ClientLeft(s'.c[j]) + (if s.c[j].SubSignal? then 3 else 1) <= ClientLeft(s.c[j])
  {
    PlainEnabled(s, C(j));
    if s.c[j].Idle? {
      CallMoves(s, j, UnlockCtx);
    } else {
      var wake := OneSleeper(s.w);
      ClientStepLowers(s, j, wake);
      ClientMovesPcs(s, j, wake, false);
      ClientMovesTask(s, j, wake, false);
      ClientMovesFlag(s, j, wake, false);
      ClientKeepsEnding(s, j, wake);
    }
  }

  lemma ClientKeepsEnding(s: Pool, j: nat, wake: set<nat>)
    requires StopperInv(s) && ClientEnabled(s, j, wake) && ClientLeft(s.c[j]) > 0
    ensures var s' := ClientNext(s, j, wake, false);
            && (Ending(s.c[j]) ==> Ending(s'.c[j]))
            && s'.closing == s.closing
            && (s.c[j].StopSet? ==> s.closing)
  {
  }

  /** A plain step of a worker, by what it may change. */
  lemma PlainWorker(s: Pool, i: nat)
    requires Inv(s) && Runs(s, W(i))
    ensures Enabled(s, Plain(s, W(i)))
    ensures var s' := Next(s, Plain(s, W(i)));
            && Follows(s, s')
            && (forall j :: 0 <= j < |s.c| ==> s'.c[j] == s.c[j] || (s.c[j].WaitAsleep? && s'.c[j].WaitWoken?))
            && (if Takes(s, s.w[i]) then s'.queue == s.queue[1..] && s'.w[i] == Relay(s.queue[0]) else s'.queue == s.queue)
  {
    PlainEnabled(s, W(i));
    var wake := OneSleeper(s.w);
    WorkerMovesFlag(s, i, wake);
    WorkerMovesPcs(s, i, wake);
    if Takes(s, s.w[i]) {
      WorkerTakes(s, i, wake);
    } else if s.w[i].Body? {
      WorkerFinishes(s, i, wake);
    } else {
      WorkerCarries(s, i, wake);
    }
    assert Next(s, Plain(s, W(i))).closing == s.closing;
  }

  // ---------------------------------------------------------------------------
  // While the pool is open: a measure that every plain step lowers
  // ---------------------------------------------------------------------------

  /** Steps a worker has left before it sleeps on an empty queue, and room for the sleeper
      it may wake. */
  ghost function WorkLeft(pc: WorkerPc): nat {
    match pc
    case Asleep => 0
    case Check => 1
    case WantQueue => 2
    case Woken => 2
    case UnlockDec => 3
    case Dec => 4
    case WantDec => 5
    case Body(_) => 6
    case Start(_) => 7
    case UnlockInc(_) => 8
    case Inc(_) => 9
    case WantInc(_) => 10
    case UnlockQueue(_) => 11
    case Relay(_) => 14
    case _ => 0
  }

  ghost function Work(s: Pool): nat {
    20 * |s.queue| + Sum(s.w, WorkLeft) + Sum(s.c, ClientLeft)
  }

  /** Waking one sleeper adds at most two. */
  lemma WakeOne(w: seq<WorkerPc>, v: seq<WorkerPc>, wake: set<nat>)
    requires |v| == |w| && (wake == {} || exists k :: wake == {k})
    requires forall k :: 0 <= k < |w| ==> v[k] == w[k] || (k in wake && w[k].Asleep? && v[k].Woken?)
    ensures Sum(v, WorkLeft) <= Sum(w, WorkLeft) + 2
  {
    if wake != {} {
      var k :| wake == {k};
      if k < |w| {
        assert v == w[k := v[k]];
        SumUpdate(w, k, v[k], WorkLeft);
      } else {
        assert v == w;
      }
    } else {
      assert v == w;
    }
  }

  /** Only a relay wakes workers while the pool is open, and only those its signal names. */
  lemma WorkerWakes(s: Pool, i: nat, wake: set<nat>)
    requires WorkerEnabled(s, i, wake) && !s.w[i].ExitCheck?
    ensures var s' := WorkerNext(s, i, wake);
            && |s'.w| == |s.w|
            && forall k :: 0 <= k < |s.w| && k != i ==>
                 s'.w[k] == s.w[k] || (s.w[i].Relay? && k in wake && s.w[k].Asleep? && s'.w[k].Woken?)
  {
  }

  lemma OwnWorkLowers(s: Pool, i: nat, wake: set<nat>)
    requires WorkerEnabled(s, i, wake) && !s.shutdown && !Leaving(s.w[i])
    ensures var s' := WorkerNext(s, i, wake);
            WorkLeft(s'.w[i]) + (if s.w[i].Relay? then 3 else 1) <=
              WorkLeft(s.w[i]) + if Takes(s, s.w[i]) then 15 else 0
  {
  }

  lemma PlainWorkerLowersWork(s: Pool, i: nat)
    requires Inv(s) && Open(s) && Runs(s, W(i))
    ensures Enabled(s, Plain(s, W(i)))
    ensures Work(Next(s, Plain(s, W(i)))) < Work(s)
  {
    PlainWorker(s, i);
    var wake := OneSleeper(s.w);
    var s' := Next(s, Plain(s, W(i)));
    WorkerWakes(s, i, wake);
    OwnWorkLowers(s, i, wake);
    var u := s.w[i := s'.w[i]];
    SumUpdate(s.w, i, s'.w[i], WorkLeft);
    if s.w[i].Relay? {
      WakeOne(u, s'.w, wake);
    } else {
      assert s'.w == u;
    }
    SumMonotone(s'.c, s.c, ClientLeft);
  }

  lemma ClientWakes(s: Pool, j: nat, wake: set<nat>, ok: bool)
    requires ClientEnabled(s, j, wake) && !s.c[j].StopBroadcast?
    ensures var s' := ClientNext(s, j, wake, ok);
            && |s'.w| == |s.w|
            && forall k :: 0 <= k < |s.w| ==>
                 s'.w[k] == s.w[k] || (s.c[j].SubSignal? && k in wake && s.w[k].Asleep? && s'.w[k].Woken?)
  {
  }

  lemma PlainClientLowersWork(s: Pool, j: nat)
    requires Inv(s) && Open(s) && Runs(s, C(j))
    ensures Enabled(s, Plain(s, C(j)))
    ensures Work(Next(s, Plain(s, C(j)))) < Work(s)
  {
    PlainClient(s, j);
    var s' := Next(s, Plain(s, C(j)));
    SumUpdate(s.c, j, s'.c[j], ClientLeft);
    if s.c[j].Idle? {
      CallMoves(s, j, UnlockCtx);
    } else {
      assert !Stopping(s.c[j]);
      ClientWakes(s, j, OneSleeper(s.w), false);
      if s.c[j].SubSignal? {
        WakeOne(s.w, s'.w, OneSleeper(s.w));
      } else {
        assert s'.w == s.w;
      }
    }
  }

  lemma PlainLowersWork(s: Pool, r: Tid)
    requires Inv(s) && Open(s) && Runs(s, r)
    ensures Enabled(s, Plain(s, r))
    ensures var s' := Next(s, Plain(s, r));
            && Inv(s') && Work(s') < Work(s) && Follows(s, s')
            && (s'.queue == s.queue || (r.W? && Takes(s, s.w[r.i]) && s'.queue == s.queue[1..] && s'.w[r.i] == Relay(s.queue[0])))
  {
    match r {
      case W(i) =>
        PlainWorker(s, i);
        PlainWorkerLowersWork(s, i);
      case C(j) =>
        PlainClient(s, j);
        PlainClientLowersWork(s, j);
    }
    StepKeepsInv(s, Plain(s, r));
  }

  // ---------------------------------------------------------------------------
  // An open pool can always work its queue off
  // ---------------------------------------------------------------------------

  lemma WorkerRuns(s: Pool) returns (r: Tid)
    requires Inv(s) && Open(s) && |s.w| > 0 && s.queue != []
    ensures Runs(s, r)
  {
    var t;
    t, r := WorkNeverStalls(s);
    UnblockerRuns(s, t, r);
  }

  /** From any open state with work queued, plain steps pop everything; the run stops at the
      last pop. */
  lemma {:induction false} DrainToLast(s: Pool) returns (acts: seq<Action>, f: nat)
    requires Inv(s) && Open(s) && |s.w| > 0 && s.queue != []
    ensures Legal(s, acts) && Quiet(acts)
    ensures var s' := Exec(s, acts);
            Inv(s') && Follows(s, s') && s'.queue == [] && f < |s'.w| && s'.w[f].Relay?
    decreases Work(s)
  {
    var r := WorkerRuns(s);
    PlainLowersWork(s, r);
    var s1 := Next(s, Plain(s, r));
    var rest := [];
    if s1.queue == [] {
      f := r.i;
    } else {
      rest, f := DrainToLast(s1);
      FollowsOn(s, s1, Exec(s1, rest));
    }
    LegalCons(s, Plain(s, r), rest);
    acts := [Plain(s, r)] + rest;
  }

  /** Everyone but the workers in `keep` is asleep, and both inner mutexes are free. */
  ghost predicate Settled(s: Pool, keep: set<nat>) {
    && s.locks.queue.None? && s.locks.active.None?
    && forall i :: 0 <= i < |s.w| && i !in keep ==> s.w[i].Asleep?
  }

  /** Workers that have popped a task and are about to count themselves. */
  ghost predicate Paused(s: Pool, keep: set<nat>) {
    forall i :: i in keep ==> i < |s.w| && s.w[i].WantInc?
  }

  /** The owner of an inner mutex may run. */
  lemma InnerOwnerRuns(s: Pool) returns (r: Tid)
    requires Inv(s) && !(s.locks.queue.None? && s.locks.active.None?)
    ensures Runs(s, r) && exists m :: Holds(s, r, m)
  {
    var m := if s.locks.queue.Some? then QueueMutex else ActiveMutex;
    r := Owner(s.locks, m).value;
    assert Holds(s, r, m);
    InnerHolderCanStep(s, r, m);
    if r.C? {
      HolderHasLeft(s.c[r.j], m);
    }
  }

  /** In an unsettled state with nothing queued, somebody other than the paused workers can
      take a plain step. */
  lemma UnsettledRuns(s: Pool, keep: set<nat>) returns (r: Tid)
    requires Inv(s) && Open(s) && s.queue == [] && Paused(s, keep) && !Settled(s, keep)
    ensures Runs(s, r) && (r.W? ==> r.i !in keep)
  {
    if i :| 0 <= i < |s.w| && i !in keep && !s.w[i].Asleep? {
      assert !Leaving(s.w[i]);
      r := BusyIsUnblocked(s, W(i));
      UnblockerRuns(s, W(i), r);
    } else {
      r := InnerOwnerRuns(s);
    }
  }

  lemma PausedStay(s: Pool, r: Tid, keep: set<nat>)
    requires Inv(s) && Runs(s, r) && Paused(s, keep) && (r.W? ==> r.i !in keep)
    ensures Enabled(s, Plain(s, r)) && Paused(Next(s, Plain(s, r)), keep)
    ensures |Next(s, Plain(s, r)).w| == |s.w|
    ensures forall i :: i in keep ==> Next(s, Plain(s, r)).w[i] == s.w[i]
  {
    PlainEnabled(s, r);
    match r {
      case W(i) => WorkerMovesPcs(s, i, OneSleeper(s.w));
      case C(j) =>
        if s.c[j].Idle? {
          CallMoves(s, j, UnlockCtx);
        } else {
          ClientMovesPcs(s, j, OneSleeper(s.w), false);
        }
    }
  }

  lemma SettleStep(s: Pool, keep: set<nat>) returns (r: Tid)
    requires Inv(s) && Open(s) && s.queue == [] && Paused(s, keep) && !Settled(s, keep)
    ensures Enabled(s, Plain(s, r)) && QuietStep(Plain(s, r))
    ensures var s' := Next(s, Plain(s, r));
            && Inv(s') && Work(s') < Work(s) && Follows(s, s') && s'.queue == [] && Paused(s', keep)
            && |s'.w| == |s.w| && forall i :: i in keep ==> s'.w[i] == s.w[i]
  {
    r := UnsettledRuns(s, keep);
    PlainLowersWork(s, r);
    PausedStay(s, r, keep);
  }

  /** With nothing queued, plain steps put everyone to sleep but the paused workers. */
  lemma {:induction false} Settle(s: Pool, keep: set<nat>) returns (acts: seq<Action>)
    requires Inv(s) && Open(s) && s.queue == [] && Paused(s, keep)
    ensures Legal(s, acts) && Quiet(acts)
    ensures var s' := Exec(s, acts);
            && Inv(s') && Follows(s, s') && s'.queue == [] && Settled(s', keep)
            && forall i :: i in keep ==> s'.w[i] == s.w[i]
    decreases Work(s)
  {
    if Settled(s, keep) {
      acts := [];
    } else {
      var r := SettleStep(s, keep);
      var s1 := Next(s, Plain(s, r));
      var rest := Settle(s1, keep);
      FollowsOn(s, s1, Exec(s1, rest));
      LegalCons(s, Plain(s, r), rest);
      acts := [Plain(s, r)] + rest;
    }
  }

  /** Until destroy is called, no state of a pool with a worker is a dead end: plain steps
      finish every task ever pushed. */
  lemma EveryTaskCanFinish(s: Pool) returns (acts: seq<Action>)
    requires Inv(s) && Open(s) && |s.w| > 0
    ensures Legal(s, acts) && Quiet(acts)
    ensures var s' := Exec(s, acts);
            && s'.h.pushed == s.h.pushed && s'.queue == []
            && multiset(s'.h.finished) == multiset(s.h.pushed)
  {
    var first, f := [], 0;
    if s.queue != [] {
      first, f := DrainToLast(s);
    }
    var s1 := Exec(s, first);
    var rest := Settle(s1, {});
    LegalConcat(s, first, rest);
    QuietConcat(first, rest);
    acts := first + rest;
    AsleepHasFinished(Exec(s1, rest));
  }

  lemma AsleepHasFinished(s: Pool)
    requires Inv(s) && s.queue == [] && Open(s) && forall i :: 0 <= i < |s.w| ==> s.w[i].Asleep?
    ensures multiset(s.h.finished) == multiset(s.h.pushed)
  {
    NoHands(s.w);
    assert !Dead(s) by {
      assert forall j :: 0 <= j < |s.c| && s.c[j].Destroyed? ==> Stopping(s.c[j]);
    }
    StartsInSubmissionOrder(s);
    assert s.h.popped + [] == s.h.popped;
  }

  // ---------------------------------------------------------------------------
  // Under the shutdown flag every worker can exit, and destroy's joins return
  // ---------------------------------------------------------------------------

  ghost function ExitWork(s: Pool): nat {
    Sum(s.w, StepsLeft) + Sum(s.c, ClientLeft)
  }

  lemma ExitedStay(s: Pool, a: Action)
    requires Enabled(s, a) && AllExited(s.w)
    ensures AllExited(Next(s, a).w)
  {
    match a {
      case WorkerStep(i, wake) => WorkerMovesPcs(s, i, wake);
      case ClientStep(j, wake, ok) => ClientMovesPcs(s, j, wake, ok);
      case ClientCall(j, call) => CallMoves(s, j, call);
      case _ =>
    }
  }

  lemma PlainLowersExitWork(s: Pool, r: Tid)
    requires Inv(s) && s.shutdown && Runs(s, r)
    ensures Enabled(s, Plain(s, r))
    ensures var s' := Next(s, Plain(s, r));
            && Inv(s') && ExitWork(s') < ExitWork(s) && Follows(s, s')
            && s'.h.popped == s.h.popped && s'.queue == s.queue
            && (AllExited(s.w) ==> AllExited(s'.w))
  {
    PlainEnabled(s, r);
    var a := Plain(s, r);
    var s' := Next(s, a);
    ShutdownStep(s, a);
    if AllExited(s.w) {
      ExitedStay(s, a);
    }
    match r {
      case W(i) =>
        PlainWorker(s, i);
        SumMonotone(s'.c, s.c, ClientLeft);
      case C(j) =>
        PlainClient(s, j);
        SumUpdate(s.c, j, s'.c[j], ClientLeft);
    }
    StepKeepsInv(s, a);
  }

  lemma UnexitedRuns(s: Pool) returns (r: Tid)
    requires Inv(s) && s.shutdown && !AllExited(s.w)
    ensures Runs(s, r)
  {
    var i :| 0 <= i < |s.w| && !s.w[i].Exited?;
    var t;
    t, r := UnexitedIsUnblocked(s, i);
    UnblockerRuns(s, t, r);
  }

  /** From any state under the flag, plain steps bring every worker to its end. */
  lemma {:induction false} WorkersExit(s: Pool) returns (acts: seq<Action>)
    requires Inv(s) && s.shutdown
    ensures Legal(s, acts) && Quiet(acts)
    ensures var s' := Exec(s, acts);
            && Inv(s') && Follows(s, s') && AllExited(s'.w)
            && s'.h.popped == s.h.popped && s'.queue == s.queue
    decreases ExitWork(s)
  {
    if !AllExited(s.w) {
      var r := UnexitedRuns(s);
      PlainLowersExitWork(s, r);
      var s1 := Next(s, Plain(s, r));
      var rest := WorkersExit(s1);
      FollowsOn(s, s1, Exec(s1, rest));
      LegalCons(s, Plain(s, r), rest);
      acts := [Plain(s, r)] + rest;
    } else {
      acts := [];
    }
  }

  /** After that, plain steps of the clients free both inner mutexes. */
  lemma {:induction false} InnerMutexesFreed(s: Pool) returns (acts: seq<Action>)
    requires Inv(s) && s.shutdown && AllExited(s.w)
    ensures Legal(s, acts) && Quiet(acts)
    ensures var s' := Exec(s, acts);
            && Inv(s') && Follows(s, s') && AllExited(s'.w) && s'.queue == s.queue
            && s'.locks.queue.None? && s'.locks.active.None?
    decreases ExitWork(s)
  {
    if s.locks.queue.None? && s.locks.active.None? {
      acts := [];
    } else {
      var r := InnerOwnerRuns(s);
      PlainLowersExitWork(s, r);
      var s1 := Next(s, Plain(s, r));
      var rest := InnerMutexesFreed(s1);
      FollowsOn(s, s1, Exec(s1, rest));
      LegalCons(s, Plain(s, r), rest);
      acts := [Plain(s, r)] + rest;
    }
  }

  /** Steps of destroy until its loop of joins has ended. */
  ghost function JoinsLeft(pc: ClientPc, workers: nat): nat
    requires pc.Join? ==> pc.k <= workers
  {
    match pc
    case StopBroadcast => workers + 2
    case StopUnlock => workers + 1
    case Join(k) => workers - k
    case _ => 0
  }

  lemma JoinPcStep(s: Pool, b: nat)
    requires s.shutdown && AllExited(s.w) && b < |s.c| && Ending(s.c[b]) && s.c[b] != Join(|s.w|)
    requires s.c[b].Join? ==> s.c[b].k <= |s.w|
    ensures ClientEnabled(s, b, {})
    ensures var s' := ClientNext(s, b, {}, false);
            && s'.c == s.c[b := s'.c[b]] && s'.shutdown && s'.h == s.h && s'.queue == s.queue && s'.w == s.w
            && s'.c[b] == match s.c[b]
                          case StopBroadcast => StopUnlock
                          case StopUnlock => Join(0)
                          case Join(k) => Join(k + 1)
                          case pc => pc
  {
    assert s.c[b].StopBroadcast? ==> WakeAll(s.w) == s.w;
  }

  lemma JoinStep(s: Pool, b: nat)
    requires Inv(s) && s.shutdown && AllExited(s.w) && b < |s.c| && Ending(s.c[b]) && s.c[b] != Join(|s.w|)
    ensures ClientEnabled(s, b, {})
    ensures var s' := ClientNext(s, b, {}, false);
            && Inv(s') && s'.shutdown && s'.w == s.w && |s'.c| == |s.c| && Ending(s'.c[b])
            && s'.h == s.h && s'.queue == s.queue
            && (s'.c[b].Join? ==> s'.c[b].k <= |s.w|)
            && JoinsLeft(s'.c[b], |s.w|) < JoinsLeft(s.c[b], |s.w|)
  {
    JoinPcStep(s, b);
    StepKeepsInv(s, ClientStep(b, {}, false));
  }

  /** Once every worker has exited, the joins return one after the other. */
  lemma {:induction false} JoinsReturn(s: Pool, b: nat) returns (acts: seq<Action>)
    requires Inv(s) && s.shutdown && AllExited(s.w) && b < |s.c| && Ending(s.c[b])
    ensures Legal(s, acts) && Quiet(acts)
    ensures var s' := Exec(s, acts);
            && Inv(s') && b < |s'.c| && s'.c[b] == Join(|s.w|) && s'.w == s.w && s'.h == s.h && s'.queue == s.queue
    decreases JoinsLeft(s.c[b], |s.w|)
  {
    if s.c[b] == Join(|s.w|) {
      acts := [];
    } else {
      JoinStep(s, b);
      var a := ClientStep(b, {}, false);
      var rest := JoinsReturn(Next(s, a), b);
      LegalCons(s, a, rest);
      acts := [a] + rest;
    }
  }

  /** From any state in which destroy has set the flag, plain steps bring it through all its
      joins, with every worker exited, no task in hand, nobody counted, and not one more
      task begun. */
  lemma DestroyCanFinish(s: Pool, b: nat) returns (acts: seq<Action>)
    requires Inv(s) && s.shutdown && b < |s.c| && Ending(s.c[b])
    ensures Legal(s, acts) && Quiet(acts)
    ensures var s' := Exec(s, acts);
            && |s'.w| == |s.w| && AllExited(s'.w) && Hands(s'.w) == multiset{} && s'.active == 0
            && b < |s'.c| && s'.c[b] == Join(|s.w|)
            && s'.h.popped == s.h.popped
  {
    var first := WorkersExit(s);
    var s1 := Exec(s, first);
    var rest := JoinsReturn(s1, b);
    LegalConcat(s, first, rest);
    QuietConcat(first, rest);
    acts := first + rest;
    ExitedIsQuiet(Exec(s1, rest));
  }
}
