/** What the return of wait says about the tasks pushed before its call. */
module WaitReturn {
  import opened Prelude
  import opened ThreadPool
  import opened PoolInvariant
  import opened PoolTheorems
  import opened Schedules

  /** Wait has found the queue empty under its mutex and is about to report success. */
  ghost predicate Returning(s: Pool, j: nat) {
    j < |s.c| && s.c[j] == WaitUnlock(true)
  }

  // ---------------------------------------------------------------------------
  // Tasks over runs
  // ---------------------------------------------------------------------------

  ghost predicate CarriedBy(s: Pool, i: nat, t: Task) {
    i < |s.w| && Carries(s.w[i]) == Some(t)
  }

  /** Finished tasks stay finished, and a worker keeps its task until it has finished it; on
      the way it never goes back before its increment. */
  lemma CarriedStep(s: Pool, a: Action, i: nat, t: Task)
    requires Enabled(s, a)
    ensures t in s.h.finished ==> t in Next(s, a).h.finished
    ensures CarriedBy(s, i, t) ==> t in Next(s, a).h.finished || CarriedBy(Next(s, a), i, t)
    ensures CarriedBy(s, i, t) && Past(s.w[i]) && CarriedBy(Next(s, a), i, t) ==> Past(Next(s, a).w[i])
  {
    match a {
      case WorkerStep(k, wake) =>
        WorkerMovesPcs(s, k, wake);
        if Takes(s, s.w[k]) {
          WorkerTakes(s, k, wake);
        } else if s.w[k].Body? {
          WorkerFinishes(s, k, wake);
        } else {
          WorkerCarries(s, k, wake);
          if Past(s.w[k]) {
            PastStep(s, k, wake);
          }
        }
      case ClientStep(j, wake, ok) =>
        ClientMovesPcs(s, j, wake, ok);
        ClientMovesTask(s, j, wake, ok);
      case ClientCall(j, call) =>
        CallMoves(s, j, call);
      case _ =>
    }
  }

  /** Past the window: holding the active mutex for the increment, or counted. */
  ghost predicate Past(pc: WorkerPc) {
    pc.Inc? || pc.UnlockInc? || pc.Start? || pc.Body?
  }

  lemma PastStep(s: Pool, k: nat, wake: set<nat>)
    requires WorkerEnabled(s, k, wake) && Past(s.w[k]) && !s.w[k].Body?
    ensures Past(WorkerNext(s, k, wake).w[k])
  {
  }

  lemma {:induction false} CarriedRun(s: Pool, acts: seq<Action>, i: nat, t: Task)
    requires Legal(s, acts) && CarriedBy(s, i, t)
    ensures t in Exec(s, acts).h.finished || CarriedBy(Exec(s, acts), i, t)
    decreases |acts|
  {
    if acts != [] {
      CarriedStep(s, acts[0], i, t);
      if CarriedBy(Next(s, acts[0]), i, t) {
        CarriedRun(Next(s, acts[0]), acts[1..], i, t);
      } else {
        FinishedRun(Next(s, acts[0]), acts[1..], t);
      }
    }
  }

  lemma {:induction false} FinishedRun(s: Pool, acts: seq<Action>, t: Task)
    requires Legal(s, acts) && t in s.h.finished
    ensures t in Exec(s, acts).h.finished
    decreases |acts|
  {
    if acts != [] {
      CarriedStep(s, acts[0], 0, t);
      FinishedRun(Next(s, acts[0]), acts[1..], t);
    }
  }

  /** From the pass on, however the run goes on and in particular at the return: a task pushed
      by the pass is unfinished only if the worker that still carries it already carried it at
      the pass, between its pop and its increment. */
  lemma PassGuaranteesReturn(s: Pool, j: nat, acts: seq<Action>, t: Task)
    requires Inv(s) && AtPass(s, j) && Legal(s, acts)
    requires t in s.h.pushed && t !in Exec(s, acts).h.finished
    ensures exists i: nat :: CarriedBy(s, i, t) && InWindow(s.w[i]) && CarriedBy(Exec(s, acts), i, t)
  {
    if t in s.h.finished {
      FinishedRun(s, acts, t);
    }
    WaitPassGuarantee(s, j);
    var i :| 0 <= i < |s.w| && InWindow(s.w[i]) && Carries(s.w[i]) == Some(t);
    CarriedRun(s, acts, i, t);
    assert CarriedBy(s, i, t) && InWindow(s.w[i]) && CarriedBy(Exec(s, acts), i, t);
  }

  // ---------------------------------------------------------------------------
  // From the call: what wait does promise
  // ---------------------------------------------------------------------------

  /** Finished, or carried by a worker past its window. */
  ghost predicate Safe(s: Pool, t: Task) {
    t in s.h.finished || exists i: nat :: CarriedBy(s, i, t) && Past(s.w[i])
  }

  lemma SafeStep(s: Pool, a: Action, t: Task)
    requires Enabled(s, a) && Safe(s, t)
    ensures Safe(Next(s, a), t)
  {
    if t in s.h.finished {
      CarriedStep(s, a, 0, t);
    } else {
      var i: nat :| CarriedBy(s, i, t) && Past(s.w[i]);
      CarriedStep(s, a, i, t);
    }
  }

  /** Inside wait, before it has seen that no task is active. */
  ghost predicate BeforeTest(pc: ClientPc) {
    pc.WaitWant? || pc.WaitWoken? || pc.WaitTest? || pc.WaitAsleep?
  }

  ghost predicate StillWaiting(s: Pool, j: nat) {
    j < |s.c| && BeforeTest(s.c[j])
  }

  /** A step takes a waiter beyond its test only if no task is active, and then every safe
      task has finished. */
  lemma TestSeesSafe(s: Pool, j: nat, t: Task)
    requires Inv(s) && j < |s.c| && s.c[j].WaitTest? && s.active <= 0 && Safe(s, t)
    ensures t in s.h.finished
  {
    if i: nat :| CarriedBy(s, i, t) && Past(s.w[i]) {
      assert Holds(s, C(j), ActiveMutex);
      assert !Holds(s, W(i), ActiveMutex);
      SumAtLeast(s.w, i, Counted);
    }
  }

  lemma LeavesTest(s: Pool, a: Action, j: nat)
    requires Enabled(s, a) && StillWaiting(s, j) && !StillWaiting(Next(s, a), j)
    ensures s.c[j].WaitTest? && s.active <= 0
  {
    match a {
      case WorkerStep(k, wake) => WorkerMovesFlag(s, k, wake);
      case ClientStep(k, wake, ok) =>
        ClientMovesPcs(s, k, wake, ok);
        TestMoves(s, k, wake, ok);
      case ClientCall(k, call) => CallMoves(s, k, call);
      case _ =>
    }
  }

  lemma TestMoves(s: Pool, j: nat, wake: set<nat>, ok: bool)
    requires ClientEnabled(s, j, wake) && BeforeTest(s.c[j])
    ensures BeforeTest(ClientNext(s, j, wake, ok).c[j]) || (s.c[j].WaitTest? && s.active <= 0)
  {
  }

  /** Every task that is safe when wait is called has finished by the time wait gets beyond
      its test, hence at every return, whatever the other threads do. */
  lemma {:induction false} SafeAtCallFinished(s: Pool, j: nat, acts: seq<Action>, t: Task)
    requires Inv(s) && StillWaiting(s, j) && Safe(s, t) && Legal(s, acts)
    ensures t in Exec(s, acts).h.finished || StillWaiting(Exec(s, acts), j)
    decreases |acts|
  {
    if acts != [] {
      var s1 := Next(s, acts[0]);
      StepKeepsInv(s, acts[0]);
      if t in s.h.finished || !StillWaiting(s1, j) {
        if t !in s.h.finished {
          LeavesTest(s, acts[0], j);
          TestSeesSafe(s, j, t);
        }
        FinishedRun(s, acts, t);
      } else {
        SafeStep(s, acts[0], t);
        SafeAtCallFinished(s1, j, acts[1..], t);
      }
    }
  }

  /** Nothing is queued and nobody is between a pop and its increment. */
  ghost predicate NothingLoose(s: Pool) {
    s.queue == [] && forall i :: 0 <= i < |s.w| ==> !InWindow(s.w[i])
  }

  lemma PushedIsSafe(s: Pool, j: nat, t: Task)
    requires Inv(s) && StillWaiting(s, j) && NothingLoose(s) && t in s.h.pushed
    ensures Safe(s, t)
  {
    ExactlyOnce(s, t);
    assert !Dead(s);
    if t in Hands(s.w) {
      var i := HandOf(s.w, t);
      assert CarriedBy(s, i, t) && Past(s.w[i]);
    }
  }

  // ---------------------------------------------------------------------------
  // The converse: a run to an early return
  // ---------------------------------------------------------------------------

  /** A worker in its window with nothing queued reaches its increment. */
  lemma BringToInc(s: Pool, f: nat) returns (acts: seq<Action>)
    requires Inv(s) && Open(s) && s.queue == [] && f < |s.w| && InWindow(s.w[f])
    ensures Legal(s, acts) && Quiet(acts)
    ensures var s' := Exec(s, acts);
            && Inv(s') && Follows(s, s') && s'.queue == [] && f < |s'.w| && s'.w[f].WantInc?
    decreases Work(s)
  {
    if s.w[f].WantInc? {
      acts := [];
    } else {
      UnblockedCanStep(s, W(f));
      PlainLowersWork(s, W(f));
      WindowStep(s, f);
      var s1 := Next(s, Plain(s, W(f)));
      var rest := BringToInc(s1, f);
      FollowsOn(s, s1, Exec(s1, rest));
      LegalCons(s, Plain(s, W(f)), rest);
      acts := [Plain(s, W(f))] + rest;
    }
  }

  lemma WindowStep(s: Pool, f: nat)
    requires f < |s.w| && InWindow(s.w[f]) && !s.w[f].WantInc? && Enabled(s, Plain(s, W(f)))
    ensures |Next(s, Plain(s, W(f))).w| == |s.w| && InWindow(Next(s, Plain(s, W(f))).w[f])
  {
  }

  /** With both inner mutexes free, nothing queued and nobody counted, wait runs through. */
  lemma WaitToPass(s: Pool, j: nat) returns (acts: seq<Action>)
    requires j < |s.c| && s.c[j] == WaitWant && s.queue == [] && s.active == 0
    requires s.locks.queue.None? && s.locks.active.None?
    ensures Legal(s, acts) && Quiet(acts)
    ensures var s' := Exec(s, acts);
            && s' == s.(c := s'.c, locks := s.locks) && |s'.c| == |s.c| && s'.c[j] == WaitWantQueue
  {
    var a := ClientStep(j, {}, false);
    var s1 := Next(s, a);
    assert s1 == s.(c := s.c[j := WaitTest], locks := s.locks.(active := Some(C(j))));
    var s2 := Next(s1, a);
    assert s2 == s1.(c := s1.c[j := WaitSize]);
    var s3 := Next(s2, a);
    assert s3 == s2.(c := s2.c[j := WaitPass]);
    var s4 := Next(s3, a);
    assert s4 == s3.(c := s3.c[j := WaitWantQueue], locks := s.locks);
    LegalCons(s3, a, []);
    LegalCons(s2, a, [a] + []);
    LegalCons(s1, a, [a] + ([a] + []));
    LegalCons(s, a, [a] + ([a] + ([a] + [])));
    acts := [a] + ([a] + ([a] + ([a] + [])));
  }

  lemma PassToReturn(s: Pool, j: nat) returns (acts: seq<Action>)
    requires j < |s.c| && s.c[j] == WaitWantQueue && s.queue == [] && s.locks.queue.None?
    ensures Legal(s, acts) && Quiet(acts)
    ensures var s' := Exec(s, acts); Returning(s', j) && s'.w == s.w && s'.h == s.h && s'.queue == []
  {
    var a := ClientStep(j, {}, false);
    var s1 := Next(s, a);
    assert s1 == s.(c := s.c[j := WaitCheck], locks := s.locks.(queue := Some(C(j))));
    var s2 := Next(s1, a);
    assert s2 == s1.(c := s1.c[j := WaitUnlock(true)]);
    LegalCons(s1, a, []);
    LegalCons(s, a, [a] + []);
    acts := [a] + ([a] + []);
  }

  /** From a settled state wait returns, past whatever workers are paused before their
      increment. */
  lemma ReturnPast(s: Pool, j: nat, keep: set<nat>) returns (acts: seq<Action>)
    requires Inv(s) && j < |s.c| && s.c[j] == WaitWant && s.queue == [] && Paused(s, keep) && Settled(s, keep)
    ensures Legal(s, acts) && Quiet(acts)
    ensures var s' := Exec(s, acts); Returning(s', j) && s'.w == s.w && s'.h == s.h
  {
    SumBound(s.w, Counted, 0);
    var first := WaitToPass(s, j);
    var s1 := Exec(s, first);
    var rest := PassToReturn(s1, j);
    LegalConcat(s, first, rest);
    QuietConcat(first, rest);
    acts := first + rest;
  }

  /** A task in a hand has been pushed and has not finished. */
  lemma CarriedIsUnfinished(s: Pool, i: nat)
    requires Inv(s) && i < |s.w| && Carries(s.w[i]).Some?
    ensures Carries(s.w[i]).value in s.h.pushed && Carries(s.w[i]).value !in s.h.finished
  {
    var t := Carries(s.w[i]).value;
    HandsUpdate(s.w, i, s.w[i]);
    assert t in Hand(s.w[i]);
    ExactlyOnce(s, t);
  }

  /** If anything is loose, plain steps lead to a state with nothing queued and a worker
      before its increment. */
  lemma LooseToPaused(s: Pool) returns (acts: seq<Action>, f: nat)
    requires Inv(s) && Open(s) && |s.w| > 0 && !NothingLoose(s)
    ensures Legal(s, acts) && Quiet(acts)
    ensures var s' := Exec(s, acts);
            Inv(s') && Follows(s, s') && s'.queue == [] && f < |s'.w| && s'.w[f].WantInc?
  {
    var drain := [];
    if s.queue != [] {
      drain, f := DrainToLast(s);
    } else {
      f :| 0 <= f < |s.w| && InWindow(s.w[f]);
    }
    var s1 := Exec(s, drain);
    var rest := BringToInc(s1, f);
    FollowsOn(s, s1, Exec(s1, rest));
    LegalConcat(s, drain, rest);
    QuietConcat(drain, rest);
    acts := drain + rest;
  }

  /** From there, plain steps lead to a return with that worker's task unfinished. */
  lemma PausedToReturn(s: Pool, j: nat, f: nat) returns (acts: seq<Action>)
    requires Inv(s) && Open(s) && j < |s.c| && s.c[j] == WaitWant && s.queue == []
    requires f < |s.w| && s.w[f].WantInc?
    ensures Legal(s, acts) && Quiet(acts) && Returning(Exec(s, acts), j)
    ensures s.w[f].t in s.h.pushed && s.w[f].t !in Exec(s, acts).h.finished
  {
    CarriedIsUnfinished(s, f);
    var settle := Settle(s, {f});
    var s1 := Exec(s, settle);
    CarriedIsUnfinished(s1, f);
    var rest := ReturnPast(s1, j, {f});
    LegalConcat(s, settle, rest);
    QuietConcat(settle, rest);
    acts := settle + rest;
  }

  /** As long as destroy has not been called: if anything is loose when wait is called, plain
      steps lead to a return with a task unfinished that was pushed before the call. */
  lemma EarlyReturnRun(s: Pool, j: nat) returns (acts: seq<Action>, t: Task)
    requires Inv(s) && Open(s) && |s.w| > 0 && j < |s.c| && s.c[j] == WaitWant && !NothingLoose(s)
    ensures Legal(s, acts) && Quiet(acts) && Returning(Exec(s, acts), j)
    ensures t in s.h.pushed && t !in Exec(s, acts).h.finished
  {
    var first, f := LooseToPaused(s);
    var s1 := Exec(s, first);
    t := s1.w[f].t;
    var rest := PausedToReturn(s1, j, f);
    LegalConcat(s, first, rest);
    QuietConcat(first, rest);
    acts := first + rest;
  }

  /** Every return that this call may come to finds all tasks finished that were pushed
      before it. */
  ghost predicate PromiseKept(s: Pool, j: nat) {
    forall acts, t :: Legal(s, acts) && Returning(Exec(s, acts), j) && t in s.h.pushed ==>
      t in Exec(s, acts).h.finished
  }

  /** Exactly when wait keeps its documented promise: at the call nothing is queued and no
      worker is between a pop and the increment that counts it. */
  lemma WaitPromiseExact(s: Pool, j: nat)
    requires Inv(s) && Open(s) && |s.w| > 0 && j < |s.c| && s.c[j] == WaitWant
    ensures PromiseKept(s, j) <==> NothingLoose(s)
  {
    if NothingLoose(s) {
      forall acts, t | Legal(s, acts) && Returning(Exec(s, acts), j) && t in s.h.pushed
        ensures t in Exec(s, acts).h.finished
      {
        PushedIsSafe(s, j, t);
        SafeAtCallFinished(s, j, acts, t);
      }
    } else {
      var acts, t := EarlyReturnRun(s, j);
      assert Legal(s, acts) && Returning(Exec(s, acts), j) && t in s.h.pushed;
    }
  }

  // ---------------------------------------------------------------------------
  // Whether wait returns at all
  // ---------------------------------------------------------------------------

  /** Until destroy is called no call of wait is a dead end: plain steps lead to a return. */
  lemma WaitCanReturn(s: Pool, j: nat) returns (acts: seq<Action>)
    requires Inv(s) && Open(s) && |s.w| > 0 && j < |s.c| && s.c[j] == WaitWant
    ensures Legal(s, acts) && Quiet(acts) && Returning(Exec(s, acts), j)
  {
    var drain, f := [], 0;
    if s.queue != [] {
      drain, f := DrainToLast(s);
    }
    var s1 := Exec(s, drain);
    var rest := RestAndReturn(s1, j);
    LegalConcat(s, drain, rest);
    QuietConcat(drain, rest);
    acts := drain + rest;
  }

  lemma RestAndReturn(s: Pool, j: nat) returns (acts: seq<Action>)
    requires Inv(s) && Open(s) && j < |s.c| && s.c[j] == WaitWant && s.queue == []
    ensures Legal(s, acts) && Quiet(acts) && Returning(Exec(s, acts), j)
  {
    var settle := Settle(s, {});
    var s1 := Exec(s, settle);
    var rest := ReturnPast(s1, j, {});
    LegalConcat(s, settle, rest);
    QuietConcat(settle, rest);
    acts := settle + rest;
  }

  ghost predicate InWait(pc: ClientPc) {
    || BeforeTest(pc) || SawNone(pc)
    || pc.WaitWantQueue? || pc.WaitCheck? || pc.WaitUnlock?
  }

  /** Under the flag, with work left, and in wait without having found the queue empty. */
  ghost predicate Stuck(s: Pool, j: nat) {
    s.shutdown && s.queue != [] && j < |s.c| && InWait(s.c[j]) && s.c[j] != WaitUnlock(true)
  }

  lemma StuckWaits(s: Pool, j: nat, wake: set<nat>, ok: bool)
    requires ClientEnabled(s, j, wake) && InWait(s.c[j]) && s.c[j] != WaitUnlock(true) && s.queue != []
    ensures InWait(ClientNext(s, j, wake, ok).c[j]) && ClientNext(s, j, wake, ok).c[j] != WaitUnlock(true)
  {
  }

  /** No step of any thread lets go of a stuck caller: nobody pops any more, and the final
      discard waits until no other thread is inside the pool. */
  lemma StuckStep(s: Pool, a: Action, j: nat)
    requires Stuck(s, j) && Enabled(s, a)
    ensures Stuck(Next(s, a), j)
  {
    match a {
      case WorkerStep(i, wake) =>
        WorkerMovesFlag(s, i, wake);
        if s.w[i].Body? {
          WorkerFinishes(s, i, wake);
        } else {
          WorkerCarries(s, i, wake);
        }
      case ClientStep(k, wake, ok) =>
        ClientMovesPcs(s, k, wake, ok);
        ClientMovesTask(s, k, wake, ok);
        ClientMovesFlag(s, k, wake, ok);
        if k == j {
          StuckWaits(s, j, wake, ok);
        } else {
          assert Discards(s, s.c[k]) ==> OthersIdle(s.c, k);
        }
      case ClientCall(k, call) =>
        CallMoves(s, k, call);
      case _ =>
    }
  }

  lemma {:induction false} StuckForEver(s: Pool, acts: seq<Action>, j: nat)
    requires Stuck(s, j) && Legal(s, acts)
    ensures Stuck(Exec(s, acts), j) && !Returning(Exec(s, acts), j)
    decreases |acts|
  {
    if acts != [] {
      StuckStep(s, acts[0], j);
      StuckForEver(Next(s, acts[0]), acts[1..], j);
    }
  }

  /** Under the flag with an empty queue, plain steps lead to a return. */
  lemma ReturnUnderFlag(s: Pool, j: nat) returns (acts: seq<Action>)
    requires Inv(s) && s.shutdown && s.queue == [] && j < |s.c| && s.c[j] == WaitWant
    ensures Legal(s, acts) && Quiet(acts) && Returning(Exec(s, acts), j)
  {
    var exit := WorkersExit(s);
    var s1 := Exec(s, exit);
    var free := InnerMutexesFreed(s1);
    var s2 := Exec(s1, free);
    FollowsOn(s, s1, s2);
    ExitedIsQuiet(s2);
    var pass := WaitToPass(s2, j);
    var s3 := Exec(s2, pass);
    var rest := PassToReturn(s3, j);
    LegalConcat(s2, pass, rest);
    QuietConcat(pass, rest);
    LegalConcat(s1, free, pass + rest);
    QuietConcat(free, pass + rest);
    LegalConcat(s, exit, free + (pass + rest));
    QuietConcat(exit, free + (pass + rest));
    acts := exit + (free + (pass + rest));
  }

  ghost predicate CanReturn(s: Pool, j: nat) {
    exists acts :: Legal(s, acts) && Returning(Exec(s, acts), j)
  }

  /** Exactly when a call of wait can return once the flag is set: nothing is left in the
      queue. Otherwise no run whatever returns from it. */
  lemma WaitReturnsUnderFlagExactly(s: Pool, j: nat)
    requires Inv(s) && s.shutdown && j < |s.c| && s.c[j] == WaitWant
    ensures CanReturn(s, j) <==> s.queue == []
  {
    if s.queue == [] {
      var acts := ReturnUnderFlag(s, j);
      assert Legal(s, acts) && Returning(Exec(s, acts), j);
    } else {
      forall acts | Legal(s, acts) ensures !Returning(Exec(s, acts), j) {
        StuckForEver(s, acts, j);
      }
    }
  }

  // ---------------------------------------------------------------------------
  // Waiting without sleeping
  // ---------------------------------------------------------------------------

  ghost predicate StepsOf(acts: seq<Action>, j: nat) {
    forall k :: 0 <= k < |acts| ==> acts[k] == ClientStep(j, {}, false)
  }

  /** It finds nobody counted, and the queue not empty. */
  lemma SpinToRetry(s: Pool, j: nat)
    requires j < |s.c| && s.c[j] == WaitTest && s.queue != [] && s.active <= 0
    ensures var a := ClientStep(j, {}, false);
            Legal(s, [a] + ([a] + [])) && Exec(s, [a] + ([a] + [])) == s.(c := s.c[j := WaitRetry])
  {
    var a := ClientStep(j, {}, false);
    var s1 := Next(s, a);
    assert s1 == s.(c := s.c[j := WaitSize]);
    assert Next(s1, a) == s1.(c := s1.c[j := WaitRetry]);
    LegalCons(s1, a, []);
    LegalCons(s, a, [a] + []);
  }

  /** With work queued, nobody counted and the active mutex free, four steps of the waiter
      alone lead from its call back to the same state of the whole pool. */
  lemma SpinOnce(s: Pool, j: nat)
    requires j < |s.c| && s.c[j] == WaitWant && s.queue != [] && s.active <= 0 && s.locks.active.None?
    ensures var a := ClientStep(j, {}, false);
            Legal(s, [a, a, a, a]) && Exec(s, [a, a, a, a]) == s
  {
    var a := ClientStep(j, {}, false);
    var s1 := Next(s, a);
    assert s1 == s.(c := s.c[j := WaitTest], locks := s.locks.(active := Some(C(j))));
    SpinToRetry(s1, j);
    var s3 := s1.(c := s1.c[j := WaitRetry]);
    assert Next(s3, a) == s by {
      assert s3.c[j := WaitWant] == s.c;
    }
    LegalCons(s3, a, []);
    LegalConcat(s1, [a] + ([a] + []), [a] + []);
    LegalCons(s, a, [a] + ([a] + []) + ([a] + []));
    assert [a] + ([a] + ([a] + []) + ([a] + [])) == [a, a, a, a];
  }

  /** So for any number of rounds it can test again and again without sleeping, although
      there is work for the workers. */
  lemma {:induction false} WaitSpins(s: Pool, j: nat, rounds: nat) returns (acts: seq<Action>)
    requires j < |s.c| && s.c[j] == WaitWant && s.queue != [] && s.active <= 0 && s.locks.active.None?
    ensures Legal(s, acts) && StepsOf(acts, j) && |acts| == 4 * rounds && Exec(s, acts) == s
    decreases rounds
  {
    if rounds == 0 {
      acts := [];
    } else {
      var a := ClientStep(j, {}, false);
      var rest := WaitSpins(s, j, rounds - 1);
      SpinOnce(s, j);
      LegalConcat(s, [a, a, a, a], rest);
      acts := [a, a, a, a] + rest;
    }
  }
}
