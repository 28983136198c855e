/** Runs in which wait returns too early, and in which it can never return. */
module WaitEarly {
  import opened Prelude
  import opened ThreadPool
  import Schedules
  import WaitReturn

  /** What a step reaches from a reachable state is reachable. */
  lemma Reach(s: Pool, a: Action, workers: nat, clients: nat) returns (r: Pool)
    requires Reachable(s, workers, clients) && Enabled(s, a)
    ensures r == Next(s, a) && Reachable(r, workers, clients)
  {
    var acts :| Legal(Init(workers, clients), acts) && Exec(Init(workers, clients), acts) == s;
    r := Next(s, a);
    Schedules.LegalCons(s, a, []);
    Schedules.LegalConcat(Init(workers, clients), acts, [a] + []);
  }

  lemma AtStart(workers: nat, clients: nat) returns (s: Pool)
    ensures s == Init(workers, clients) && Reachable(s, workers, clients)
  {
    s := Init(workers, clients);
    assert Legal(s, []) && Exec(s, []) == s;
  }

  const FIRST_TASK := Task(0, IoRead, 7)

  /** One worker, one client, nobody counted. */
  ghost function At(w: WorkerPc, c: ClientPc, q: Option<Tid>, a: Option<Tid>, queue: seq<Task>,
                    pushed: seq<Task>, popped: seq<Task>): Pool {
    Pool([w], [c], Locks(q, a, map[]), queue, 0, false, false, History(pushed, popped, [], []))
  }

  /** The client calls submit and pushes its only task. */
  lemma Pushed() returns (s: Pool)
    ensures Reachable(s, 1, 1) && s == At(WantQueue, SubSignal(None), Some(C(0)), None, [FIRST_TASK], [FIRST_TASK], [])
  {
    var mine := ClientStep(0, {}, true);
    s := AtStart(1, 1);
    assert s == At(WantQueue, Idle(None), None, None, [], [], []);
    s := Reach(s, ClientCall(0, Submit(IoRead, 7)), 1, 1);
    s := Reach(s, mine, 1, 1);
    s := Reach(s, mine, 1, 1);
  }

  /** Submit signals, with nobody asleep, and returns. */
  lemma Submitted() returns (s: Pool)
    ensures Reachable(s, 1, 1) && s == At(WantQueue, Idle(None), None, None, [FIRST_TASK], [FIRST_TASK], [])
  {
    var mine := ClientStep(0, {}, true);
    s := Pushed();
    s := Reach(s, mine, 1, 1);
    assert s == At(WantQueue, SubUnlock(None, true), Some(C(0)), None, [FIRST_TASK], [FIRST_TASK], []);
    s := Reach(s, mine, 1, 1);
  }

  /** The worker pops it. */
  lemma Taken() returns (s: Pool)
    ensures Reachable(s, 1, 1) && s == At(Relay(FIRST_TASK), Idle(None), Some(W(0)), None, [], [FIRST_TASK], [FIRST_TASK])
  {
    var worker := WorkerStep(0, {});
    s := Submitted();
    s := Reach(s, worker, 1, 1);
    s := Reach(s, worker, 1, 1);
  }

  /** It is stopped before it counts itself. */
  lemma Popped() returns (s: Pool)
    ensures Reachable(s, 1, 1) && s == At(WantInc(FIRST_TASK), Idle(None), None, None, [], [FIRST_TASK], [FIRST_TASK])
  {
    var worker := WorkerStep(0, {});
    s := Taken();
    s := Reach(s, worker, 1, 1);
    s := Reach(s, worker, 1, 1);
  }

  /** The client calls wait and finds nobody counted. */
  lemma NobodyCounted() returns (s: Pool)
    ensures Reachable(s, 1, 1) && s == At(WantInc(FIRST_TASK), WaitSize, None, Some(C(0)), [], [FIRST_TASK], [FIRST_TASK])
  {
    var mine := ClientStep(0, {}, true);
    s := Popped();
    s := Reach(s, ClientCall(0, Wait), 1, 1);
    s := Reach(s, mine, 1, 1);
    assert s == At(WantInc(FIRST_TASK), WaitTest, None, Some(C(0)), [], [FIRST_TASK], [FIRST_TASK]);
    s := Reach(s, mine, 1, 1);
  }

  lemma SizeTested() returns (s: Pool)
    ensures Reachable(s, 1, 1) && s == At(WantInc(FIRST_TASK), WaitPass, None, Some(C(0)), [], [FIRST_TASK], [FIRST_TASK])
  {
    s := NobodyCounted();
    s := Reach(s, ClientStep(0, {}, true), 1, 1);
  }

  /** It passes the size, lets go of the active mutex, and takes the queue mutex. */
  lemma Passed() returns (s: Pool)
    ensures Reachable(s, 1, 1) && s == At(WantInc(FIRST_TASK), WaitCheck, Some(C(0)), None, [], [FIRST_TASK], [FIRST_TASK])
  {
    var mine := ClientStep(0, {}, true);
    s := SizeTested();
    s := Reach(s, mine, 1, 1);
    s := Reach(s, mine, 1, 1);
  }

  /** Wait's documented promise fails: it is about to report success, yet the task that was
      submitted before the call has not run. */
  lemma WaitCanReturnEarly() returns (s: Pool)
    ensures Reachable(s, 1, 1) && s.c == [WaitUnlock(true)]
    ensures s.h.pushed == [FIRST_TASK] && s.h.finished == []
  {
    s := Passed();
    s := Reach(s, ClientStep(0, {}, true), 1, 1);
  }

  // ---------------------------------------------------------------------------
  // Destroyed under a waiter
  // ---------------------------------------------------------------------------

  /** One worker that has not moved and two clients. */
  ghost function Two(c: ClientPc, d: ClientPc, q: Option<Tid>, shutdown: bool, closing: bool, queue: seq<Task>): Pool {
    Pool([WantQueue], [c, d], Locks(q, None, map[]), queue, 0, shutdown, closing, History(queue, [], [], []))
  }

  /** The first client submits a task. */
  lemma PushedByFirst() returns (s: Pool)
    ensures Reachable(s, 1, 2)
    ensures s == Two(SubSignal(None), Idle(None), Some(C(0)), false, false, [FIRST_TASK])
  {
    var mine := ClientStep(0, {}, true);
    s := AtStart(1, 2);
    assert s == Two(Idle(None), Idle(None), None, false, false, []);
    s := Reach(s, ClientCall(0, Submit(IoRead, 7)), 1, 2);
    s := Reach(s, mine, 1, 2);
    s := Reach(s, mine, 1, 2);
  }

  lemma SubmittedByFirst() returns (s: Pool)
    ensures Reachable(s, 1, 2) && s == Two(Idle(None), Idle(None), None, false, false, [FIRST_TASK])
  {
    var mine := ClientStep(0, {}, true);
    s := PushedByFirst();
    s := Reach(s, mine, 1, 2);
    assert s == Two(SubUnlock(None, true), Idle(None), Some(C(0)), false, false, [FIRST_TASK]);
    s := Reach(s, mine, 1, 2);
  }

  /** It calls wait, and the other calls destroy. */
  lemma BothCalled() returns (s: Pool)
    ensures Reachable(s, 1, 2) && s == Two(WaitWant, StopWant, None, false, true, [FIRST_TASK])
  {
    s := SubmittedByFirst();
    s := Reach(s, ClientCall(0, Wait), 1, 2);
    s := Reach(s, ClientCall(1, Destroy), 1, 2);
  }

  /** Destroy sets the flag before the worker has popped the task. */
  lemma FlagSet() returns (s: Pool)
    ensures Reachable(s, 1, 2) && s == Two(WaitWant, StopBroadcast, Some(C(1)), true, true, [FIRST_TASK])
  {
    var other := ClientStep(1, {}, true);
    s := BothCalled();
    s := Reach(s, other, 1, 2);
    assert s == Two(WaitWant, StopSet, Some(C(1)), false, true, [FIRST_TASK]);
    s := Reach(s, other, 1, 2);
  }

  /** So a caller of wait can come to a state from which no run whatever returns it. */
  lemma WaitCanWaitForEver() returns (s: Pool)
    ensures Reachable(s, 1, 2) && |s.c| == 2 && s.c[0] == WaitWant && s.h.pushed == [FIRST_TASK] && s.shutdown
    ensures !WaitReturn.CanReturn(s, 0)
  {
    s := FlagSet();
    forall acts | Legal(s, acts) ensures !WaitReturn.Returning(Exec(s, acts), 0) {
      WaitReturn.StuckForEver(s, acts, 0);
    }
  }
}
