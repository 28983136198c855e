/** The invariant of the steady loop: references, liveness of contexts, the sweep's snapshot. */
module ServerInvariant {
  import opened Prelude
  import opened ThreadPool
  import opened PoolInvariant
  import opened Server

  // ---------------------------------------------------------------------------
  // Counting the tasks that name a context
  // ---------------------------------------------------------------------------

  ghost function Names(x: nat): Task -> nat {
    (t: Task) => if t.ctx == x then 1 else 0
  }

  ghost function CarriesFor(x: nat): WorkerPc -> nat {
    (pc: WorkerPc) => if Carries(pc).Some? && Carries(pc).value.ctx == x then 1 else 0
  }

  /** Queued or popped tasks that name x and have not yet lowered its count. */
  ghost function Outstanding(p: Pool, x: nat): nat {
    Sum(p.queue, Names(x)) + Sum(p.w, CarriesFor(x))
  }

  /** One while the main thread has raised x's count for a task not yet pushed. */
  ghost function Reserved(s: Server, x: nat): nat {
    match s.main
    case IoReserved(_, y, _) => if y == x then 1 else 0
    case IoSubmit(_, y, _) =>
      if y == x && |s.pool.c| == 1 && (s.pool.c[0].SubWant? || s.pool.c[0].SubPush?) then 1 else 0
    case _ => 0
  }

  // ---------------------------------------------------------------------------
  // The invariant
  // ---------------------------------------------------------------------------

  /** The main thread's place in its loop fixes where it is in the pool. */
  ghost predicate SyncInv(s: Server) {
    && |s.pool.c| == 1
    && match s.main
       case SweepWant(_, x) => s.pool.c[0] == WantCtx(x)
       case SweepRead(_, x) => s.pool.c[0] == Idle(Some(x))
       case SweepRelease(_, x, _, _) => s.pool.c[0] == Idle(Some(x))
       case HupWant(_, x) => s.pool.c[0] == WantCtx(x)
       case HupHold(_, x) => s.pool.c[0] == Idle(Some(x))
       case HupRelease(_, x) => s.pool.c[0] == Idle(Some(x))
       case IoWant(_, x, _) => s.pool.c[0] == WantCtx(x)
       case IoHold(_, x, _) => s.pool.c[0] == Idle(Some(x))
       case IoReserved(_, x, _) => s.pool.c[0] == Idle(Some(x))
       case IoRelease(_, x, _, _) => s.pool.c[0] == Idle(Some(x))
       case IoSubmit(_, x, fn) =>
         || s.pool.c[0] == SubWant(Some(x), fn, x)
         || s.pool.c[0] == SubPush(Some(x), fn, x)
         || s.pool.c[0] == SubSignal(Some(x))
         || s.pool.c[0] == SubUnlock(Some(x), true)
         || s.pool.c[0] == SubUnlock(Some(x), false)
       case _ => s.pool.c[0] == Idle(None)
  }

  /** The slot and context the main thread is working on, if any. */
  ghost function Current(pc: MainPc): Option<(nat, nat)> {
    match pc
    case SweepWant(k, x) => Some((k, x))
    case SweepRead(k, x) => Some((k, x))
    case SweepRelease(k, x, _, _) => Some((k, x))
    case SweepAct(k, x, _, _) => Some((k, x))
    case HupWant(k, x) => Some((k, x))
    case HupHold(k, x) => Some((k, x))
    case HupRelease(k, x) => Some((k, x))
    case IoWant(k, x, _) => Some((k, x))
    case IoHold(k, x, _) => Some((k, x))
    case IoReserved(k, x, _) => Some((k, x))
    case IoSubmit(k, x, _) => Some((k, x))
    case IoRelease(k, x, _, _) => Some((k, x))
    case _ => None
  }

  ghost predicate Dispatching(pc: MainPc) {
    pc.Dispatch? || pc.Accept? || pc.HupTest? || pc.HupWant? || pc.HupHold? || pc.HupRelease? || pc.OutTest?
    || pc.IoWant? || pc.IoHold? || pc.IoReserved? || pc.IoSubmit? || pc.IoRelease?
  }

  ghost predicate CurrentInv(s: Server) {
    && (Current(s.main).Some? ==>
          var (k, x) := Current(s.main).value; k < |s.table| && s.table[k] == Conn(x))
    && (Dispatching(s.main) ==> |s.ready| == |s.table|)
    && (s.main.Accept? || s.main.HupTest? || s.main.OutTest? ==> s.main.k < |s.table|)
  }

  /** Each live context is in exactly one slot, in the table or pending; dead ones in none. */
  ghost predicate SlotInv(s: Server) {
    && (forall x: nat :: (multiset(s.table) + multiset(s.pending))[Conn(x)] == if x in s.ctxs then 1 else 0)
    && (forall x: nat :: x in s.ctxs ==> x < s.nextId)
  }

  /** The reference count is exact, up to references leaked by failed submits. */
  ghost predicate RefInv(s: Server) {
    forall x: nat :: x in s.ctxs ==>
      s.ctxs[x].refs == Outstanding(s.pool, x) + Reserved(s, x) + s.ctxs[x].leaked
  }

  /** Every queued or popped task names a live context. */
  ghost predicate LiveInv(s: Server) {
    forall x: nat :: Outstanding(s.pool, x) > 0 ==> x in s.ctxs
  }

  ghost predicate SnapshotHolds(s: Server, x: nat, refs: int, state: ConnState) {
    && x in s.ctxs
    && (refs == 0 ==> s.ctxs[x].refs == 0)
    && (state == PendingClose ==> s.ctxs[x].state == PendingClose)
  }

  /** A snapshot of (PendingClose, 0) stays true although the mutex is released. */
  ghost predicate SnapshotInv(s: Server) {
    match s.main
    case SweepRelease(_, x, refs, state) => SnapshotHolds(s, x, refs, state)
    case SweepAct(_, x, refs, state) => SnapshotHolds(s, x, refs, state)
    case _ => true
  }

  /** How far the sweep has come; only slots behind it may be empty. */
  ghost function Swept(s: Server): nat {
    match s.main
    case Sweep(k) => k
    case SweepWant(k, _) => k
    case SweepRead(k, _) => k
    case SweepRelease(k, _, _, _) => k
    case SweepAct(k, _, _, _) => k
    case Update => |s.table|
    case Stopped => |s.table|
    case _ => 0
  }

  ghost predicate DenseInv(s: Server) {
    && (forall i :: Swept(s) <= i < |s.table| ==> !s.table[i].Empty?)
    && (forall i :: 0 <= i < |s.pending| ==> !s.pending[i].Empty?)
  }

  ghost predicate CapInv(s: Server) {
    |s.table| + |s.pending| <= MAX_CONNECTIONS + 1
  }

  ghost predicate ServerInv(s: Server) {
    && Inv(s.pool)
    && SyncInv(s)
    && CurrentInv(s)
    && SlotInv(s)
    && RefInv(s)
    && LiveInv(s)
    && SnapshotInv(s)
    && DenseInv(s)
    && CapInv(s)
  }

  // ---------------------------------------------------------------------------
  // How pool steps change the outstanding tasks
  // ---------------------------------------------------------------------------

  lemma CarriesStep(w: seq<WorkerPc>, v: seq<WorkerPc>, i: nat, x: nat)
    requires i < |w| == |v|
    requires forall k :: 0 <= k < |w| && k != i ==> v[k] == w[k] || (w[k].Asleep? && v[k].Woken?)
    ensures Sum(v, CarriesFor(x)) == Sum(w, CarriesFor(x)) - CarriesFor(x)(w[i]) + CarriesFor(x)(v[i])
  {
    var u := w[i := v[i]];
    SumUpdate(w, i, v[i], CarriesFor(x));
    SumMonotone(u, v, CarriesFor(x));
    SumMonotone(v, u, CarriesFor(x));
  }

  /** Waking sleepers changes no outstanding count. */
  lemma CarriesSame(w: seq<WorkerPc>, v: seq<WorkerPc>, x: nat)
    requires |w| == |v|
    requires forall k :: 0 <= k < |w| ==> v[k] == w[k] || (w[k].Asleep? && v[k].Woken?)
    ensures Sum(v, CarriesFor(x)) == Sum(w, CarriesFor(x))
  {
    SumMonotone(w, v, CarriesFor(x));
    SumMonotone(v, w, CarriesFor(x));
  }

  /** A worker step lowers the outstanding count of x by one if it runs a body on x, and
      otherwise leaves it. */
  lemma WorkerOutstanding(p: Pool, a: Action, x: nat)
    requires IsWorkerAction(a) && Enabled(p, a)
    ensures var p' := Next(p, a);
            Outstanding(p, x) == Outstanding(p', x) + if RunsBody(p, a) && p.w[a.i].t.ctx == x then 1 else 0
  {
    var p' := Next(p, a);
    if a.WorkerStep? {
      var i := a.i;
      WorkerMovesPcs(p, i, a.wake);
      CarriesStep(p.w, p'.w, i, x);
      if Takes(p, p.w[i]) {
        WorkerTakes(p, i, a.wake);
        SumHead(p.queue, Names(x));
      } else if p.w[i].Body? {
        WorkerFinishes(p, i, a.wake);
      } else {
        WorkerCarries(p, i, a.wake);
      }
    } else {
      CarriesSame(p.w, p'.w, x);
    }
  }

  lemma {:induction false} SumHead<T>(s: seq<T>, f: T -> nat)
    requires s != []
    ensures Sum(s, f) == f(s[0]) + Sum(s[1..], f)
  {
    assert s == [s[0]] + s[1..];
    SumAppend([s[0]], s[1..], f);
    assert [s[0]][..0] == [];
  }

  /** A step inside submit raises the outstanding count of x by one exactly when it pushes
      a task for x. */
  lemma ClientOutstanding(p: Pool, wake: set<nat>, ok: bool, x: nat)
    requires ClientEnabled(p, 0, wake) && !p.c[0].Join?
    ensures var p' := ClientNext(p, 0, wake, ok);
            Outstanding(p', x) == Outstanding(p, x) + if Pushes(p.c[0], ok) && p.c[0].x == x then 1 else 0
  {
    var p' := ClientNext(p, 0, wake, ok);
    ClientMovesPcs(p, 0, wake, ok);
    ClientMovesTask(p, 0, wake, ok);
    CarriesSame(p.w, p'.w, x);
    if Pushes(p.c[0], ok) {
      var t := Task(|p.h.pushed|, p.c[0].fn, p.c[0].x);
      SumAppend(p.queue, [t], Names(x));
      assert [t][..0] == [];
    }
  }

  /** A worker that carries a task for x keeps x outstanding. */
  lemma CarriedIsOutstanding(p: Pool, i: nat)
    requires i < |p.w| && Carries(p.w[i]).Some?
    ensures Outstanding(p, Carries(p.w[i]).value.ctx) > 0
  {
    SumAtLeast(p.w, i, CarriesFor(Carries(p.w[i]).value.ctx));
  }

  // ---------------------------------------------------------------------------
  // Worker events
  // ---------------------------------------------------------------------------

  lemma WorkerLeavesClient(p: Pool, a: Action)
    requires IsWorkerAction(a) && Enabled(p, a)
    requires |p.c| == 1 && !p.c[0].WaitAsleep?
    ensures Next(p, a).c == p.c
  {
    if a.WorkerStep? {
      WorkerMovesFlag(p, a.i, a.wake);
    }
  }

  /** A worker event moves a context's count with the outstanding tasks that name it. */
  lemma WorkerEventMovesRefs(s: Server, a: Action, after: ConnState, x: nat)
    requires SyncInv(s) && WorkerEventEnabled(s, a, after)
    ensures var s' := WorkerEvent(s, a, after);
            && Outstanding(s'.pool, x) <= Outstanding(s.pool, x) && Reserved(s', x) == Reserved(s, x)
            && (x in s.ctxs <==> x in s'.ctxs)
            && (x in s.ctxs ==>
                  s'.ctxs[x].refs - s'.ctxs[x].leaked - Outstanding(s'.pool, x)
                    == s.ctxs[x].refs - s.ctxs[x].leaked - Outstanding(s.pool, x))
  {
    WorkerLeavesClient(s.pool, a);
    WorkerOutstanding(s.pool, a, x);
  }

  lemma WorkerEventKeepsRefs(s: Server, a: Action, after: ConnState)
    requires SyncInv(s) && RefInv(s) && LiveInv(s) && WorkerEventEnabled(s, a, after)
    ensures RefInv(WorkerEvent(s, a, after)) && LiveInv(WorkerEvent(s, a, after))
  {
    var s' := WorkerEvent(s, a, after);
    forall x: nat
      ensures x in s'.ctxs ==> s'.ctxs[x].refs == Outstanding(s'.pool, x) + Reserved(s', x) + s'.ctxs[x].leaked
      ensures Outstanding(s'.pool, x) > 0 ==> x in s'.ctxs
    {
      WorkerEventMovesRefs(s, a, after, x);
    }
  }

  lemma WorkerEventFrame(s: Server, a: Action, after: ConnState)
    requires WorkerEventEnabled(s, a, after)
    ensures var s' := WorkerEvent(s, a, after);
            && s' == s.(pool := Next(s.pool, a), ctxs := s'.ctxs)
            && s'.ctxs.Keys == s.ctxs.Keys
            && (forall x :: x in s.ctxs && !(RunsBody(s.pool, a) && s.pool.w[a.i].t.ctx == x) ==> s'.ctxs[x] == s.ctxs[x])
            && (forall x :: x in s.ctxs && s.ctxs[x].state == PendingClose ==> s'.ctxs[x].state == PendingClose)
  {
  }

  lemma WorkerEventKeepsSnapshot(s: Server, a: Action, after: ConnState, x: nat, refs: int, state: ConnState)
    requires RefInv(s) && WorkerEventEnabled(s, a, after) && SnapshotHolds(s, x, refs, state)
    ensures SnapshotHolds(WorkerEvent(s, a, after), x, refs, state)
  {
    WorkerEventFrame(s, a, after);
    if refs == 0 && RunsBody(s.pool, a) {
      CarriedIsOutstanding(s.pool, a.i);
    }
  }

  lemma WorkerEventKeepsSnapshotInv(s: Server, a: Action, after: ConnState)
    requires RefInv(s) && SnapshotInv(s) && WorkerEventEnabled(s, a, after)
    ensures SnapshotInv(WorkerEvent(s, a, after))
  {
    if s.main.SweepRelease? || s.main.SweepAct? {
      WorkerEventKeepsSnapshot(s, a, after, s.main.x, s.main.refs, s.main.state);
    }
  }

  /** What does not depend on program counters of workers or on counts. */
  lemma FrameKeeps(s: Server, s': Server)
    requires SyncInv(s) && CurrentInv(s) && SlotInv(s) && DenseInv(s) && CapInv(s)
    requires s' == s.(pool := s'.pool, ctxs := s'.ctxs)
    requires s'.pool.c == s.pool.c && s'.ctxs.Keys == s.ctxs.Keys
    ensures SyncInv(s') && CurrentInv(s') && SlotInv(s') && DenseInv(s') && CapInv(s')
  {
    assert forall x: nat :: x in s'.ctxs <==> x in s.ctxs;
  }

  lemma WorkerEventKeepsFrame(s: Server, a: Action, after: ConnState)
    requires SyncInv(s) && CurrentInv(s) && SlotInv(s) && DenseInv(s) && CapInv(s) && WorkerEventEnabled(s, a, after)
    ensures var s' := WorkerEvent(s, a, after);
            SyncInv(s') && CurrentInv(s') && SlotInv(s') && DenseInv(s') && CapInv(s')
  {
    WorkerLeavesClient(s.pool, a);
    WorkerEventFrame(s, a, after);
    FrameKeeps(s, WorkerEvent(s, a, after));
  }

  lemma WorkerEventKeepsPool(s: Server, a: Action, after: ConnState)
    requires Inv(s.pool) && WorkerEventEnabled(s, a, after)
    ensures Inv(WorkerEvent(s, a, after).pool)
  {
    StepKeepsInv(s.pool, a);
  }

  lemma WorkerEventKeepsInv(s: Server, a: Action, after: ConnState)
    requires ServerInv(s) && WorkerEventEnabled(s, a, after)
    ensures ServerInv(WorkerEvent(s, a, after))
  {
    WorkerEventKeepsPool(s, a, after);
    WorkerEventKeepsRefs(s, a, after);
    WorkerEventKeepsFrame(s, a, after);
    WorkerEventKeepsSnapshotInv(s, a, after);
  }

  // ---------------------------------------------------------------------------
  // Main steps
  // ---------------------------------------------------------------------------

  lemma {:induction false} NonEmptyKeeps(table: seq<Slot>, slot: Slot)
    requires !slot.Empty?
    ensures multiset(NonEmpty(table))[slot] == multiset(table)[slot]
    ensures |NonEmpty(table)| <= |table|
    ensures forall i :: 0 <= i < |NonEmpty(table)| ==> !NonEmpty(table)[i].Empty?
  {
    if table != [] {
      assert table == [table[0]] + table[1..];
      NonEmptyKeeps(table[1..], slot);
    }
  }

  /** The context the main thread is working on is live. */
  lemma CurrentIsLive(s: Server)
    requires CurrentInv(s) && SlotInv(s) && Current(s.main).Some?
    ensures Current(s.main).value.1 in s.ctxs
  {
    var (k, x) := Current(s.main).value;
    assert s.table[k] in multiset(s.table);
    assert (multiset(s.table) + multiset(s.pending))[Conn(x)] > 0;
  }

  lemma QuietKeepsSync(s: Server, c: Choice)
    requires SyncInv(s) && MainEnabled(s, c) && PoolPart(s, c).None?
    requires Current(s.main).Some? ==> Current(s.main).value.1 in s.ctxs
    ensures SyncInv(MainNext(s, c))
  {
  }

  lemma CallKeepsSync(s: Server, c: Choice)
    requires SyncInv(s) && MainEnabled(s, c) && PoolPart(s, c).Some? && PoolPart(s, c).value.ClientCall?
    ensures SyncInv(MainNext(s, c))
  {
  }

  lemma SubmitKeepsSync(s: Server, c: Choice)
    requires SyncInv(s) && MainEnabled(s, c) && s.main.IoSubmit?
    ensures SyncInv(MainNext(s, c))
  {
  }

  lemma StepKeepsSync(s: Server, c: Choice)
    requires SyncInv(s) && MainEnabled(s, c) && PoolPart(s, c).Some? && PoolPart(s, c).value.ClientStep?
    requires !s.main.IoSubmit?
    ensures SyncInv(MainNext(s, c))
  {
  }

  lemma MainKeepsSync(s: Server, c: Choice)
    requires SyncInv(s) && CurrentInv(s) && SlotInv(s) && MainEnabled(s, c)
    ensures SyncInv(MainNext(s, c))
  {
    if Current(s.main).Some? {
      CurrentIsLive(s);
    }
    if PoolPart(s, c).None? {
      QuietKeepsSync(s, c);
    } else if PoolPart(s, c).value.ClientCall? {
      CallKeepsSync(s, c);
    } else if s.main.IoSubmit? {
      SubmitKeepsSync(s, c);
    } else {
      StepKeepsSync(s, c);
    }
  }

  /** Outside the pool, a main step is its effect. */
  lemma MainNextIs(s: Server, c: Choice)
    requires MainEnabled(s, c)
    ensures MainNext(s, c) == MainEffect(s, c).(pool := MainNext(s, c).pool)
  {
  }

  lemma SweepKeepsCurrent(s: Server, c: Choice)
    requires CurrentInv(s) && |s.pool.c| == 1 && (s.main.Poll? ==> |c.ready| == |s.table|) && !Dispatching(s.main)
    ensures CurrentInv(MainEffect(s, c))
  {
  }

  lemma DispatchKeepsCurrent(s: Server, c: Choice)
    requires CurrentInv(s) && |s.pool.c| == 1 && Dispatching(s.main)
    ensures CurrentInv(MainEffect(s, c))
  {
  }

  lemma MainKeepsCurrent(s: Server, c: Choice)
    requires CurrentInv(s) && MainEnabled(s, c)
    ensures CurrentInv(MainNext(s, c))
  {
    if Dispatching(s.main) {
      DispatchKeepsCurrent(s, c);
    } else {
      SweepKeepsCurrent(s, c);
    }
    MainNextIs(s, c);
  }

  /** In a main step the outstanding count and the reservation of x move together. */
  lemma MainMovesTasks(s: Server, c: Choice, x: nat)
    requires SyncInv(s) && MainEnabled(s, c)
    ensures var p' := MainNext(s, c).pool;
            Outstanding(p', x) == Outstanding(s.pool, x) +
              if s.main.IoSubmit? && s.main.x == x && s.pool.c[0].SubPush? && c.ok then 1 else 0
  {
    var part := PoolPart(s, c);
    PoolPartKind(s, c);
    if part.None? {
    } else if part.value.ClientStep? {
      ClientOutstanding(s.pool, c.wake, c.ok, x);
    } else {
      CallMoves(s.pool, 0, part.value.call);
    }
  }

  /** The pool's part in a main step: nothing, the start of a call, or a step of the client
      that pushes only inside submit. */
  lemma PoolPartKind(s: Server, c: Choice)
    requires SyncInv(s) && MainEnabled(s, c)
    ensures var part, p' := PoolPart(s, c), MainNext(s, c).pool;
            if part.None? then p' == s.pool && !s.main.IoSubmit?
            else if part.value.ClientStep? then
              && part.value == ClientStep(0, c.wake, c.ok) && p' == ClientNext(s.pool, 0, c.wake, c.ok)
              && ClientEnabled(s.pool, 0, c.wake) && !s.pool.c[0].Join?
              && (s.pool.c[0].SubPush? ==> s.main.IoSubmit? && s.pool.c[0].x == s.main.x)
            else
              part.value.ClientCall? && part.value.j == 0 && CallEnabled(s.pool, 0, part.value.call)
              && p' == CallNext(s.pool, 0, part.value.call) && !s.main.IoSubmit?
  {
  }

  lemma SubmitMovesReserved(s: Server, c: Choice, x: nat)
    requires SyncInv(s) && MainEnabled(s, c) && s.main.IoSubmit?
    ensures Reserved(MainNext(s, c), x) == Reserved(s, x) - if s.pool.c[0].SubPush? && s.main.x == x then 1 else 0
  {
  }

  lemma SubmitMovesCtxs(s: Server, c: Choice)
    requires SyncInv(s) && MainEnabled(s, c) && s.main.IoSubmit?
    ensures MainNext(s, c).ctxs == if s.pool.c[0].SubPush? && !c.ok then Mark(s, s.main.x, Leak).ctxs else s.ctxs
  {
  }

  /** A step of submit hands the reservation over to the queue, or leaks it. */
  lemma SubmitMovesRefs(s: Server, c: Choice, x: nat)
    requires SyncInv(s) && MainEnabled(s, c) && s.main.IoSubmit? && x in s.ctxs
    ensures var s' := MainNext(s, c);
            && x in s'.ctxs
            && s'.ctxs[x].refs - s'.ctxs[x].leaked - Outstanding(s'.pool, x) - Reserved(s', x)
                == s.ctxs[x].refs - s.ctxs[x].leaked - Outstanding(s.pool, x) - Reserved(s, x)
  {
    MainMovesTasks(s, c, x);
    SubmitMovesReserved(s, c, x);
    SubmitMovesCtxs(s, c);
  }

  /** Every other main step moves a context's count, less what is leaked, with its reservation. */
  lemma OtherMovesRefs(s: Server, c: Choice, x: nat)
    requires SyncInv(s) && MainEnabled(s, c) && !s.main.IoSubmit? && x in s.ctxs && x != s.nextId
    ensures var s' := MainNext(s, c);
            x in s'.ctxs ==>
              s'.ctxs[x].refs - s'.ctxs[x].leaked - Reserved(s', x) == s.ctxs[x].refs - s.ctxs[x].leaked - Reserved(s, x)
  {
  }

  lemma MainMovesKeys(s: Server, c: Choice)
    requires MainEnabled(s, c)
    ensures var s' := MainNext(s, c);
            && (!s.main.SweepAct? && !s.main.Accept? ==> s'.ctxs.Keys == s.ctxs.Keys)
            && (s.main.SweepAct? ==> s'.ctxs.Keys == s.ctxs.Keys || s'.ctxs.Keys == s.ctxs.Keys - {s.main.x})
            && (s.main.Accept? ==> s'.ctxs.Keys == s.ctxs.Keys || s'.ctxs.Keys == s.ctxs.Keys + {s.nextId})
  {
  }

  lemma MainKeepsRefs(s: Server, c: Choice)
    requires SyncInv(s) && SlotInv(s) && RefInv(s) && LiveInv(s) && MainEnabled(s, c)
    ensures RefInv(MainNext(s, c))
  {
    var s' := MainNext(s, c);
    MainMovesKeys(s, c);
    forall x: nat | x in s'.ctxs
      ensures s'.ctxs[x].refs == Outstanding(s'.pool, x) + Reserved(s', x) + s'.ctxs[x].leaked
    {
      MainMovesTasks(s, c, x);
      if s.main.IoSubmit? {
        SubmitMovesRefs(s, c, x);
      } else if x in s.ctxs {
        OtherMovesRefs(s, c, x);
      }
    }
  }

  /** Destroying loses no task, and no step names a context that is gone. */
  lemma MainKeepsLive(s: Server, c: Choice)
    requires SyncInv(s) && CurrentInv(s) && SlotInv(s) && RefInv(s) && LiveInv(s) && SnapshotInv(s) && MainEnabled(s, c)
    ensures LiveInv(MainNext(s, c))
  {
    var s' := MainNext(s, c);
    MainMovesKeys(s, c);
    if Current(s.main).Some? {
      CurrentIsLive(s);
    }
    forall x: nat ensures Outstanding(s'.pool, x) > 0 ==> x in s'.ctxs {
      MainMovesTasks(s, c, x);
    }
  }

  lemma MainKeepsSnapshot(s: Server, c: Choice)
    requires SyncInv(s) && CurrentInv(s) && SlotInv(s) && SnapshotInv(s) && MainEnabled(s, c)
    ensures SnapshotInv(MainNext(s, c))
  {
    if Current(s.main).Some? {
      CurrentIsLive(s);
    }
  }

  ghost predicate Decides(s: Server) {
    s.main.SweepAct? && s.main.state == PendingClose && s.main.refs == 0 && s.main.k < |s.table|
  }

  /** Only three kinds of main step change the table, the pending list or the set of contexts. */
  lemma MainMovesTable(s: Server, c: Choice)
    requires MainEnabled(s, c)
    ensures var s' := MainNext(s, c);
            if s.main.Update? && c.ok then
              && s'.table == NonEmpty(s.table) + s.pending && s'.pending == []
              && s'.nextId == s.nextId && s'.ctxs == s.ctxs && s'.main == Poll
            else if Decides(s) then
              && s'.table == s.table[s.main.k := Empty] && s'.pending == s.pending
              && s'.nextId == s.nextId && s'.ctxs == s.ctxs - {s.main.x} && s'.main == Sweep(s.main.k + 1)
            else if s'.nextId != s.nextId then
              && s'.table == s.table && s'.pending == s.pending + [Conn(s.nextId)] && s'.nextId == s.nextId + 1
              && s'.ctxs.Keys == s.ctxs.Keys + {s.nextId} && s'.main == s.main && s.main.Accept?
              && |s.table| + |s.pending| != MAX_CONNECTIONS + 1
            else
              s'.table == s.table && s'.pending == s.pending && s'.ctxs.Keys == s.ctxs.Keys
  {
  }

  lemma EmptySlot(table: seq<Slot>, k: nat, x: nat)
    requires k < |table| && table[k] == Conn(x)
    ensures forall y: nat :: multiset(table[k := Empty])[Conn(y)] == multiset(table)[Conn(y)] - if y == x then 1 else 0
  {
    assert table == table[..k] + [Conn(x)] + table[k + 1..];
    assert table[k := Empty] == table[..k] + [Empty] + table[k + 1..];
  }

  /** A live context is in no second slot. */
  lemma OneSlot(s: Server, k: nat)
    requires SlotInv(s) && k < |s.table| && s.table[k].Conn?
    ensures forall i :: 0 <= i < |s.table| && s.table[i] == s.table[k] ==> i == k
  {
    var slot := s.table[k];
    assert (multiset(s.table) + multiset(s.pending))[Conn(slot.x)] == if slot.x in s.ctxs then 1 else 0;
    assert multiset(s.table)[slot] <= 1;
    forall i | 0 <= i < |s.table| && s.table[i] == slot ensures i == k {
      if i != k {
        TwoOccurrences(s.table, if i < k then i else k, if i < k then k else i);
      }
    }
  }

  lemma TwoOccurrences(table: seq<Slot>, i: nat, k: nat)
    requires i < k < |table| && table[i] == table[k]
    ensures multiset(table)[table[i]] >= 2
  {
    assert table == table[..k] + table[k..];
    assert table[..k][i] == table[i] && table[k..][0] == table[k];
    assert table[i] in multiset(table[..k]) && table[k] in multiset(table[k..]);
  }

  lemma MainKeepsSlots(s: Server, c: Choice)
    requires CurrentInv(s) && SlotInv(s) && MainEnabled(s, c)
    ensures SlotInv(MainNext(s, c))
  {
    var s' := MainNext(s, c);
    MainMovesTable(s, c);
    if s.main.Update? && c.ok {
      UpdateKeepsSlots(s, s');
    } else if Decides(s) {
      EmptyKeepsSlots(s, s');
    } else if s'.nextId != s.nextId {
      AcceptKeepsSlots(s, s');
    } else {
      assert forall x: nat :: x in s'.ctxs <==> x in s.ctxs;
    }
  }

  lemma UpdateKeepsSlots(s: Server, s': Server)
    requires SlotInv(s)
    requires s'.table == NonEmpty(s.table) + s.pending && s'.pending == []
    requires s'.nextId == s.nextId && s'.ctxs == s.ctxs
    ensures SlotInv(s')
  {
    forall x: nat
      ensures (multiset(s'.table) + multiset(s'.pending))[Conn(x)] == if x in s'.ctxs then 1 else 0
    {
      assert (multiset(s.table) + multiset(s.pending))[Conn(x)] == if x in s.ctxs then 1 else 0;
      NonEmptyKeeps(s.table, Conn(x));
    }
  }

  lemma EmptyKeepsSlots(s: Server, s': Server)
    requires CurrentInv(s) && SlotInv(s) && Decides(s)
    requires s'.table == s.table[s.main.k := Empty] && s'.pending == s.pending
    requires s'.nextId == s.nextId && s'.ctxs == s.ctxs - {s.main.x}
    ensures SlotInv(s')
  {
    EmptySlot(s.table, s.main.k, s.main.x);
    forall x: nat
      ensures (multiset(s'.table) + multiset(s'.pending))[Conn(x)] == if x in s'.ctxs then 1 else 0
    {
      assert (multiset(s.table) + multiset(s.pending))[Conn(x)] == if x in s.ctxs then 1 else 0;
    }
  }

  lemma AcceptKeepsSlots(s: Server, s': Server)
    requires SlotInv(s)
    requires s'.table == s.table && s'.pending == s.pending + [Conn(s.nextId)] && s'.nextId == s.nextId + 1
    requires s'.ctxs.Keys == s.ctxs.Keys + {s.nextId}
    ensures SlotInv(s')
  {
    forall x: nat
      ensures (multiset(s'.table) + multiset(s'.pending))[Conn(x)] == if x in s'.ctxs then 1 else 0
      ensures x in s'.ctxs ==> x < s'.nextId
    {
      assert (multiset(s.table) + multiset(s.pending))[Conn(x)] == if x in s.ctxs then 1 else 0;
      assert x in s'.ctxs <==> x in s'.ctxs.Keys;
    }
  }

  /** The sweep never moves back over slots it may have emptied. */
  lemma MainMovesSweep(s: Server, c: Choice)
    requires MainEnabled(s, c) && !Decides(s) && !(s.main.Update? && c.ok)
    ensures Swept(MainNext(s, c)) >= Swept(s) || Swept(MainNext(s, c)) >= |s.table|
  {
  }

  lemma UpdateKeepsDense(s: Server, s': Server)
    requires DenseInv(s) && CapInv(s)
    requires s'.table == NonEmpty(s.table) + s.pending && s'.pending == []
    ensures DenseInv(s') && CapInv(s')
  {
    NonEmptyKeeps(s.table, Listener);
  }

  lemma EmptyKeepsDense(s: Server, s': Server)
    requires DenseInv(s) && CapInv(s) && Decides(s)
    requires s'.table == s.table[s.main.k := Empty] && s'.pending == s.pending && s'.main == Sweep(s.main.k + 1)
    ensures DenseInv(s') && CapInv(s')
  {
  }

  lemma MainKeepsDense(s: Server, c: Choice)
    requires DenseInv(s) && CapInv(s) && MainEnabled(s, c)
    ensures DenseInv(MainNext(s, c)) && CapInv(MainNext(s, c))
  {
    MainMovesTable(s, c);
    if s.main.Update? && c.ok {
      UpdateKeepsDense(s, MainNext(s, c));
    } else if Decides(s) {
      EmptyKeepsDense(s, MainNext(s, c));
    } else {
      MainMovesSweep(s, c);
    }
  }

  lemma MainKeepsPool(s: Server, c: Choice)
    requires Inv(s.pool) && SyncInv(s) && MainEnabled(s, c)
    ensures Inv(MainNext(s, c).pool)
  {
    PoolPartKind(s, c);
    if PoolPart(s, c).Some? {
      StepKeepsInv(s.pool, PoolPart(s, c).value);
    }
  }

  lemma MainKeepsInv(s: Server, c: Choice)
    requires ServerInv(s) && MainEnabled(s, c)
    ensures ServerInv(MainNext(s, c))
  {
    MainKeepsPool(s, c);
    MainKeepsSync(s, c);
    MainKeepsCurrent(s, c);
    MainKeepsSlots(s, c);
    MainKeepsRefs(s, c);
    MainKeepsLive(s, c);
    MainKeepsSnapshot(s, c);
    MainKeepsDense(s, c);
  }

  // ---------------------------------------------------------------------------
  // Runs
  // ---------------------------------------------------------------------------

  lemma InitServerInv(workers: nat)
    ensures ServerInv(InitServer(workers))
  {
    var s := InitServer(workers);
    InitInv(workers, 1);
    forall x: nat ensures Outstanding(s.pool, x) == 0 {
      NoneCarried(s.pool.w, x);
    }
  }

  lemma {:induction false} NoneCarried(w: seq<WorkerPc>, x: nat)
    requires forall k :: 0 <= k < |w| ==> Carries(w[k]).None?
    ensures Sum(w, CarriesFor(x)) == 0
  {
    if w != [] {
      NoneCarried(w[..|w| - 1], x);
    }
  }

  lemma EventKeepsInv(s: Server, e: Event)
    requires ServerInv(s) && EventEnabled(s, e)
    ensures ServerInv(EventNext(s, e))
  {
    match e {
      case Main(c) => MainKeepsInv(s, c);
      case Worker(a, after) => WorkerEventKeepsInv(s, a, after);
    }
  }

  /** The invariant holds after every run of the steady loop, for any number of workers. */
  lemma {:induction false} ServeKeepsInv(s: Server, es: seq<Event>)
    requires ServerInv(s) && Lawful(s, es)
    ensures ServerInv(Serve(s, es))
    decreases |es|
  {
    if es != [] {
      EventKeepsInv(s, es[0]);
      ServeKeepsInv(EventNext(s, es[0]), es[1..]);
    }
  }
}
