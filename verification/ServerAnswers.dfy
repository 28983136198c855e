/** The server does its clients' I/O: every frame of every open connection can be answered. */
module ServerAnswers {
  import opened Prelude
  import opened Framing
  import opened NetIo
  import opened ThreadPool
  import opened PoolInvariant
  import PoolTheorems
  import Schedules
  import opened Server
  import opened ServerInvariant
  import opened ServerTheorems
  import opened ServerDestroys
  import opened ServerConnections
  import opened Connection
  import Orders
  import Protocol
  import Resume

  // ---------------------------------------------------------------------------
  // What a task body does in the server
  // ---------------------------------------------------------------------------

  /** The worker of an event runs a body of kind fn for context x, outside shutdown. */
  ghost predicate RunsFor(n: Net, ne: NetEvent, fn: Fn, x: nat) {
    && ne.e.Worker? && RunsBody(n.server.pool, ne.e.a) && !ne.shutdown
    && n.server.pool.w[ne.e.a.i].t.fn == fn && n.server.pool.w[ne.e.a.i].t.ctx == x
  }

  lemma BodyView(streams: nat -> seq<Byte>, n: Net, ne: NetEvent, fn: Fn, x: nat)
    requires NetEnabled(streams, n, ne) && RunsFor(n, ne, fn, x)
    ensures x in n.views && InRange(streams(x), n.views[x]) && x in NetNext(streams, n, ne).views
    ensures NetNext(streams, n, ne).views[x] ==
            Turned(streams(x), n.views[x], if fn.IoRead? then In(ne.io, false) else Out(ne.io, false))
  {
    WorkerEventFrame(n.server, ne.e.a, ne.e.after);
  }

  /** A send body puts on its client's wire the first bytes of the reply, as many as its calls
      move. */
  lemma SendBodySends(streams: nat -> seq<Byte>, n: Net, ne: NetEvent, x: nat)
    requires NetEnabled(streams, n, ne) && RunsFor(n, ne, IoSend, x) && n.views[x].state == WriteResponse
    ensures x in NetNext(streams, n, ne).views
    ensures var v, w := n.views[x], NetNext(streams, n, ne).views[x];
            var k := Min(Resume.Delivered(ne.io), v.toSend);
            k <= |v.reply| && w.wire == v.wire + v.reply[..k] && w.toSend == v.toSend - k
  {
    BodyView(streams, n, ne, IoSend, x);
    Resume.SendIs(streams(x), n.views[x], ne.io);
  }

  /** A read body takes from its client's stream as many bytes as its calls move. */
  lemma ReadBodyReads(streams: nat -> seq<Byte>, n: Net, ne: NetEvent, x: nat)
    requires NetEnabled(streams, n, ne) && RunsFor(n, ne, IoRead, x)
    requires n.views[x].state == ReadHeader || n.views[x].state == ReadContent
    ensures x in NetNext(streams, n, ne).views
    ensures var v, w := n.views[x], NetNext(streams, n, ne).views[x];
            v.pos <= |streams(x)| && w.pos == v.pos + Min(Resume.Delivered(ne.io), Min(v.toRead, |streams(x)| - v.pos))
  {
    BodyView(streams, n, ne, IoRead, x);
    Resume.ReadTakes(streams(x), n.views[x], ne.io);
  }

  // ---------------------------------------------------------------------------
  // An open connection, and how far it has come
  // ---------------------------------------------------------------------------

  /** Turns onward until the connection is drained. */
  ghost function Left(stream: seq<Byte>, v: View): nat
    requires InRange(stream, v)
  {
    3 * (|stream| - v.pos) + if v.state == ReadContent then 2 else if v.state == WriteResponse then 1 else 0
  }

  /** Connection x is open, and the round under way holds no hang-up of it. */
  ghost predicate Alive(streams: nat -> seq<Byte>, n: Net, x: nat) {
    && NetInv(streams, n) && Going(n.server)
    && x in n.server.ctxs && n.server.ctxs[x].state != PendingClose
    && Orders.MarkClosing(x) !in Orders.StillDue(n.server)
  }

  /** Since view v the connection has not changed, or has come closer to the end with no reply
      sent in pieces. */
  ghost predicate Since(stream: seq<Byte>, v: View, w: View)
    requires InRange(stream, v)
  {
    && InRange(stream, w) && Left(stream, w) <= Left(stream, v) && (Left(stream, w) == Left(stream, v) ==> w == v)
    && (AllOneCall(v) && v.sent == 0 ==> AllOneCall(w) && w.sent == 0)
  }

  lemma OnwardLowersLeft(stream: seq<Byte>, v: View)
    requires Consistent(stream, v) && InRange(stream, v) && v.state != PendingClose && !Drained(stream, v)
    ensures var w := Turned(stream, v, Connection.Onward(v));
            w.state != PendingClose && Left(stream, w) < Left(stream, v) && Since(stream, v, w)
  {
    OnwardCompletes(stream, v);
  }

  lemma SinceOn(stream: seq<Byte>, u: View, v: View, w: View)
    requires InRange(stream, u) && Since(stream, u, v) && Since(stream, v, w)
    ensures Since(stream, u, w)
  {
  }

  lemma AliveView(streams: nat -> seq<Byte>, n: Net, x: nat)
    requires Alive(streams, n, x)
    ensures x in n.views && n.views[x].state == n.server.ctxs[x].state
    ensures InRange(streams(x), n.views[x]) && Consistent(streams(x), n.views[x])
  {
    ConversationTurn(streams(x), n.views[x], HangUp);
  }

  // ---------------------------------------------------------------------------
  // Steps of the workers
  // ---------------------------------------------------------------------------

  /** The task that an open connection waits for. */
  ghost function Needs(v: View): Fn {
    if v.state == WriteResponse then IoSend else IoRead
  }

  /** Worker i is at the body of that task. */
  ghost predicate Helps(stream: seq<Byte>, n: Net, i: nat, x: nat)
    requires x in n.views && i < |n.server.pool.w|
  {
    var pc := n.server.pool.w[i];
    pc.Body? && pc.t.ctx == x && pc.t.fn == Needs(n.views[x]) && !Drained(stream, n.views[x])
  }

  /** Worker i takes a plain step; a body that connection x waits for moves all it can, and
      every other body sees the shutdown flag and does nothing. */
  ghost function WorkerTurn(stream: seq<Byte>, n: Net, i: nat, x: nat): NetEvent
    requires x in n.views && i < |n.server.pool.w| && InRange(stream, n.views[x])
  {
    var v := n.views[x];
    if Helps(stream, n, i, x) then
      NetEvent(Worker(Schedules.Plain(n.server.pool, W(i)), Turned(stream, v, Connection.Onward(v)).state), Connection.Onward(v).events, false)
    else NetEvent(Steady(n.server, i), [], true)
  }

  lemma HelpIsOnward(streams: nat -> seq<Byte>, n: Net, i: nat, x: nat)
    requires Alive(streams, n, x) && x in n.views && InRange(streams(x), n.views[x])
    requires i < |n.server.pool.w| && Helps(streams(x), n, i, x)
    ensures TaskTurn(Needs(n.views[x]), WorkerTurn(streams(x), n, i, x)) == Connection.Onward(n.views[x])
  {
  }

  lemma HelpIsEnabled(streams: nat -> seq<Byte>, n: Net, i: nat, x: nat)
    requires Alive(streams, n, x) && Schedules.Runs(n.server.pool, W(i)) && x in n.views
    requires InRange(streams(x), n.views[x]) && Helps(streams(x), n, i, x)
    ensures NetEnabled(streams, n, WorkerTurn(streams(x), n, i, x))
  {
    var ne, v := WorkerTurn(streams(x), n, i, x), n.views[x];
    Schedules.PlainEnabled(n.server.pool, W(i));
    HelpIsOnward(streams, n, i, x);
    InvInRange(streams, n);
    TurnIsAllowed(streams(x), v, Needs(v), ne);
  }

  lemma IdleIsEnabled(streams: nat -> seq<Byte>, n: Net, i: nat)
    requires NetInv(streams, n) && Schedules.Runs(n.server.pool, W(i))
    ensures NetEnabled(streams, n, NetEvent(Steady(n.server, i), [], true))
  {
    SteadyEnabled(n.server, i);
    InvInRange(streams, n);
    if n.server.pool.w[i].Body? {
      CarriedIsOutstanding(n.server.pool, i);
    }
  }

  lemma IdleKeepsView(streams: nat -> seq<Byte>, n: Net, i: nat, x: nat)
    requires x in n.views && InRange(streams(x), n.views[x]) && i < |n.server.pool.w|
    ensures ViewAfter(streams(x), n, NetEvent(Steady(n.server, i), [], true), x) == n.views[x]
  {
    Resume.IdleTask(streams(x), n.views[x], [], true);
  }

  lemma WorkerTurnEnabled(streams: nat -> seq<Byte>, n: Net, i: nat, x: nat)
    requires Alive(streams, n, x) && Schedules.Runs(n.server.pool, W(i))
    ensures x in n.views && InRange(streams(x), n.views[x]) && NetEnabled(streams, n, WorkerTurn(streams(x), n, i, x))
  {
    AliveView(streams, n, x);
    if Helps(streams(x), n, i, x) {
      HelpIsEnabled(streams, n, i, x);
    } else {
      IdleIsEnabled(streams, n, i);
    }
  }

  /** What such a step makes of the view of x. */
  lemma WorkerTurnView(streams: nat -> seq<Byte>, n: Net, i: nat, x: nat)
    requires x in n.views && InRange(streams(x), n.views[x]) && x < n.server.nextId
    requires i < |n.server.pool.w| && NetEnabled(streams, n, WorkerTurn(streams(x), n, i, x))
    ensures var n' := NetNext(streams, n, WorkerTurn(streams(x), n, i, x));
            && x in n'.views
            && n'.views[x] == if Helps(streams(x), n, i, x)
                              then Turned(streams(x), n.views[x], Connection.Onward(n.views[x])) else n.views[x]
  {
    ViewsAre(streams, n, WorkerTurn(streams(x), n, i, x));
    IdleKeepsView(streams, n, i, x);
  }

  lemma WorkerTurnSince(streams: nat -> seq<Byte>, n: Net, i: nat, x: nat)
    requires Alive(streams, n, x) && Schedules.Runs(n.server.pool, W(i)) && x in n.views
    requires InRange(streams(x), n.views[x]) && NetEnabled(streams, n, WorkerTurn(streams(x), n, i, x))
    ensures var n' := NetNext(streams, n, WorkerTurn(streams(x), n, i, x));
            && x in n'.views && n'.views[x].state != PendingClose && Since(streams(x), n.views[x], n'.views[x])
            && (Helps(streams(x), n, i, x) ==> Left(streams(x), n'.views[x]) < Left(streams(x), n.views[x]))
  {
    AliveView(streams, n, x);
    WorkerTurnView(streams, n, i, x);
    if Helps(streams(x), n, i, x) {
      OnwardLowersLeft(streams(x), n.views[x]);
    }
  }

  /** Nothing moves but the pool and the connection. */
  lemma WorkerTurnServer(streams: nat -> seq<Byte>, n: Net, i: nat, x: nat)
    requires Alive(streams, n, x) && Schedules.Runs(n.server.pool, W(i)) && x in n.views
    requires InRange(streams(x), n.views[x]) && NetEnabled(streams, n, WorkerTurn(streams(x), n, i, x))
    ensures var s, s' := n.server, NetNext(streams, n, WorkerTurn(streams(x), n, i, x)).server;
            && Going(s') && Schedules.Work(s'.pool) < Schedules.Work(s.pool)
            && s' == s.(pool := s'.pool, ctxs := s'.ctxs) && s'.pool.c == s.pool.c && x in s'.ctxs
            && s'.pool == Next(s.pool, Schedules.Plain(s.pool, W(i)))
            && Orders.StillDue(s') == Orders.StillDue(s)
  {
    var e := WorkerTurn(streams(x), n, i, x).e;
    PlainKeepsGoing(n.server, i, e.after);
    WorkerEventFrame(n.server, e.a, e.after);
  }

  lemma WorkerTurnAlive(streams: nat -> seq<Byte>, n: Net, i: nat, x: nat)
    requires Alive(streams, n, x) && Schedules.Runs(n.server.pool, W(i)) && x in n.views
    requires InRange(streams(x), n.views[x]) && NetEnabled(streams, n, WorkerTurn(streams(x), n, i, x))
    ensures Alive(streams, NetNext(streams, n, WorkerTurn(streams(x), n, i, x)), x)
  {
    WorkerTurnSince(streams, n, i, x);
    WorkerTurnServer(streams, n, i, x);
    NetStepKeepsInv(streams, n, WorkerTurn(streams(x), n, i, x));
  }

  // ---------------------------------------------------------------------------
  // Steps of the main thread
  // ---------------------------------------------------------------------------

  /** The sweep spares an open connection. */
  lemma MainSpares(s: Server, c: Choice, x: nat)
    requires ServerInv(s) && MainEnabled(s, c) && x in s.ctxs && s.ctxs[x].state != PendingClose
    ensures x in MainNext(s, c).ctxs
  {
    MainMovesTable(s, c);
    MainMovesKeys(s, c);
    if Decides(s) {
      SweepIsSound(s, C(0));
    }
  }

  lemma MainKeepsView(streams: nat -> seq<Byte>, n: Net, ne: NetEvent, x: nat)
    requires ne.e.Main? && NetEnabled(streams, n, ne) && x in n.views && x < n.server.nextId
    requires !(n.server.main.HupHold? && n.server.main.x == x)
    ensures x in NetNext(streams, n, ne).views && NetNext(streams, n, ne).views[x] == n.views[x]
  {
    ViewsAre(streams, n, ne);
  }

  /** What is due does not grow: a step of dispatch takes from it, and nothing is due
      elsewhere; so a hang-up comes in only with a report. */
  lemma MainKeepsDue(s: Server, c: Choice, o: Orders.Order)
    requires Going(s) && MainEnabled(s, c) && c.ok && !s.main.Poll? && o !in Orders.StillDue(s)
    requires SyncInv(MainNext(s, c)) && CurrentInv(MainNext(s, c))
    ensures o !in Orders.StillDue(MainNext(s, c))
  {
    if Dispatching(s.main) {
      Orders.MainKeepsOrders(s, c);
    } else {
      MainNextIs(s, c);
    }
  }

  lemma HoldIsDue(s: Server, x: nat)
    requires SyncInv(s) && CurrentInv(s) && s.main.HupHold? && s.main.x == x
    ensures Orders.MarkClosing(x) in Orders.StillDue(s)
  {
  }

  lemma MainStepAlive(streams: nat -> seq<Byte>, n: Net, c: Choice, x: nat)
    requires Alive(streams, n, x) && x in n.views && MainEnabled(n.server, c) && c.ok
    requires Going(MainNext(n.server, c))
    requires Orders.MarkClosing(x) !in Orders.StillDue(MainNext(n.server, c))
    ensures var ne := NetEvent(Main(c), [], false);
            && NetEnabled(streams, n, ne)
            && var n' := NetNext(streams, n, ne);
               Alive(streams, n', x) && n'.server == MainNext(n.server, c) && x in n'.views && n'.views[x] == n.views[x]
  {
    var ne := NetEvent(Main(c), [], false);
    InvInRange(streams, n);
    NetStepKeepsInv(streams, n, ne);
    MainSpares(n.server, c, x);
    if n.server.main.HupHold? && n.server.main.x == x {
      HoldIsDue(n.server, x);
    }
    MainKeepsView(streams, n, ne, x);
  }

  // ---------------------------------------------------------------------------
  // A task that is on its way
  // ---------------------------------------------------------------------------

  /** A task of this kind for x has been pushed and has not finished. */
  ghost predicate Unfinished(p: Pool, fn: Fn, x: nat) {
    exists k :: 0 <= k < |p.h.pushed| && p.h.pushed[k].fn == fn && p.h.pushed[k].ctx == x && p.h.pushed[k] !in p.h.finished
  }

  /** Such a task is to be submitted, or has not finished. */
  ghost predicate Awaited(s: Server, fn: Fn, x: nat)
    requires SyncInv(s) && CurrentInv(s)
  {
    Orders.Push(fn, x) in Orders.StillDue(s) || Unfinished(s.pool, fn, x)
  }

  lemma MainFinishesNothing(s: Server, c: Choice)
    requires SyncInv(s) && MainEnabled(s, c)
    ensures MainNext(s, c).pool.h.finished == s.pool.h.finished
  {
    PoolPartKind(s, c);
    var part := PoolPart(s, c);
    if part.Some? && part.value.ClientStep? {
      ClientMovesTask(s.pool, 0, c.wake, c.ok);
    } else if part.Some? {
      CallMoves(s.pool, 0, part.value.call);
    }
  }

  lemma NewTaskIsUnfinished(p: Pool, t: Task)
    requires Inv(p) && t.id == |p.h.pushed|
    ensures t !in p.h.finished
  {
    PoolTheorems.ExactlyOnce(p, t);
  }

  lemma PushedStaysUnfinished(p: Pool, p': Pool, fn: Fn, x: nat)
    requires p'.h.finished == p.h.finished && p.h.pushed <= p'.h.pushed && Unfinished(p, fn, x)
    ensures Unfinished(p', fn, x)
  {
    var k :| 0 <= k < |p.h.pushed| && p.h.pushed[k].fn == fn && p.h.pushed[k].ctx == x && p.h.pushed[k] !in p.h.finished;
    assert p'.h.pushed[k] == p.h.pushed[k];
  }

  lemma PushIsUnfinished(s: Server, c: Choice)
    requires Inv(s.pool) && SyncInv(s) && MainEnabled(s, c) && c.ok && s.main.IoSubmit? && s.pool.c[0].SubPush?
    ensures Unfinished(MainNext(s, c).pool, s.main.fn, s.main.x)
  {
    Orders.MainPushes(s, c);
    MainFinishesNothing(s, c);
    var k := |s.pool.h.pushed|;
    NewTaskIsUnfinished(s.pool, Task(k, s.main.fn, s.main.x));
    assert MainNext(s, c).pool.h.pushed[k] == Task(k, s.main.fn, s.main.x);
  }

  lemma MainKeepsUnfinished(s: Server, c: Choice, fn: Fn, x: nat)
    requires SyncInv(s) && MainEnabled(s, c) && Unfinished(s.pool, fn, x)
    ensures Unfinished(MainNext(s, c).pool, fn, x)
  {
    Orders.MainPushes(s, c);
    MainFinishesNothing(s, c);
    PushedStaysUnfinished(s.pool, MainNext(s, c).pool, fn, x);
  }

  /** A step of the main thread hands an awaited task on to the pool. */
  lemma MainKeepsAwaited(s: Server, c: Choice, fn: Fn, x: nat)
    requires Going(s) && MainEnabled(s, c) && c.ok && Awaited(s, fn, x)
    requires SyncInv(MainNext(s, c)) && CurrentInv(MainNext(s, c))
    ensures Awaited(MainNext(s, c), fn, x)
  {
    if Unfinished(s.pool, fn, x) {
      MainKeepsUnfinished(s, c, fn, x);
    } else {
      Orders.MainKeepsOrders(s, c);
      Orders.MainCarries(s, c);
      if s.main.IoSubmit? && s.pool.c[0].SubPush? {
        PushIsUnfinished(s, c);
      }
    }
  }

  lemma PlainFinishes(p: Pool, i: nat)
    requires Inv(p) && Schedules.Runs(p, W(i))
    ensures Enabled(p, Schedules.Plain(p, W(i)))
    ensures var p' := Next(p, Schedules.Plain(p, W(i)));
            && p'.h.pushed == p.h.pushed
            && p'.h.finished == if p.w[i].Body? then p.h.finished + [p.w[i].t] else p.h.finished
  {
    Schedules.PlainEnabled(p, W(i));
    var wake := Schedules.OneSleeper(p.w);
    if Takes(p, p.w[i]) {
      WorkerTakes(p, i, wake);
    } else if p.w[i].Body? {
      WorkerFinishes(p, i, wake);
    } else {
      WorkerCarries(p, i, wake);
    }
  }

  /** A step of a worker finishes no awaited task but the one that helps. */
  lemma PlainKeepsUnfinished(p: Pool, i: nat, fn: Fn, x: nat)
    requires Inv(p) && Schedules.Runs(p, W(i)) && Unfinished(p, fn, x)
    requires !(p.w[i].Body? && p.w[i].t.fn == fn && p.w[i].t.ctx == x)
    ensures Enabled(p, Schedules.Plain(p, W(i))) && Unfinished(Next(p, Schedules.Plain(p, W(i))), fn, x)
  {
    PlainFinishes(p, i);
    var k :| 0 <= k < |p.h.pushed| && p.h.pushed[k].fn == fn && p.h.pushed[k].ctx == x && p.h.pushed[k] !in p.h.finished;
    assert Next(p, Schedules.Plain(p, W(i))).h.pushed[k] == p.h.pushed[k];
  }

  // ---------------------------------------------------------------------------
  // Runs
  // ---------------------------------------------------------------------------

  /** Since view v connection x has moved on, or the task it needs is still on its way. */
  ghost predicate Served(stream: seq<Byte>, v: View, n: Net, x: nat)
    requires InRange(stream, v) && SyncInv(n.server) && CurrentInv(n.server)
  {
    x in n.views && Since(stream, v, n.views[x]) && (n.views[x] == v ==> Awaited(n.server, Needs(v), x))
  }

  lemma WorkerTurnServes(streams: nat -> seq<Byte>, n: Net, i: nat, x: nat, v: View)
    requires Alive(streams, n, x) && Schedules.Runs(n.server.pool, W(i)) && x in n.views
    requires InRange(streams(x), n.views[x]) && NetEnabled(streams, n, WorkerTurn(streams(x), n, i, x))
    requires InRange(streams(x), v) && !Drained(streams(x), v) && Served(streams(x), v, n, x)
    requires Alive(streams, NetNext(streams, n, WorkerTurn(streams(x), n, i, x)), x)
    ensures Served(streams(x), v, NetNext(streams, n, WorkerTurn(streams(x), n, i, x)), x)
  {
    var n' := NetNext(streams, n, WorkerTurn(streams(x), n, i, x));
    WorkerTurnSince(streams, n, i, x);
    WorkerTurnServer(streams, n, i, x);
    SinceOn(streams(x), v, n.views[x], n'.views[x]);
    if n'.views[x] == v {
      assert n.views[x] == v && !Helps(streams(x), n, i, x);
      if Unfinished(n.server.pool, Needs(v), x) {
        PlainKeepsUnfinished(n.server.pool, i, Needs(v), x);
      }
    }
  }

  /** The main thread goes on calmly if it can, and else a worker does. */
  lemma Forward(streams: nat -> seq<Byte>, n: Net, x: nat) returns (ne: NetEvent)
    requires Alive(streams, n, x) && !n.server.main.Update?
    ensures NetEnabled(streams, n, ne)
    ensures if ne.e.Main? then ne == NetEvent(Main(Calm(n.server)), [], false)
            else exists i :: Schedules.Runs(n.server.pool, W(i)) && x in n.views && InRange(streams(x), n.views[x])
                          && ne == WorkerTurn(streams(x), n, i, x)
  {
    if MainBlocked(n.server) {
      var i := BlockedMainRuns(n.server);
      WorkerTurnEnabled(streams, n, i, x);
      ne := WorkerTurn(streams(x), n, i, x);
    } else {
      OpenIsNotDead(n.server.pool);
      CalmEnabled(n.server);
      InvInRange(streams, n);
      ne := NetEvent(Main(Calm(n.server)), [], false);
    }
  }

  lemma {:induction false} NothingReported(table: seq<Slot>, ready: seq<Ready>, k: nat)
    requires |ready| == |table| && forall i :: 0 <= i < |ready| ==> ready[i] == NONE
    ensures Orders.OrdersFrom(table, ready, k) == []
    decreases |table| - k
  {
    if k < |table| {
      NothingReported(table, ready, k + 1);
    }
  }

  lemma CalmKeepsDue(s: Server, o: Orders.Order)
    requires Going(s) && MainEnabled(s, Calm(s)) && o !in Orders.StillDue(s)
    requires SyncInv(MainNext(s, Calm(s))) && CurrentInv(MainNext(s, Calm(s)))
    ensures o !in Orders.StillDue(MainNext(s, Calm(s)))
  {
    if s.main.Poll? {
      NothingReported(s.table, Calm(s).ready, 0);
    } else {
      MainKeepsDue(s, Calm(s), o);
    }
  }

  lemma CalmForward(streams: nat -> seq<Byte>, n: Net, x: nat)
    requires Alive(streams, n, x) && MainEnabled(n.server, Calm(n.server))
    requires !n.server.main.Update?
    ensures var ne := NetEvent(Main(Calm(n.server)), [], false);
            && NetEnabled(streams, n, ne)
            && var n' := NetNext(streams, n, ne);
               && Alive(streams, n', x) && n'.server == MainNext(n.server, Calm(n.server))
               && Ahead(n'.server) < Ahead(n.server) && n'.server.pending == n.server.pending
               && x in n.views && x in n'.views && n'.views[x] == n.views[x]
  {
    AliveView(streams, n, x);
    CalmKeepsGoing(n.server);
    CalmKeepsPending(n.server);
    CalmKeepsDue(n.server, Orders.MarkClosing(x));
    MainStepAlive(streams, n, Calm(n.server), x);
  }

  /** A step forward, by what it may change. */
  ghost predicate Nearer(streams: nat -> seq<Byte>, n: Net, n': Net, x: nat) {
    && Alive(streams, n, x) && Alive(streams, n', x)
    && x in n.views && x in n'.views && InRange(streams(x), n.views[x]) && Since(streams(x), n.views[x], n'.views[x])
    && n'.server.pending == n.server.pending
    && (|| Ahead(n'.server) < Ahead(n.server)
        || (n'.server.main == n.server.main && Ahead(n'.server) == Ahead(n.server)
            && Schedules.Work(n'.server.pool) < Schedules.Work(n.server.pool)))
  }

  lemma WorkerNearer(streams: nat -> seq<Byte>, n: Net, i: nat, x: nat)
    requires Alive(streams, n, x) && Schedules.Runs(n.server.pool, W(i)) && x in n.views
    requires InRange(streams(x), n.views[x]) && NetEnabled(streams, n, WorkerTurn(streams(x), n, i, x))
    ensures var n' := NetNext(streams, n, WorkerTurn(streams(x), n, i, x));
            Nearer(streams, n, n', x) && n'.server.main == n.server.main
  {
    WorkerTurnAlive(streams, n, i, x);
    WorkerTurnSince(streams, n, i, x);
    WorkerTurnServer(streams, n, i, x);
  }

  lemma ForwardIsNearer(streams: nat -> seq<Byte>, n: Net, x: nat) returns (ne: NetEvent)
    requires Alive(streams, n, x) && !n.server.main.Update?
    ensures NetEnabled(streams, n, ne) && Nearer(streams, n, NetNext(streams, n, ne), x)
    ensures Polling(n.server.main) ==>
              Polling(NetNext(streams, n, ne).server.main) || NetNext(streams, n, ne).server.main.Loop?
    ensures forall v :: InRange(streams(x), v) && !Drained(streams(x), v) && Served(streams(x), v, n, x) ==>
              Served(streams(x), v, NetNext(streams, n, ne), x)
  {
    ne := Forward(streams, n, x);
    if ne.e.Main? {
      CalmForward(streams, n, x);
      if Polling(n.server.main) {
        CalmStaysPolling(n.server);
      }
      forall v | InRange(streams(x), v) && Served(streams(x), v, n, x) ensures Served(streams(x), v, NetNext(streams, n, ne), x) {
        if n.views[x] == v {
          MainKeepsAwaited(n.server, Calm(n.server), Needs(v), x);
        }
      }
    } else {
      var i :| Schedules.Runs(n.server.pool, W(i)) && x in n.views && InRange(streams(x), n.views[x])
               && ne == WorkerTurn(streams(x), n, i, x);
      WorkerNearer(streams, n, i, x);
      forall v | InRange(streams(x), v) && !Drained(streams(x), v) && Served(streams(x), v, n, x)
        ensures Served(streams(x), v, NetNext(streams, n, ne), x)
      {
        WorkerTurnServes(streams, n, i, x, v);
      }
    }
  }

  lemma NetCons(streams: nat -> seq<Byte>, n: Net, ne: NetEvent, rest: seq<NetEvent>)
    requires NetEnabled(streams, n, ne) && NetLawful(streams, NetNext(streams, n, ne), rest)
    ensures NetLawful(streams, n, [ne] + rest)
    ensures NetServe(streams, n, [ne] + rest) == NetServe(streams, NetNext(streams, n, ne), rest)
  {
    assert ([ne] + rest)[1..] == rest;
  }

  lemma NetHead(streams: nat -> seq<Byte>, n: Net, nes: seq<NetEvent>)
    requires nes != [] && NetLawful(streams, n, nes)
    ensures NetEnabled(streams, n, nes[0]) && NetLawful(streams, NetNext(streams, n, nes[0]), nes[1..])
    ensures NetServe(streams, n, nes) == NetServe(streams, NetNext(streams, n, nes[0]), nes[1..])
  {
  }

  lemma {:induction false} NetConcat(streams: nat -> seq<Byte>, n: Net, nes: seq<NetEvent>, rest: seq<NetEvent>)
    requires NetLawful(streams, n, nes) && NetLawful(streams, NetServe(streams, n, nes), rest)
    ensures NetLawful(streams, n, nes + rest)
    ensures NetServe(streams, n, nes + rest) == NetServe(streams, NetServe(streams, n, nes), rest)
    decreases |nes|
  {
    if nes == [] {
      assert nes + rest == rest;
    } else {
      NetHead(streams, n, nes);
      NetConcat(streams, NetNext(streams, n, nes[0]), nes[1..], rest);
      NetCons(streams, n, nes[0], nes[1..] + rest);
      HeadOfConcat(nes, rest);
    }
  }

  lemma {:induction false} NetToLoop(streams: nat -> seq<Byte>, n: Net, x: nat, v: View) returns (nes: seq<NetEvent>)
    requires Alive(streams, n, x) && (Polling(n.server.main) || n.server.main.Loop?)
    requires InRange(streams(x), v) && !Drained(streams(x), v) && Served(streams(x), v, n, x)
    ensures NetLawful(streams, n, nes)
    ensures var n' := NetServe(streams, n, nes);
            Alive(streams, n', x) && n'.server.main.Loop? && Served(streams(x), v, n', x)
    decreases Ahead(n.server), Schedules.Work(n.server.pool)
  {
    if n.server.main.Loop? {
      nes := [];
    } else {
      var ne := ForwardIsNearer(streams, n, x);
      var rest := NetToLoop(streams, NetNext(streams, n, ne), x, v);
      NetCons(streams, n, ne, rest);
      nes := [ne] + rest;
    }
  }

  lemma {:induction false} NetToUpdate(streams: nat -> seq<Byte>, n: Net, x: nat) returns (nes: seq<NetEvent>)
    requires Alive(streams, n, x) && x in n.views && InRange(streams(x), n.views[x])
    ensures NetLawful(streams, n, nes)
    ensures var n' := NetServe(streams, n, nes);
            Alive(streams, n', x) && n'.server.main.Update? && x in n'.views && Since(streams(x), n.views[x], n'.views[x])
    decreases Ahead(n.server), Schedules.Work(n.server.pool)
  {
    if n.server.main.Update? {
      nes := [];
    } else {
      var ne := ForwardIsNearer(streams, n, x);
      var n1 := NetNext(streams, n, ne);
      var rest := NetToUpdate(streams, n1, x);
      SinceOn(streams(x), n.views[x], n1.views[x], NetServe(streams, n1, rest).views[x]);
      NetCons(streams, n, ne, rest);
      nes := [ne] + rest;
    }
  }

  /** With every worker asleep and nothing queued, nothing is on its way. */
  lemma SettledAwaitsNothing(s: Server, fn: Fn, x: nat)
    requires Going(s) && s.main.Loop? && s.pool.queue == [] && Schedules.Settled(s.pool, {})
    ensures !Awaited(s, fn, x)
  {
    Schedules.AsleepHasFinished(s.pool);
    var pushed, finished := s.pool.h.pushed, s.pool.h.finished;
    forall k | 0 <= k < |pushed| ensures pushed[k] in finished {
      assert pushed[k] in multiset(pushed);
      assert pushed[k] in multiset(finished);
    }
  }

  /** The workers finish every task; so the one that x needs has run. */
  lemma {:induction false} NetTasks(streams: nat -> seq<Byte>, n: Net, x: nat, v: View) returns (nes: seq<NetEvent>)
    requires Alive(streams, n, x) && n.server.main.Loop?
    requires InRange(streams(x), v) && !Drained(streams(x), v) && Served(streams(x), v, n, x)
    ensures NetLawful(streams, n, nes)
    ensures var n' := NetServe(streams, n, nes);
            && Alive(streams, n', x) && x in n'.views
            && Since(streams(x), v, n'.views[x]) && n'.views[x] != v
    decreases Schedules.Work(n.server.pool)
  {
    if n.server.pool.queue == [] && Schedules.Settled(n.server.pool, {}) {
      nes := [];
      SettledAwaitsNothing(n.server, Needs(v), x);
    } else {
      var i := BusyWorkerRuns(n.server.pool);
      WorkerTurnEnabled(streams, n, i, x);
      var ne := WorkerTurn(streams(x), n, i, x);
      WorkerNearer(streams, n, i, x);
      WorkerTurnServer(streams, n, i, x);
      WorkerTurnServes(streams, n, i, x, v);
      var rest := NetTasks(streams, NetNext(streams, n, ne), x, v);
      NetCons(streams, n, ne, rest);
      nes := [ne] + rest;
    }
  }

  // ---------------------------------------------------------------------------
  // One turn of the connection takes two rounds of the loop
  // ---------------------------------------------------------------------------

  lemma NetUpdate(streams: nat -> seq<Byte>, n: Net, x: nat) returns (ne: NetEvent)
    requires Alive(streams, n, x) && n.server.main.Update?
    ensures NetEnabled(streams, n, ne)
    ensures var n' := NetNext(streams, n, ne);
            && Alive(streams, n', x) && n'.server.main.Poll? && n'.server.pending == []
            && x in n.views && x in n'.views && n'.views[x] == n.views[x]
  {
    AliveView(streams, n, x);
    UpdateStep(n.server, x);
    MainStepAlive(streams, n, Calm(n.server), x);
    ne := NetEvent(Main(Calm(n.server)), [], false);
  }

  /** A report for slot j alone. */
  ghost function Only(size: nat, j: nat, r: Ready): (ready: seq<Ready>)
    ensures |ready| == size && forall i :: 0 <= i < size ==> ready[i] == if i == j then r else NONE
  {
    seq(size, i => if i == j then r else NONE)
  }

  lemma {:induction false} NoHangUpReported(table: seq<Slot>, ready: seq<Ready>, k: nat, x: nat)
    requires |ready| == |table| && forall i :: 0 <= i < |ready| ==> !ready[i].hangup
    ensures Orders.MarkClosing(x) !in Orders.OrdersFrom(table, ready, k)
    decreases |table| - k
  {
    if k < |table| {
      NoHangUpReported(table, ready, k + 1, x);
    }
  }

  /** Poll reports what x needs, and nothing else. */
  lemma NetPoll(streams: nat -> seq<Byte>, n: Net, x: nat) returns (ne: NetEvent)
    requires Alive(streams, n, x) && n.server.main.Poll? && n.server.pending == []
    ensures NetEnabled(streams, n, ne)
    ensures var n' := NetNext(streams, n, ne);
            && Alive(streams, n', x) && Polling(n'.server.main)
            && x in n.views && x in n'.views && n'.views[x] == n.views[x]
            && Awaited(n'.server, Needs(n.views[x]), x)
  {
    AliveView(streams, n, x);
    var s, v := n.server, n.views[x];
    var j := SlotOfConnection(s, x);
    Orders.SlotIsOnly(s, j, x);
    var ready := Only(|s.table|, j, Ready(Needs(v).IoRead?, false, Needs(v).IoSend?));
    var c := Choice({}, true, false, false, ready);
    Orders.PollStep(s, ready);
    NoHangUpReported(s.table, ready, 0, x);
    Orders.SlotIsServed(s.table, ready, 0, j, x);
    MainStepAlive(streams, n, c, x);
    ne := NetEvent(Main(c), [], false);
  }

  lemma SlotOfConnection(s: Server, x: nat) returns (j: nat)
    requires SlotInv(s) && s.pending == [] && x in s.ctxs
    ensures j < |s.table| && s.table[j] == Conn(x)
  {
    assert (multiset(s.table) + multiset(s.pending))[Conn(x)] == 1;
    assert Conn(x) in s.table;
    j :| j < |s.table| && s.table[j] == Conn(x);
  }

  lemma FromPollOn(streams: nat -> seq<Byte>, n: Net, x: nat, v: View) returns (nes: seq<NetEvent>)
    requires Alive(streams, n, x) && n.server.main.Poll? && n.server.pending == []
    requires x in n.views && n.views[x] == v && InRange(streams(x), v) && !Drained(streams(x), v)
    ensures NetLawful(streams, n, nes)
    ensures var n' := NetServe(streams, n, nes);
            Alive(streams, n', x) && x in n'.views && Since(streams(x), v, n'.views[x]) && n'.views[x] != v
  {
    var ne := NetPoll(streams, n, x);
    var n1 := NetNext(streams, n, ne);
    var first := NetToLoop(streams, n1, x, v);
    var rest := NetTasks(streams, NetServe(streams, n1, first), x, v);
    NetConcat(streams, n1, first, rest);
    NetCons(streams, n, ne, first + rest);
    nes := [ne] + (first + rest);
  }

  lemma FromUpdateOn(streams: nat -> seq<Byte>, n: Net, x: nat, v: View) returns (nes: seq<NetEvent>)
    requires Alive(streams, n, x) && n.server.main.Update?
    requires x in n.views && n.views[x] == v && InRange(streams(x), v) && !Drained(streams(x), v)
    ensures NetLawful(streams, n, nes)
    ensures var n' := NetServe(streams, n, nes);
            Alive(streams, n', x) && x in n'.views && Since(streams(x), v, n'.views[x]) && n'.views[x] != v
  {
    var ne := NetUpdate(streams, n, x);
    var rest := FromPollOn(streams, NetNext(streams, n, ne), x, v);
    NetCons(streams, n, ne, rest);
    nes := [ne] + rest;
  }

  /** From wherever the loop is, an open connection that is not drained comes a turn further. */
  lemma OneTurnFurther(streams: nat -> seq<Byte>, n: Net, x: nat) returns (nes: seq<NetEvent>)
    requires Alive(streams, n, x) && x in n.views && InRange(streams(x), n.views[x])
    requires !Drained(streams(x), n.views[x])
    ensures NetLawful(streams, n, nes)
    ensures var n' := NetServe(streams, n, nes);
            && Alive(streams, n', x) && x in n'.views && Since(streams(x), n.views[x], n'.views[x])
            && Left(streams(x), n'.views[x]) < Left(streams(x), n.views[x])
  {
    nes := NetToUpdate(streams, n, x);
    var n1 := NetServe(streams, n, nes);
    if n1.views[x] == n.views[x] {
      var rest := FromUpdateOn(streams, n1, x, n.views[x]);
      NetConcat(streams, n, nes, rest);
      nes := nes + rest;
    }
  }

  /** From every state of the loop: an open connection of which the round under way holds no
      hang-up has a continuation in which every frame of its stream is handed over and every
      reply completed; if no reply has been sent in pieces before, its client then has got
      exactly the replies to the frames it sent. */
  lemma {:induction false} ServerAnswersEveryFrame(streams: nat -> seq<Byte>, n: Net, x: nat) returns (nes: seq<NetEvent>)
    requires Alive(streams, n, x) && x in n.views && InRange(streams(x), n.views[x])
    ensures NetLawful(streams, n, nes)
    ensures var n' := NetServe(streams, n, nes);
            && x in n'.server.ctxs && x in n'.views
            && var v, w := n.views[x], n'.views[x];
               && w.state != PendingClose && w.frames == Split(streams(x)) && |w.segments| == |w.frames|
               && (AllOneCall(v) && v.sent == 0 ==> w.wire == Flatten(Replies(Split(streams(x)))))
    decreases Left(streams(x), n.views[x])
  {
    var v := n.views[x];
    AliveView(streams, n, x);
    if Drained(streams(x), v) {
      nes := [];
      DrainedHasAll(streams(x), v);
      WireIsRepliesExactlyIfUnsplit(v.wire, v.frames, v.segments, v.oneCall, v.reply, v.sent, v.toSend, v.phase);
    } else {
      var first := OneTurnFurther(streams, n, x);
      var rest := ServerAnswersEveryFrame(streams, NetServe(streams, n, first), x);
      NetConcat(streams, n, first, rest);
      nes := first + rest;
    }
  }

  // ---------------------------------------------------------------------------
  // When nothing more can be answered
  // ---------------------------------------------------------------------------

  /** Connection x is closed, or the main thread holds its mutex to close it. */
  ghost predicate Lost(streams: nat -> seq<Byte>, n: Net, x: nat) {
    && NetInv(streams, n) && x in n.views
    && (n.views[x].state == PendingClose || (n.server.main.HupHold? && n.server.main.x == x))
  }

  /** Nobody runs a body for the context that the main thread holds. */
  lemma HeldRunsNoBody(s: Server, i: nat)
    requires Inv(s.pool) && SyncInv(s) && s.main.HupHold? && i < |s.pool.w| && s.pool.w[i].Body?
    ensures s.pool.w[i].t.ctx != s.main.x
  {
    var m := CtxMutex(s.main.x);
    assert Holds(s.pool, C(0), m);
    assert !Holds(s.pool, W(i), m);
  }

  lemma LostTurn(stream: seq<Byte>, v: View, turn: Turn)
    requires InRange(stream, v) && (v.state == PendingClose || turn.HangUp?)
    ensures Turned(stream, v, turn) == v.(state := PendingClose)
  {
  }

  lemma LostWorker(streams: nat -> seq<Byte>, n: Net, ne: NetEvent, x: nat)
    requires Inv(n.server.pool) && SyncInv(n.server) && ne.e.Worker? && NetEnabled(streams, n, ne) && x in n.views
    requires n.views[x].state == PendingClose || (n.server.main.HupHold? && n.server.main.x == x)
    ensures ViewAfter(streams(x), n, ne, x) == n.views[x] && NetNext(streams, n, ne).server.main == n.server.main
  {
    WorkerEventFrame(n.server, ne.e.a, ne.e.after);
    if n.server.main.HupHold? && RunsBody(n.server.pool, ne.e.a) {
      HeldRunsNoBody(n.server, ne.e.a.i);
    }
    var turn := TurnOf(n.server, ne);
    if turn.Some? && turn.value.0 == x {
      LostTurn(streams(x), n.views[x], turn.value.1);
    }
  }

  lemma LostMain(streams: nat -> seq<Byte>, n: Net, ne: NetEvent, x: nat)
    requires ne.e.Main? && x in n.views && InRange(streams(x), n.views[x])
    requires n.views[x].state == PendingClose || (n.server.main.HupHold? && n.server.main.x == x)
    ensures ViewAfter(streams(x), n, ne, x) == n.views[x].(state := PendingClose)
  {
    LostTurn(streams(x), n.views[x], HangUp);
  }

  lemma LostStep(streams: nat -> seq<Byte>, n: Net, ne: NetEvent, x: nat)
    requires Lost(streams, n, x) && NetEnabled(streams, n, ne)
    ensures var n' := NetNext(streams, n, ne);
            Lost(streams, n', x) && n'.views[x] == n.views[x].(state := n'.views[x].state)
  {
    NetStepKeepsInv(streams, n, ne);
    ViewsAre(streams, n, ne);
    if ne.e.Worker? {
      LostWorker(streams, n, ne, x);
    } else {
      LostMain(streams, n, ne, x);
    }
  }

  lemma {:induction false} LostForEver(streams: nat -> seq<Byte>, n: Net, nes: seq<NetEvent>, x: nat)
    requires Lost(streams, n, x) && NetLawful(streams, n, nes)
    ensures var n' := NetServe(streams, n, nes);
            x in n'.views && n'.views[x] == n.views[x].(state := n'.views[x].state)
    decreases |nes|
  {
    if nes != [] {
      LostStep(streams, n, nes[0], x);
      LostForEver(streams, NetNext(streams, n, nes[0]), nes[1..], x);
    }
  }

  /** Every frame of the stream has been handed over, and every reply completed. */
  ghost predicate AllAnswered(stream: seq<Byte>, v: View) {
    v.frames == Split(stream) && |v.segments| == |v.frames|
  }

  ghost predicate CanBeAnswered(streams: nat -> seq<Byte>, n: Net, x: nat) {
    exists nes :: NetLawful(streams, n, nes) && Answered(streams, NetServe(streams, n, nes), x)
  }

  ghost predicate Answered(streams: nat -> seq<Byte>, n: Net, x: nat) {
    x in n.views && AllAnswered(streams(x), n.views[x])
  }

  lemma LostKeepsAnswers(streams: nat -> seq<Byte>, n: Net, x: nat)
    requires Lost(streams, n, x)
    ensures CanBeAnswered(streams, n, x) <==> AllAnswered(streams(x), n.views[x])
  {
    if nes :| NetLawful(streams, n, nes) && Answered(streams, NetServe(streams, n, nes), x) {
      LostForEver(streams, n, nes, x);
    }
    if AllAnswered(streams(x), n.views[x]) {
      assert NetLawful(streams, n, []) && NetServe(streams, n, []) == n;
      assert Answered(streams, NetServe(streams, n, []), x);
    }
  }

  /** Exactly when every frame of a live connection can still be answered, in a loop that is
      not failing and with no hang-up of it in the round under way: it is open, or all of
      them have been. */
  lemma AnsweredExactly(streams: nat -> seq<Byte>, n: Net, x: nat)
    requires NetInv(streams, n) && Going(n.server) && x in n.server.ctxs && x in n.views
    requires Orders.MarkClosing(x) !in Orders.StillDue(n.server)
    ensures CanBeAnswered(streams, n, x) <==>
            n.server.ctxs[x].state != PendingClose || AllAnswered(streams(x), n.views[x])
  {
    if n.server.ctxs[x].state != PendingClose {
      AliveView(streams, n, x);
      var nes := ServerAnswersEveryFrame(streams, n, x);
      assert Answered(streams, NetServe(streams, n, nes), x);
    } else {
      LostKeepsAnswers(streams, n, x);
    }
  }

  // ---------------------------------------------------------------------------
  // From the start, and for a client that sends messages
  // ---------------------------------------------------------------------------

  lemma NetFromStart(streams: nat -> seq<Byte>, workers: nat, nes: seq<NetEvent>)
    requires workers > 0 && NetLawful(streams, InitNet(workers), nes)
    ensures var n := NetServe(streams, InitNet(workers), nes);
            NetInv(streams, n) && Schedules.Open(n.server.pool) && |n.server.pool.w| > 0
  {
    InitServerInv(workers);
    NetRunKeepsInv(streams, InitNet(workers), nes);
    var es := NetRefinesServer(streams, InitNet(workers), nes);
    ServeKeepsOpen(InitServer(workers), es);
  }

  /** In every state that the server reaches. */
  lemma ReachedClientsCanBeAnswered(streams: nat -> seq<Byte>, workers: nat, nes: seq<NetEvent>, x: nat)
    requires workers > 0 && NetLawful(streams, InitNet(workers), nes)
    requires var s := NetServe(streams, InitNet(workers), nes).server;
             x in s.ctxs && s.ctxs[x].state != PendingClose && !Failing(s)
    ensures var n := NetServe(streams, InitNet(workers), nes);
            && ServerInv(n.server)
            && (Orders.MarkClosing(x) !in Orders.StillDue(n.server) ==> CanBeAnswered(streams, n, x))
  {
    NetFromStart(streams, workers, nes);
    var n := NetServe(streams, InitNet(workers), nes);
    if Orders.MarkClosing(x) !in Orders.StillDue(n.server) {
      AnsweredExactly(streams, n, x);
    }
  }

  /** A client that sends messages, whole, one after the other, can be brought to read the
      answer to each of them, in order. */
  lemma ClientGetsItsAnswers(streams: nat -> seq<Byte>, n: Net, x: nat, cs: seq<Protocol.Call>) returns (nes: seq<NetEvent>)
    requires Alive(streams, n, x) && x in n.views && AllOneCall(n.views[x]) && n.views[x].sent == 0
    requires streams(x) == Flatten(Protocol.EncodedAll(Protocol.SentAll(cs)))
    ensures NetLawful(streams, n, nes)
    ensures var n' := NetServe(streams, n, nes);
            && x in n'.server.ctxs && x in n'.views
            && var wire := n'.views[x].wire;
               && |wire| == MESSAGE_SIZE * |cs|
               && forall i :: 0 <= i < |cs| ==>
                    Protocol.Parsed(wire[MESSAGE_SIZE * i..MESSAGE_SIZE * i + MESSAGE_SIZE]) == Protocol.Answer(cs[i])
  {
    AliveView(streams, n, x);
    nes := ServerAnswersEveryFrame(streams, n, x);
    Protocol.AnswersInOrder(cs);
  }
}
