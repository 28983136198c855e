/** The server with the bytes: every connection of every run of the server is a conversation. */
module ServerConnections {
  import opened Prelude
  import opened Framing
  import opened NetIo
  import opened ThreadPool
  import opened Server
  import opened ServerInvariant
  import ServerTheorems
  import Connection

  /** The server, and for each context it ever created what its socket and buffers hold. */
  datatype Net = Net(server: Server, views: map<nat, Connection.View>)

  /** An event of the server, with the results of the calls that a task body makes in it and
      the shutdown flag as that body reads it. */
  datatype NetEvent = NetEvent(e: Event, io: seq<IoEvent>, shutdown: bool)

  ghost function InitNet(workers: nat): Net {
    Net(InitServer(workers), map[])
  }

  /** The connection an event acts on and the turn it is for that connection, if any: a task
      body, or the main thread marking a hang-up. */
  ghost function TurnOf(s: Server, ne: NetEvent): Option<(nat, Connection.Turn)> {
    match ne.e
    case Worker(a, _) =>
      if RunsBody(s.pool, a) then Some((s.pool.w[a.i].t.ctx, TaskTurn(s.pool.w[a.i].t.fn, ne))) else None
    case Main(c) =>
      match s.main
      case HupHold(_, x) => Some((x, Connection.HangUp))
      case _ => None
  }

  ghost function TaskTurn(fn: Fn, ne: NetEvent): Connection.Turn {
    if fn.IoRead? then Connection.In(ne.io, ne.shutdown) else Connection.Out(ne.io, ne.shutdown)
  }

  /** What the turn of an event makes of the view of context x in its stream. */
  ghost function ViewAfter(stream: seq<Byte>, n: Net, ne: NetEvent, x: nat): Connection.View
    requires x in n.views && Connection.InRange(stream, n.views[x])
  {
    var turn := TurnOf(n.server, ne);
    if turn.Some? && turn.value.0 == x then Connection.Turned(stream, n.views[x], turn.value.1) else n.views[x]
  }

  ghost predicate AllInRange(streams: nat -> seq<Byte>, n: Net) {
    forall x :: x in n.views ==> Connection.InRange(streams(x), n.views[x])
  }

  /** A task body leaves its context in the state in which its turn leaves the connection. */
  ghost predicate NetEnabled(streams: nat -> seq<Byte>, n: Net, ne: NetEvent) {
    && EventEnabled(n.server, ne.e)
    && AllInRange(streams, n)
    && (ne.e.Worker? && RunsBody(n.server.pool, ne.e.a) ==>
          var x := n.server.pool.w[ne.e.a.i].t.ctx;
          x in n.views && ne.e.after == ViewAfter(streams(x), n, ne, x).state)
  }

  ghost function NetNext(streams: nat -> seq<Byte>, n: Net, ne: NetEvent): Net
    requires NetEnabled(streams, n, ne)
  {
    var s' := EventNext(n.server, ne.e);
    var views := map x | x in n.views :: ViewAfter(streams(x), n, ne, x);
    Net(s', if s'.nextId != n.server.nextId then views[n.server.nextId := Connection.START] else views)
  }

  ghost predicate NetLawful(streams: nat -> seq<Byte>, n: Net, nes: seq<NetEvent>)
    decreases |nes|
  {
    nes == [] || (NetEnabled(streams, n, nes[0]) && NetLawful(streams, NetNext(streams, n, nes[0]), nes[1..]))
  }

  ghost function NetServe(streams: nat -> seq<Byte>, n: Net, nes: seq<NetEvent>): Net
    requires NetLawful(streams, n, nes)
    decreases |nes|
  {
    if nes == [] then n else NetServe(streams, NetNext(streams, n, nes[0]), nes[1..])
  }

  // ---------------------------------------------------------------------------
  // States agree, and every view comes from turns
  // ---------------------------------------------------------------------------

  ghost predicate Conversation(stream: seq<Byte>, v: Connection.View) {
    exists turns :: Connection.TurnedAll(stream, Connection.START, turns) == v
  }

  ghost predicate ViewsConverse(streams: nat -> seq<Byte>, n: Net) {
    forall x :: x in n.views ==> x < n.server.nextId && Conversation(streams(x), n.views[x])
  }

  ghost predicate StatesAgree(n: Net) {
    forall x: nat :: x in n.server.ctxs ==> x in n.views && n.server.ctxs[x].state == n.views[x].state
  }

  ghost predicate NetInv(streams: nat -> seq<Byte>, n: Net) {
    ServerInv(n.server) && ViewsConverse(streams, n) && StatesAgree(n)
  }

  lemma ConversationTurn(stream: seq<Byte>, v: Connection.View, turn: Connection.Turn)
    requires Conversation(stream, v)
    ensures Connection.InRange(stream, v) && Connection.Consistent(stream, v)
    ensures Conversation(stream, Connection.Turned(stream, v, turn))
  {
    var turns :| Connection.TurnedAll(stream, Connection.START, turns) == v;
    Connection.TurnsKeep(stream, Connection.START, turns);
    Connection.TurnedConcat(stream, Connection.START, turns, [turn]);
    Connection.TurnedOne(stream, v, turn);
  }

  lemma StartConverses(stream: seq<Byte>)
    ensures Conversation(stream, Connection.START)
  {
    assert Connection.TurnedAll(stream, Connection.START, []) == Connection.START;
  }

  lemma WorkerMovesState(s: Server, a: Action, after: ConnState, x: nat)
    requires WorkerEventEnabled(s, a, after) && x in s.ctxs
    ensures WorkerEvent(s, a, after).ctxs[x].state ==
            if RunsBody(s.pool, a) && s.pool.w[a.i].t.ctx == x then after else s.ctxs[x].state
  {
  }

  lemma HangUpState(stream: seq<Byte>, v: Connection.View)
    requires Connection.InRange(stream, v)
    ensures Connection.Turned(stream, v, Connection.HangUp).state == PendingClose
  {
  }

  /** A main step turns the view of the context it marks closing, and no other. */
  lemma MainTurns(streams: nat -> seq<Byte>, n: Net, ne: NetEvent, x: nat)
    requires ne.e.Main? && x in n.views && Connection.InRange(streams(x), n.views[x])
    ensures ViewAfter(streams(x), n, ne, x).state ==
            if n.server.main.HupHold? && n.server.main.x == x then PendingClose else n.views[x].state
  {
    HangUpState(streams(x), n.views[x]);
  }

  /** Every event leaves a surviving context in the state of its view. */
  lemma EventMovesState(streams: nat -> seq<Byte>, n: Net, ne: NetEvent, x: nat)
    requires SlotInv(n.server) && NetEnabled(streams, n, ne)
    requires x in n.server.ctxs && x in EventNext(n.server, ne.e).ctxs
    requires x in n.views && n.server.ctxs[x].state == n.views[x].state
    ensures EventNext(n.server, ne.e).ctxs[x].state == ViewAfter(streams(x), n, ne, x).state
  {
    match ne.e {
      case Main(c) =>
        ServerTheorems.MainMovesState(n.server, c, x);
        MainTurns(streams, n, ne, x);
      case Worker(a, after) =>
        WorkerMovesState(n.server, a, after, x);
    }
  }

  /** Only accepting adds a context, in the reading state, under the next identity. */
  lemma EventAddsContext(s: Server, e: Event, x: nat)
    requires ServerInv(s) && EventEnabled(s, e) && x !in s.ctxs && x in EventNext(s, e).ctxs
    ensures x == s.nextId && EventNext(s, e).nextId == x + 1 && EventNext(s, e).ctxs[x].state == ReadHeader
  {
    match e {
      case Main(c) =>
        MainMovesTable(s, c);
        AcceptAdds(s, c, x);
      case Worker(a, after) =>
        WorkerEventFrame(s, a, after);
    }
  }

  lemma AcceptAdds(s: Server, c: Choice, x: nat)
    requires MainEnabled(s, c) && x !in s.ctxs && x in MainNext(s, c).ctxs
    ensures MainNext(s, c).ctxs[x] == Ctx(0, ReadHeader, 0) && MainNext(s, c).nextId == s.nextId + 1
  {
    MainNextIs(s, c);
    MainMovesKeys(s, c);
    assert s.main.Accept?;
  }

  /** The views after an event: one turn at most, and a new one for a new context. */
  lemma ViewsAre(streams: nat -> seq<Byte>, n: Net, ne: NetEvent)
    requires NetEnabled(streams, n, ne)
    ensures var n' := NetNext(streams, n, ne);
            && n'.server == EventNext(n.server, ne.e)
            && n'.views.Keys == n.views.Keys + (if n'.server.nextId != n.server.nextId then {n.server.nextId} else {})
            && (n'.server.nextId != n.server.nextId ==> n'.views[n.server.nextId] == Connection.START)
            && (forall x :: x in n.views && x < n.server.nextId ==> n'.views[x] == ViewAfter(streams(x), n, ne, x))
  {
  }

  lemma ViewConverses(stream: seq<Byte>, n: Net, ne: NetEvent, x: nat)
    requires x in n.views && Conversation(stream, n.views[x]) && Connection.InRange(stream, n.views[x])
    ensures Conversation(stream, ViewAfter(stream, n, ne, x))
  {
    var turn := TurnOf(n.server, ne);
    if turn.Some? && turn.value.0 == x {
      ConversationTurn(stream, n.views[x], turn.value.1);
    }
  }

  lemma ViewsKeep(streams: nat -> seq<Byte>, n: Net, ne: NetEvent)
    requires ViewsConverse(streams, n) && NetEnabled(streams, n, ne)
    requires n.server.nextId <= EventNext(n.server, ne.e).nextId
    ensures ViewsConverse(streams, NetNext(streams, n, ne))
  {
    var n' := NetNext(streams, n, ne);
    ViewsAre(streams, n, ne);
    forall x | x in n'.views ensures x < n'.server.nextId && Conversation(streams(x), n'.views[x]) {
      if x in n.views {
        ViewConverses(streams(x), n, ne, x);
      } else {
        StartConverses(streams(x));
      }
    }
  }

  lemma StatesKeep(streams: nat -> seq<Byte>, n: Net, ne: NetEvent, x: nat)
    requires ServerInv(n.server) && StatesAgree(n) && NetEnabled(streams, n, ne)
    requires x in NetNext(streams, n, ne).server.ctxs
    ensures var n' := NetNext(streams, n, ne); x in n'.views && n'.server.ctxs[x].state == n'.views[x].state
  {
    ViewsAre(streams, n, ne);
    if x in n.server.ctxs {
      assert x < n.server.nextId;
      EventMovesState(streams, n, ne, x);
    } else {
      EventAddsContext(n.server, ne.e, x);
    }
  }

  lemma NetStepKeepsInv(streams: nat -> seq<Byte>, n: Net, ne: NetEvent)
    requires NetInv(streams, n) && NetEnabled(streams, n, ne)
    ensures NetInv(streams, NetNext(streams, n, ne))
  {
    var n' := NetNext(streams, n, ne);
    EventKeepsInv(n.server, ne.e);
    ServerTheorems.EventKeepsFate(n.server, ne.e, 0);
    ViewsKeep(streams, n, ne);
    forall x: nat | x in n'.server.ctxs ensures x in n'.views && n'.server.ctxs[x].state == n'.views[x].state {
      StatesKeep(streams, n, ne, x);
    }
  }

  lemma {:induction false} NetRunKeepsInv(streams: nat -> seq<Byte>, n: Net, nes: seq<NetEvent>)
    requires NetInv(streams, n) && NetLawful(streams, n, nes)
    ensures NetInv(streams, NetServe(streams, n, nes))
    decreases |nes|
  {
    if nes != [] {
      NetStepKeepsInv(streams, n, nes[0]);
      NetRunKeepsInv(streams, NetNext(streams, n, nes[0]), nes[1..]);
    }
  }

  /** In every run of the server from its start, whatever its clients send and however the
      bytes arrive: what a live connection has read, handed over and sent is what some turns
      of a single connection make of its stream, and its state is the one the server sees. So
      the frames answered are a prefix of the frames sent, and the bytes on the wire are eleven
      per completed reply and those of the one under way. */
  lemma EveryConnectionConverses(streams: nat -> seq<Byte>, workers: nat, nes: seq<NetEvent>, x: nat)
    requires NetLawful(streams, InitNet(workers), nes)
    requires x in NetServe(streams, InitNet(workers), nes).server.ctxs
    ensures var n := NetServe(streams, InitNet(workers), nes);
            && x in n.views
            && var v := n.views[x];
            && Conversation(streams(x), v) && n.server.ctxs[x].state == v.state
            && v.frames <= Split(streams(x))
            && |v.wire| == MESSAGE_SIZE * |v.segments| + v.sent
  {
    InitServerInv(workers);
    NetRunKeepsInv(streams, InitNet(workers), nes);
    var v := NetServe(streams, InitNet(workers), nes).views[x];
    var turns :| Connection.TurnedAll(streams(x), Connection.START, turns) == v;
    Connection.AnyRun(streams(x), turns);
  }

  // ---------------------------------------------------------------------------
  // These are the server's own runs
  // ---------------------------------------------------------------------------

  lemma {:induction false} NetRefinesServer(streams: nat -> seq<Byte>, n: Net, nes: seq<NetEvent>)
    returns (es: seq<Event>)
    requires NetLawful(streams, n, nes)
    ensures Lawful(n.server, es) && Serve(n.server, es) == NetServe(streams, n, nes).server
    decreases |nes|
  {
    if nes == [] {
      es := [];
    } else {
      var rest := NetRefinesServer(streams, NetNext(streams, n, nes[0]), nes[1..]);
      es := [nes[0].e] + rest;
      assert es[1..] == rest;
    }
  }

  /** What a body's turn does to its view is among the moves of that body. */
  lemma TurnIsAllowed(stream: seq<Byte>, v: Connection.View, fn: Fn, ne: NetEvent)
    requires Conversation(stream, v) && Connection.InRange(stream, v)
    ensures BodyMoves(fn, v.state, Connection.Turned(stream, v, TaskTurn(fn, ne)).state)
  {
    ConversationTurn(stream, v, Connection.HangUp);
    ServerTheorems.TasksMoveAsAllowed(stream, v, ne.io, ne.shutdown);
  }

  lemma BodyCanRun(s: Server, i: nat, after: ConnState)
    requires i < |s.pool.w| && s.pool.w[i].Body? && s.pool.w[i].t.ctx in s.ctxs
    requires BodyMoves(s.pool.w[i].t.fn, s.ctxs[s.pool.w[i].t.ctx].state, after)
    ensures WorkerEventEnabled(s, WorkerStep(i, {}), after)
  {
  }

  lemma InvInRange(streams: nat -> seq<Byte>, n: Net)
    requires ViewsConverse(streams, n)
    ensures AllInRange(streams, n)
  {
    forall x | x in n.views ensures Connection.InRange(streams(x), n.views[x]) {
      ConversationTurn(streams(x), n.views[x], Connection.HangUp);
    }
  }

  /** Nothing the server may do is lost by looking at the bytes: a worker at a task body may
      run it with any results of its calls. */
  lemma AnyScriptCanRun(streams: nat -> seq<Byte>, n: Net, i: nat, io: seq<IoEvent>, shutdown: bool)
    returns (ne: NetEvent)
    requires NetInv(streams, n) && i < |n.server.pool.w| && n.server.pool.w[i].Body?
    ensures ne.io == io && ne.shutdown == shutdown && ne.e.Worker? && ne.e.a == WorkerStep(i, {})
    ensures NetEnabled(streams, n, ne)
  {
    var t := n.server.pool.w[i].t;
    CarriedIsOutstanding(n.server.pool, i);
    assert t.ctx in n.server.ctxs;
    InvInRange(streams, n);
    ne := ScriptEvent(streams, n, i, io, shutdown);
  }

  lemma ScriptEvent(streams: nat -> seq<Byte>, n: Net, i: nat, io: seq<IoEvent>, shutdown: bool)
    returns (ne: NetEvent)
    requires ViewsConverse(streams, n) && StatesAgree(n) && AllInRange(streams, n)
    requires i < |n.server.pool.w| && n.server.pool.w[i].Body? && n.server.pool.w[i].t.ctx in n.server.ctxs
    ensures ne.io == io && ne.shutdown == shutdown && ne.e.Worker? && ne.e.a == WorkerStep(i, {})
    ensures NetEnabled(streams, n, ne)
  {
    var t := n.server.pool.w[i].t;
    var v := n.views[t.ctx];
    ne := NetEvent(Worker(WorkerStep(i, {}), PendingClose), io, shutdown);
    TurnIsAllowed(streams(t.ctx), v, t.fn, ne);
    var after := Connection.Turned(streams(t.ctx), v, TaskTurn(t.fn, ne)).state;
    BodyCanRun(n.server, i, after);
    ne := NetEvent(Worker(WorkerStep(i, {}), after), io, shutdown);
  }
}
