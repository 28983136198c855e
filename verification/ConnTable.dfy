/**
 * The connection table as values: an array of contexts and a parallel array of poll
 * entries, each grown and compacted by its own code, fed from a list of new connections.
 */
module ConnTable {
  import opened Prelude
  import opened Compaction
  import EzArray

  /** A pointer to a context: null, or the context with this identity and descriptor. */
  datatype Ref = Null | Conn(id: nat, fd: int)

  /** A poll entry; descriptor 0 marks it empty. */
  datatype PollFd = PollFd(fd: int, events: nat, revents: nat)

  const ZERO := PollFd(0, 0, 0)

  const POLLIN := 1
  const POLLOUT := 4
  const POLLERR := 8
  const POLLHUP := 16
  const POLLNVAL := 32
  const EVENTS := POLLIN + POLLOUT + POLLHUP + POLLERR + POLLNVAL

  /** A poll entry asks to be told of this event. Errors and hang-ups are reported unasked. */
  predicate Asks(p: PollFd, event: nat)
    requires event > 0
  {
    p.events / event % 2 == 1
  }

  /** `numItems` counts the context array, `numActive` and `maxConns` the poll array; `ringCap`
      is the capacity of the queue of new connections. */
  datatype Table = Table(conns: seq<Ref>, numItems: nat, pfds: seq<PollFd>, maxConns: nat, numActive: nat,
                         pending: seq<Ref>, ringCap: nat)

  /** What the two reallocations of one insertion return: success and the new memory. */
  datatype Memory = Memory(connsOk: bool, connsJunk: nat -> Ref, pfdsOk: bool, pfdsJunk: nat -> PollFd)

  // ---------------------------------------------------------------------------
  // Operations
  // ---------------------------------------------------------------------------

  ghost function Used(pfds: seq<PollFd>): (p: seq<bool>)
    ensures |p| == |pfds|
    ensures forall i :: 0 <= i < |p| ==> (p[i] <==> pfds[i].fd != 0)
  {
    Pattern(pfds, (p: PollFd) => p.fd != 0)
  }

  /** The sweep destroys the contexts in `dead` and empties their slots in both arrays. */
  ghost predicate Doomed(t: Table, dead: set<nat>, i: nat) {
    i < |t.conns| && i < t.numActive && t.conns[i].Conn? && t.conns[i].id in dead
  }

  ghost function Swept(t: Table, dead: set<nat>): (r: Table)
    requires |t.conns| == |t.pfds|
    ensures |r.conns| == |t.conns| && |r.pfds| == |t.pfds|
    ensures forall i :: 0 <= i < |t.conns| ==> r.conns[i] == if Doomed(t, dead, i) then Null else t.conns[i]
    ensures forall i :: 0 <= i < |t.pfds| ==> r.pfds[i] == if Doomed(t, dead, i) then ZERO else t.pfds[i]
    ensures r == t.(conns := r.conns, pfds := r.pfds)
  {
    t.(conns := seq(|t.conns|, i requires 0 <= i < |t.conns| => if Doomed(t, dead, i) then Null else t.conns[i]),
       pfds := seq(|t.pfds|, i requires 0 <= i < |t.pfds| => if Doomed(t, dead, i) then ZERO else t.pfds[i]))
  }

  /** Both arrays compacted, each by its own loop and its own test for emptiness. */
  ghost function Compacted(t: Table): Table {
    var p, q := EzArray.NotSentinel(t.conns, Null), Used(t.pfds);
    t.(conns := Compact(t.conns, p, Null), numItems := |Pick(t.conns, p)|,
       pfds := Compact(t.pfds, q, ZERO), numActive := |Pick(t.pfds, q)|)
  }

  /** An array with an item put at index n, grown first if it is full. */
  ghost function Put<T>(s: seq<T>, n: nat, x: T, junk: nat -> T): seq<T>
    requires 0 < |s| && n <= |s| && (n < |s| || |s| < UINT16_MAX)
  {
    if n < |s| then s[n := x] else EzArray.Realloc(s, Grown(|s|), junk)[n := x]
  }

  /** Both counts and both capacities agree, and nobody waits with a null pointer. */
  ghost predicate Shape(t: Table) {
    && 0 < |t.conns| == |t.pfds| == t.maxConns <= UINT16_MAX
    && t.numItems == t.numActive <= |t.conns|
    && 0 < t.ringCap <= UINT16_MAX && |t.pending| <= t.ringCap
    && (forall i :: 0 <= i < |t.pending| ==> t.pending[i].Conn?)
  }

  /** The insertion into the context array finds room or memory. */
  ghost predicate PushSucceeds(t: Table, m: Memory) {
    t.numItems < |t.conns| || (|t.conns| < UINT16_MAX && m.connsOk)
  }

  /** Both insertions do. */
  ghost predicate AddSucceeds(t: Table, m: Memory) {
    t.numItems < |t.conns| || (|t.conns| < UINT16_MAX && m.connsOk && m.pfdsOk)
  }

  /** Moving the oldest new connection into the table, when both insertions succeed. */
  ghost function Added(t: Table, m: Memory): (r: Table)
    requires Shape(t) && t.pending != [] && AddSucceeds(t, m)
    ensures Shape(r) && |r.pending| < |t.pending|
  {
    var x := t.pending[0];
    var conns := Put(t.conns, t.numItems, x, m.connsJunk);
    Table(conns, t.numItems + 1, Put(t.pfds, t.numActive, PollFd(x.fd, EVENTS, 0), m.pfdsJunk), |conns|,
          t.numActive + 1, t.pending[1..], t.ringCap)
  }

  /** What an insertion that fails leaves: the connection is no longer waiting, and it is in
      the context array if only the poll array had no memory. */
  ghost function Dropped(t: Table, m: Memory): Table
    requires Shape(t) && t.pending != []
  {
    if PushSucceeds(t, m) then
      t.(conns := Put(t.conns, t.numItems, t.pending[0], m.connsJunk), numItems := t.numItems + 1, pending := t.pending[1..])
    else
      t.(pending := t.pending[1..])
  }

  /** All new connections, oldest first, until an insertion fails. `mem` gives the memory for
      the insertion that leaves a given number of them waiting. */
  ghost function AddedAll(t: Table, mem: nat -> Memory): (r: (Table, bool))
    requires Shape(t)
    decreases |t.pending|
  {
    if t.pending == [] then (t, true)
    else
      var m := mem(|t.pending| - 1);
      if AddSucceeds(t, m) then AddedAll(Added(t, m), mem) else (Dropped(t, m), false)
  }

  // ---------------------------------------------------------------------------
  // Alignment
  // ---------------------------------------------------------------------------

  /** One slot of each array: both empty, or a context and its own descriptor, polled for input
      and for output. */
  ghost predicate SlotsAgree(c: Ref, p: PollFd) {
    (c.Null? <==> p.fd == 0) && (c.Conn? ==> p.fd == c.fd && Asks(p, POLLIN) && Asks(p, POLLOUT))
  }

  ghost predicate Aligned(t: Table) {
    && Shape(t)
    && (forall i :: 0 <= i < |t.conns| ==> SlotsAgree(t.conns[i], t.pfds[i]))
    && (forall i :: t.numActive <= i < |t.conns| ==> t.conns[i].Null?)
    && (forall i :: 0 <= i < |t.pending| ==> t.pending[i].fd > 0)
  }

  /** No hole among the active slots: the state after every update. */
  ghost predicate Dense(t: Table) {
    forall i :: 0 <= i < t.numActive && i < |t.conns| ==> t.conns[i].Conn?
  }

  /** The active connections in table order. */
  ghost function Live(t: Table): seq<Ref>
    requires t.numActive <= |t.conns|
  {
    t.conns[..t.numActive]
  }

  ghost predicate GrownSlotsEmpty(m: Memory) {
    forall i: nat :: m.connsJunk(i) == Null && m.pfdsJunk(i).fd == 0
  }

  lemma SweepKeepsAligned(t: Table, dead: set<nat>)
    requires Aligned(t)
    ensures Aligned(Swept(t, dead))
  {
  }

  /** With the same pattern of emptiness, picking keeps the slots of both arrays in step. */
  lemma {:induction false} PickInStep(c: seq<Ref>, p: seq<PollFd>, keep: seq<bool>)
    requires |c| == |p| == |keep|
    requires forall i :: 0 <= i < |c| ==> SlotsAgree(c[i], p[i]) && (keep[i] <==> c[i].Conn?)
    ensures |Pick(c, keep)| == |Pick(p, keep)|
    ensures forall j :: 0 <= j < |Pick(c, keep)| ==> SlotsAgree(Pick(c, keep)[j], Pick(p, keep)[j]) && Pick(c, keep)[j].Conn?
  {
    if c != [] {
      var n := |c| - 1;
      PickInStep(c[..n], p[..n], keep[..n]);
    }
  }

  /** Compaction of both arrays keeps them aligned, leaves no hole, and keeps the surviving
      connections in order. */
  lemma CompactKeepsAligned(t: Table)
    requires Aligned(t)
    ensures Aligned(Compacted(t)) && Dense(Compacted(t))
    ensures Live(Compacted(t)) == Pick(t.conns, EzArray.NotSentinel(t.conns, Null))
  {
    var p, q := EzArray.NotSentinel(t.conns, Null), Used(t.pfds);
    assert p == q;
    PickInStep(t.conns, t.pfds, p);
  }

  /** The same for the poll entries and their own test. */
  lemma UsedCompactedOnce(pfds: seq<PollFd>)
    ensures var q := Used(pfds);
            var r := Compact(pfds, q, ZERO);
            && (forall i :: 0 <= i < |r| ==> (r[i].fd != 0 <==> i < |Pick(pfds, q)|))
            && Pick(r, Used(r)) == Pick(pfds, q)
            && Compact(r, Used(r), ZERO) == r
  {
    CompactTwice(pfds, ZERO, (p: PollFd) => p.fd != 0);
  }

  /** Removing closed connections a second time changes nothing in the table, aligned or not. */
  lemma CompactedTwice(t: Table)
    ensures Compacted(Compacted(t)) == Compacted(t)
  {
    EzArray.CompactedOnce(t.conns, Null);
    UsedCompactedOnce(t.pfds);
  }

  /** Inserting into a table that has room keeps it aligned and dense. When the arrays have
      to grow, what the new memory holds decides: alignment survives exactly if every grown
      slot behind the insertion is empty in both arrays. */
  lemma AddKeepsAligned(t: Table, m: Memory)
    requires Aligned(t) && Dense(t) && t.pending != [] && AddSucceeds(t, m)
    ensures var t' := Added(t, m);
            && t'.numActive == t.numActive + 1 && Dense(t') && Live(t') == Live(t) + [t.pending[0]]
            && (Aligned(t') <==> forall i: nat :: t.numActive < i < |t'.conns| && t.numActive == |t.conns| ==>
                                   m.connsJunk(i).Null? && m.pfdsJunk(i).fd == 0)
  {
    var t' := Added(t, m);
    if t.numActive == |t.conns| {
      forall i: nat | t.numActive < i < |t'.conns| && !(m.connsJunk(i).Null? && m.pfdsJunk(i).fd == 0)
        ensures !Aligned(t')
      {
        assert t'.conns[i] == m.connsJunk(i) && t'.pfds[i] == m.pfdsJunk(i);
        assert Aligned(t') ==> t'.conns[i].Null? && SlotsAgree(t'.conns[i], t'.pfds[i]);
      }
    }
  }

  /** An insertion that fails keeps the arrays aligned exactly if it failed in the first of
      them; otherwise the context array is one item ahead and has grown alone. */
  lemma FailedAddAligned(t: Table, m: Memory)
    requires Aligned(t) && t.pending != [] && !AddSucceeds(t, m)
    ensures Aligned(Dropped(t, m)) <==> !PushSucceeds(t, m)
    ensures PushSucceeds(t, m) ==> Dropped(t, m).numItems == Dropped(t, m).numActive + 1
    ensures PushSucceeds(t, m) ==> |Dropped(t, m).conns| > |Dropped(t, m).pfds|
  {
    assert forall i :: 0 <= i < |t.pending[1..]| ==> t.pending[1..][i] == t.pending[i + 1];
  }

  // ---------------------------------------------------------------------------
  // Whole rounds of the main loop
  // ---------------------------------------------------------------------------

  /** The cap as the accept loop tests it leaves room for one more than the constant, and
      with a first capacity of 16 no array ever passes 2048 slots. */
  ghost predicate Capped(t: Table) {
    && t.numActive + |t.pending| <= MAX_CONNECTIONS + 1
    && |t.conns| <= 2048 && t.ringCap <= 2048
  }

  ghost predicate Good(t: Table) {
    Aligned(t) && Dense(t) && Capped(t)
  }

  lemma AddKeepsGood(t: Table, m: Memory)
    requires Good(t) && t.pending != [] && AddSucceeds(t, m) && (t.numActive < |t.conns| || GrownSlotsEmpty(m))
    ensures Good(Added(t, m)) && Live(Added(t, m)) == Live(t) + [t.pending[0]]
  {
    AddKeepsAligned(t, m);
  }

  /** The new connections fit the arrays as they are, or all new memory is empty. */
  ghost predicate Roomy(t: Table, mem: nat -> Memory) {
    t.numActive + |t.pending| <= |t.conns| || forall i: nat :: GrownSlotsEmpty(mem(i))
  }

  /** No insertion fails if there is room for all of them, and then nothing grows; or if all
      have memory and the count stays below the largest capacity. */
  lemma {:induction false} AddedAllSucceeds(t: Table, mem: nat -> Memory)
    requires Shape(t)
    ensures t.numActive + |t.pending| <= |t.conns| ==> AddedAll(t, mem).1 && |AddedAll(t, mem).0.conns| == |t.conns|
    ensures (forall i: nat :: mem(i).connsOk && mem(i).pfdsOk) && t.numActive + |t.pending| <= UINT16_MAX ==>
              AddedAll(t, mem).1
    decreases |t.pending|
  {
    if t.pending != [] {
      var m := mem(|t.pending| - 1);
      if AddSucceeds(t, m) {
        assert t.numItems < |t.conns| ==> |Added(t, m).conns| == |t.conns|;
        AddedAllSucceeds(Added(t, m), mem);
      }
    }
  }

  lemma AddedStaysRoomy(t: Table, m: Memory, mem: nat -> Memory)
    requires Good(t) && Roomy(t, mem) && t.pending != [] && m == mem(|t.pending| - 1) && AddSucceeds(t, m)
    ensures var t1 := Added(t, m);
            Good(t1) && Roomy(t1, mem) && Live(t1) + t1.pending == Live(t) + t.pending
  {
    AddKeepsGood(t, m);
    assert t.pending == [t.pending[0]] + t.pending[1..];
  }

  /** Taking in all new connections, if no insertion fails, keeps the table good and puts them
      behind the others in order. */
  lemma {:induction false} AddedAllGood(t: Table, mem: nat -> Memory)
    requires Good(t) && Roomy(t, mem)
    ensures var (r, ok) := AddedAll(t, mem);
            ok ==> Good(r) && r.pending == [] && Live(r) == Live(t) + t.pending
    decreases |t.pending|
  {
    if t.pending != [] {
      var m := mem(|t.pending| - 1);
      if AddSucceeds(t, m) {
        AddedStaysRoomy(t, m, mem);
        AddedAllGood(Added(t, m), mem);
      }
    }
  }

  /** A connection that arrives, and whether memory is found for its context, for the two
      buffers of the context, and for the queue if that has to grow. */
  datatype Arrival = Arrival(ref: Ref, structOk: bool, buffersOk: bool, queueOk: bool)

  /** Creating one connection, and what is reported. Without memory for a buffer nothing is
      queued and success is reported. */
  ghost function Created(t: Table, a: Arrival): (Table, bool) {
    if !a.structOk then (t, false)
    else if !a.buffersOk then (t, true)
    else if |t.pending| < t.ringCap then (t.(pending := t.pending + [a.ref]), true)
    else if t.ringCap < UINT16_MAX && a.queueOk then
      (t.(pending := t.pending + [a.ref], ringCap := Grown(t.ringCap)), true)
    else (t, false)
  }

  /** The accept loop goes on until nobody waits or the cap is met, tested by equality, or a
      creation reports failure. */
  ghost function Accepted(t: Table, arrivals: seq<Arrival>): (Table, bool)
    decreases |arrivals|
  {
    if arrivals == [] || MAX_CONNECTIONS - t.numActive - |t.pending| + 1 == 0 then (t, true)
    else
      var (t', ok) := Created(t, arrivals[0]);
      if ok then Accepted(t', arrivals[1..]) else (t', false)
  }

  ghost predicate Fresh(refs: seq<Ref>) {
    forall i :: 0 <= i < |refs| ==> refs[i].Conn? && refs[i].fd > 0
  }

  ghost predicate FreshArrivals(arrivals: seq<Arrival>) {
    forall i :: 0 <= i < |arrivals| ==> arrivals[i].ref.Conn? && arrivals[i].ref.fd > 0
  }

  /** The arrivals that find memory for their buffers, in order. */
  ghost function Made(arrivals: seq<Arrival>): (r: seq<Ref>)
    ensures |r| <= |arrivals|
  {
    if arrivals == [] then [] else (if arrivals[0].buffersOk then [arrivals[0].ref] else []) + Made(arrivals[1..])
  }

  lemma CreatedKeepsGood(t: Table, a: Arrival)
    requires Good(t) && a.ref.Conn? && a.ref.fd > 0 && MAX_CONNECTIONS - t.numActive - |t.pending| + 1 != 0
    ensures var (r, ok) := Created(t, a);
            && Good(r) && r == t.(pending := r.pending, ringCap := r.ringCap)
            && (ok ==> r.pending == t.pending + Made([a]))
            && (!ok ==> r == t && (!a.structOk || (a.buffersOk && !a.queueOk)))
  {
    assert [a][1..] == [];
    assert Made([a]) == if a.buffersOk then [a.ref] else [];
  }

  /** With nobody created yet: the loop has come to its end, or to an arrival that fails. */
  lemma AcceptStops(t: Table, arrivals: seq<Arrival>)
    requires Good(t) && FreshArrivals(arrivals)
    requires arrivals == [] || MAX_CONNECTIONS - t.numActive - |t.pending| + 1 == 0 || !Created(t, arrivals[0]).1
    ensures Accepted(t, arrivals) == (t, arrivals == [] || MAX_CONNECTIONS - t.numActive - |t.pending| + 1 == 0)
    ensures Made(arrivals[..0]) == []
    ensures !Accepted(t, arrivals).1 ==>
              arrivals != [] && (!arrivals[0].structOk || (arrivals[0].buffersOk && !arrivals[0].queueOk))
  {
    if arrivals != [] && MAX_CONNECTIONS - t.numActive - |t.pending| + 1 != 0 {
      CreatedKeepsGood(t, arrivals[0]);
    }
  }

  /** The accept loop keeps the table good; it has queued, in order, the first n arrivals but
      for those without memory for their buffers, and n falls short of all only at the cap or
      at an arrival that reports failure. */
  lemma {:induction false} AcceptKeepsGood(t: Table, arrivals: seq<Arrival>) returns (n: nat)
    requires Good(t) && FreshArrivals(arrivals)
    ensures n <= |arrivals|
    ensures var (r, ok) := Accepted(t, arrivals);
            && Good(r) && r == t.(pending := r.pending, ringCap := r.ringCap)
            && r.pending == t.pending + Made(arrivals[..n])
            && (ok && n < |arrivals| ==> r.numActive + |r.pending| == MAX_CONNECTIONS + 1)
            && (!ok ==> n < |arrivals| && (!arrivals[n].structOk || (arrivals[n].buffersOk && !arrivals[n].queueOk)))
    decreases |arrivals|
  {
    if arrivals == [] || MAX_CONNECTIONS - t.numActive - |t.pending| + 1 == 0 || !Created(t, arrivals[0]).1 {
      n := 0;
      AcceptStops(t, arrivals);
    } else {
      CreatedKeepsGood(t, arrivals[0]);
      var t' := Created(t, arrivals[0]).0;
      n := AcceptKeepsGood(t', arrivals[1..]);
      n := n + 1;
      MadeCons(arrivals, n);
    }
  }

  lemma MadeCons(arrivals: seq<Arrival>, n: nat)
    requires 0 < n <= |arrivals|
    ensures Made(arrivals[..n]) == Made([arrivals[0]]) + Made(arrivals[1..][..n - 1])
  {
    assert arrivals[..n][1..] == arrivals[1..][..n - 1];
    assert [arrivals[0]][1..] == [];
  }

  /** One round: sweep, update, accept. */
  datatype Round = Round(dead: set<nat>, mem: nat -> Memory, arrivals: seq<Arrival>)

  /** Which of the live connections a sweep spares. */
  ghost function Spared(live: seq<Ref>, dead: set<nat>): (p: seq<bool>)
    ensures |p| == |live|
    ensures forall i :: 0 <= i < |p| ==> (p[i] <==> !(live[i].Conn? && live[i].id in dead))
  {
    seq(|live|, i requires 0 <= i < |live| => !(live[i].Conn? && live[i].id in dead))
  }

  /** What a compaction after a sweep picks are the spared connections, in order. */
  lemma SweptPick(t: Table, dead: set<nat>)
    requires Aligned(t) && Dense(t)
    ensures var c := Swept(t, dead).conns;
            Pick(c, EzArray.NotSentinel(c, Null)) == Pick(Live(t), Spared(Live(t), dead))
  {
    var c, n := Swept(t, dead).conns, t.numActive;
    var p := EzArray.NotSentinel(c, Null);
    PickFront(c, p, n);
    assert p[..n] == Spared(Live(t), dead);
    PickSame(c[..n], Live(t), p[..n]);
  }

  /** Sweeping and compacting removes exactly the dead and keeps the rest in order. */
  lemma SweepCompactLive(t: Table, dead: set<nat>)
    requires Good(t)
    ensures var r := Compacted(Swept(t, dead));
            Good(r) && r.pending == t.pending && Live(r) == Pick(Live(t), Spared(Live(t), dead))
  {
    SweepKeepsAligned(t, dead);
    CompactKeepsAligned(Swept(t, dead));
    SweptPick(t, dead);
    assert |Live(Compacted(Swept(t, dead)))| <= t.numActive;
  }

  /** The table that an update of this round starts from. */
  ghost function Remaining(t: Table, dead: set<nat>): Table
    requires |t.conns| == |t.pfds|
  {
    Compacted(Swept(t, dead))
  }

  /** What one round leaves when no insertion fails. */
  ghost function After(t: Table, r: Round): Table
    requires Shape(t) && Shape(Remaining(t, r.dead))
  {
    Accepted(AddedAll(Remaining(t, r.dead), r.mem).0, r.arrivals).0
  }

  /** A round in which no insertion fails and memory that arrays grow onto is empty. */
  ghost predicate Sound(t: Table, r: Round)
    requires Good(t)
  {
    SweepCompactLive(t, r.dead);
    && FreshArrivals(r.arrivals)
    && Roomy(Remaining(t, r.dead), r.mem)
    && AddedAll(Remaining(t, r.dead), r.mem).1
  }

  /** What the live connections are after one round: the survivors in order, then those
      that were waiting, in order; and those now waiting are the first of the arrivals that
      could be created. */
  lemma RoundLive(t: Table, r: Round) returns (n: nat)
    requires Good(t) && Sound(t, r)
    ensures Shape(Remaining(t, r.dead)) && Good(After(t, r))
    ensures n <= |r.arrivals|
    ensures var t' := After(t, r);
            && Live(t') == Pick(Live(t), Spared(Live(t), r.dead)) + t.pending
            && t'.pending == Made(r.arrivals[..n])
  {
    SweepCompactLive(t, r.dead);
    var s := Remaining(t, r.dead);
    AddedAllGood(s, r.mem);
    var u := AddedAll(s, r.mem).0;
    n := AcceptKeepsGood(u, r.arrivals);
    assert [] + Made(r.arrivals[..n]) == Made(r.arrivals[..n]);
  }

  lemma RoundKeepsGood(t: Table, r: Round)
    requires Good(t) && Sound(t, r)
    ensures Shape(Remaining(t, r.dead)) && Good(After(t, r))
  {
    var n := RoundLive(t, r);
  }

  ghost predicate SoundRun(t: Table, rs: seq<Round>)
    requires Good(t)
    decreases |rs|
  {
    rs == [] || (Sound(t, rs[0]) && (RoundKeepsGood(t, rs[0]); SoundRun(After(t, rs[0]), rs[1..])))
  }

  ghost function Rounds(t: Table, rs: seq<Round>): Table
    requires Good(t) && SoundRun(t, rs)
    decreases |rs|
  {
    if rs == [] then t else (RoundKeepsGood(t, rs[0]); Rounds(After(t, rs[0]), rs[1..]))
  }

  /** The table as initialised, with the listener and the signal pipe waiting. */
  ghost function InitTable(listener: Ref, pipe: Ref): Table {
    Table(seq(16, _ => Null), 0, seq(16, _ => ZERO), 16, 0, [listener, pipe], 16)
  }

  /** Over any run of sound rounds: the two arrays stay aligned and dense, active and waiting
      connections never pass 1025, and the capacity never passes 2048. */
  lemma {:induction false} RoundsKeepGood(t: Table, rs: seq<Round>)
    requires Good(t) && SoundRun(t, rs)
    ensures Aligned(Rounds(t, rs)) && Dense(Rounds(t, rs))
    ensures Rounds(t, rs).numActive + |Rounds(t, rs).pending| <= MAX_CONNECTIONS + 1
    ensures |Rounds(t, rs).conns| <= 2048 && Rounds(t, rs).ringCap <= 2048
    decreases |rs|
  {
    if rs != [] {
      RoundKeepsGood(t, rs[0]);
      RoundsKeepGood(After(t, rs[0]), rs[1..]);
    }
  }

  lemma InitTableGood(listener: Ref, pipe: Ref)
    requires Fresh([listener, pipe])
    ensures Good(InitTable(listener, pipe))
  {
    assert [listener, pipe][0] == listener && [listener, pipe][1] == pipe;
  }

  /** So it is over every sound run of the server from its first table. */
  lemma {:induction false} RoundsFromStart(listener: Ref, pipe: Ref, rs: seq<Round>)
    requires Fresh([listener, pipe]) && Good(InitTable(listener, pipe)) && SoundRun(InitTable(listener, pipe), rs)
    ensures var t := Rounds(InitTable(listener, pipe), rs);
            && Aligned(t) && Dense(t) && t.numActive + |t.pending| <= MAX_CONNECTIONS + 1
            && t.maxConns <= 2048 && t.ringCap <= 2048
  {
    RoundsKeepGood(InitTable(listener, pipe), rs);
  }

  // ---------------------------------------------------------------------------
  // Without growth nothing needs to be assumed about memory
  // ---------------------------------------------------------------------------

  ghost function Arrivals(rs: seq<Round>): nat {
    if rs == [] then 0 else |rs[0].arrivals| + Arrivals(rs[1..])
  }

  /** A round whose connections fit is sound and grows nothing. */
  lemma NoGrowthRound(t: Table, r: Round)
    requires Good(t) && t.numActive + |t.pending| <= |t.conns| && FreshArrivals(r.arrivals)
    ensures Sound(t, r) && Shape(Remaining(t, r.dead))
    ensures var t' := After(t, r);
            && Good(t') && |t'.conns| == |t.conns|
            && t'.numActive + |t'.pending| <= t.numActive + |t.pending| + |r.arrivals|
  {
    SweepCompactLive(t, r.dead);
    var s := Remaining(t, r.dead);
    assert |Live(s)| <= t.numActive;
    AddedAllSucceeds(s, r.mem);
    AddedAllGood(s, r.mem);
    var n := AcceptKeepsGood(AddedAll(s, r.mem).0, r.arrivals);
    n := RoundLive(t, r);
    assert |Live(After(t, r))| == |Live(s)| + |t.pending|;
  }

  /** A run whose connections all fit the table it starts from is sound, whatever memory and
      allocations do, and never grows it. */
  lemma {:induction false} NoGrowthIsSound(t: Table, rs: seq<Round>)
    requires Good(t) && t.numActive + |t.pending| + Arrivals(rs) <= |t.conns|
    requires forall i :: 0 <= i < |rs| ==> FreshArrivals(rs[i].arrivals)
    ensures SoundRun(t, rs) && |Rounds(t, rs).conns| == |t.conns|
    decreases |rs|
  {
    if rs != [] {
      NoGrowthRound(t, rs[0]);
      NoGrowthIsSound(After(t, rs[0]), rs[1..]);
    }
  }

  /** A server that accepts at most fourteen clients in all keeps its tables aligned with no
      assumption about memory. */
  lemma {:induction false} SmallServerAligned(listener: Ref, pipe: Ref, rs: seq<Round>)
    requires Fresh([listener, pipe]) && Arrivals(rs) <= 14 && forall i :: 0 <= i < |rs| ==> FreshArrivals(rs[i].arrivals)
    ensures Good(InitTable(listener, pipe)) && SoundRun(InitTable(listener, pipe), rs)
    ensures Aligned(Rounds(InitTable(listener, pipe), rs)) && Dense(Rounds(InitTable(listener, pipe), rs))
  {
    InitTableGood(listener, pipe);
    NoGrowthIsSound(InitTable(listener, pipe), rs);
    RoundsKeepGood(InitTable(listener, pipe), rs);
  }
}
