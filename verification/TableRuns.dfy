/** Runs of the connection table in which its two arrays come apart. */
module TableRuns {
  import opened Prelude
  import opened Compaction
  import opened ConnTable
  import EzArray

  // ---------------------------------------------------------------------------
  // What rounds do that have room and memory
  // ---------------------------------------------------------------------------

  ghost function Entries(refs: seq<Ref>): (r: seq<PollFd>)
    requires forall i :: 0 <= i < |refs| ==> refs[i].Conn?
    ensures |r| == |refs| && forall i :: 0 <= i < |r| ==> r[i] == PollFd(refs[i].fd, EVENTS, 0)
  {
    seq(|refs|, i requires 0 <= i < |refs| => PollFd(refs[i].fd, EVENTS, 0))
  }

  /** The table with all waiting connections written behind the active ones. */
  ghost function Filled(t: Table): Table
    requires Shape(t) && t.numActive + |t.pending| <= |t.conns|
  {
    var n, m := t.numActive, t.numActive + |t.pending|;
    t.(conns := t.conns[..n] + t.pending + t.conns[m..], numItems := m,
       pfds := t.pfds[..n] + Entries(t.pending) + t.pfds[m..], numActive := m, pending := [])
  }

  /** With room for all of them that is what taking them in does, whatever memory there is. */
  lemma {:induction false} AddedAllFills(t: Table, mem: nat -> Memory)
    requires Shape(t) && t.numActive + |t.pending| <= |t.conns|
    ensures AddedAll(t, mem) == (Filled(t), true)
    decreases |t.pending|
  {
    if t.pending == [] {
      assert t.conns[..t.numActive] + t.pending + t.conns[t.numActive..] == t.conns;
      assert t.pfds[..t.numActive] + Entries(t.pending) + t.pfds[t.numActive..] == t.pfds;
    } else {
      var m := mem(|t.pending| - 1);
      FilledStep(t, m);
      AddedAllFills(Added(t, m), mem);
    }
  }

  lemma FilledStep(t: Table, m: Memory)
    requires Shape(t) && t.pending != [] && t.numActive + |t.pending| <= |t.conns|
    ensures AddSucceeds(t, m)
    ensures var t1 := Added(t, m);
            t1.numActive + |t1.pending| <= |t1.conns| && Filled(t1) == Filled(t)
  {
    var t1 := Added(t, m);
    assert Filled(t1).conns == Filled(t).conns;
    assert Filled(t1).pfds == Filled(t).pfds;
  }

  /** A table without holes whose free entries are zero is left alone by a sweep that destroys
      nothing and the compaction after it. */
  lemma NothingDead(t: Table)
    requires Aligned(t) && Dense(t) && forall i :: t.numActive <= i < |t.pfds| ==> t.pfds[i] == ZERO
    ensures Remaining(t, {}) == t
  {
    var s := Swept(t, {});
    assert s.conns == t.conns && s.pfds == t.pfds;
    AllKept(t.conns, EzArray.NotSentinel(t.conns, Null), Null, t.numActive);
    AllKept(t.pfds, Used(t.pfds), ZERO, t.numActive);
  }

  lemma AllKept<T>(s: seq<T>, p: seq<bool>, zero: T, k: nat)
    requires k <= |s| == |p| && forall i :: 0 <= i < |p| ==> (p[i] <==> i < k)
    ensures Compact(s, p, zero) == s && |Pick(s, p)| == k
  {
    PickKeptFront(s, p, k);
  }

  ghost function Refs(arrivals: seq<Arrival>): (r: seq<Ref>)
    ensures |r| == |arrivals| && forall i :: 0 <= i < |r| ==> r[i] == arrivals[i].ref
  {
    seq(|arrivals|, i requires 0 <= i < |arrivals| => arrivals[i].ref)
  }

  ghost predicate WithMemory(arrivals: seq<Arrival>) {
    forall i :: 0 <= i < |arrivals| ==> arrivals[i].structOk && arrivals[i].buffersOk
  }

  /** Below the cap and with room in the queue everybody is accepted. */
  lemma {:induction false} AcceptedAll(t: Table, arrivals: seq<Arrival>)
    requires WithMemory(arrivals) && |t.pending| + |arrivals| <= t.ringCap
    requires t.numActive + |t.pending| + |arrivals| <= MAX_CONNECTIONS + 1
    ensures Accepted(t, arrivals) == (t.(pending := t.pending + Refs(arrivals)), true)
    decreases |arrivals|
  {
    if arrivals == [] {
      assert t.pending + Refs(arrivals) == t.pending;
    } else {
      var t1 := t.(pending := t.pending + [arrivals[0].ref]);
      AcceptedAll(t1, arrivals[1..]);
      assert t1.pending + Refs(arrivals[1..]) == t.pending + Refs(arrivals);
    }
  }

  // ---------------------------------------------------------------------------
  // The first table, filled
  // ---------------------------------------------------------------------------

  /** The server's connections in the order in which they come; the first two are the listener
      and the signal pipe. */
  ghost function Ith(i: nat): Ref {
    Conn(i, i + 5)
  }

  ghost function Arrives(i: nat): Arrival {
    Arrival(Ith(i), true, true, true)
  }

  /** The table at its first capacity with the first k connections, and others waiting. */
  ghost function Holding(k: nat, pending: seq<Ref>): Table
    requires k <= 16
  {
    Table(seq(16, i requires 0 <= i => if i < k then Ith(i) else Null), k,
          seq(16, i requires 0 <= i => if i < k then PollFd(i + 5, EVENTS, 0) else ZERO), 16, k, pending, 16)
  }

  /** The first table full, with one connection waiting. */
  ghost function FullTable(): Table {
    Holding(16, [Ith(16)])
  }

  ghost function Waiting(from: nat, to: nat): (r: seq<Ref>)
    requires from <= to
    ensures |r| == to - from && forall i :: 0 <= i < |r| ==> r[i] == Ith(from + i)
  {
    seq(to - from, i requires 0 <= i => Ith(from + i))
  }

  lemma HoldingGood(k: nat, n: nat)
    requires k <= n <= k + 16 && k <= 16
    ensures Good(Holding(k, Waiting(k, n)))
  {
  }

  ghost function Arriving(from: nat, to: nat): (r: seq<Arrival>)
    requires from <= to
    ensures |r| == to - from && forall i :: 0 <= i < |r| ==> r[i] == Arrives(from + i)
  {
    seq(to - from, i requires 0 <= i => Arrives(from + i))
  }

  /** An update without deaths takes in those that wait. */
  lemma UpdateFills(k: nat, n: nat, mem: nat -> Memory)
    requires k <= n <= 16
    ensures var t := Holding(k, Waiting(k, n));
            && Good(t) && Remaining(t, {}) == t && Roomy(t, mem)
            && AddedAll(t, mem) == (Holding(n, []), true)
  {
    var t := Holding(k, Waiting(k, n));
    HoldingGood(k, n);
    NothingDead(t);
    AddedAllFills(t, mem);
    FilledIs(k, n);
  }

  lemma FilledIs(k: nat, n: nat)
    requires k <= n <= 16 && Shape(Holding(k, Waiting(k, n)))
    ensures Filled(Holding(k, Waiting(k, n))) == Holding(n, [])
  {
    var t := Filled(Holding(k, Waiting(k, n)));
    assert t.conns == Holding(n, []).conns;
    assert t.pfds == Holding(n, []).pfds;
  }

  /** Then the next are accepted. */
  lemma AcceptFills(n: nat, m: nat)
    requires n <= 16 && n <= m <= n + 16
    ensures Accepted(Holding(n, []), Arriving(n, m)) == (Holding(n, Waiting(n, m)), true)
  {
    var t, arrivals := Holding(n, []), Arriving(n, m);
    assert WithMemory(arrivals);
    AcceptedAll(t, arrivals);
    assert [] + Refs(arrivals) == Waiting(n, m);
  }

  ghost function Next(mem: nat -> Memory, from: nat, to: nat): Round
    requires from <= to
  {
    Round({}, mem, Arriving(from, to))
  }

  /** A round in which nothing closes takes in the waiting connections and accepts the next. */
  lemma RoundFills(k: nat, n: nat, m: nat, mem: nat -> Memory)
    requires k <= n <= 16 && n <= m <= n + 16
    ensures var t := Holding(k, Waiting(k, n));
            && Good(t) && Sound(t, Next(mem, n, m)) && Shape(Remaining(t, {}))
            && After(t, Next(mem, n, m)) == Holding(n, Waiting(n, m))
  {
    UpdateFills(k, n, mem);
    AcceptFills(n, m);
  }

  lemma RoundsCons(t: Table, r: Round, t1: Table, rs: seq<Round>)
    requires Good(t) && Sound(t, r) && Shape(Remaining(t, r.dead)) && t1 == After(t, r) && Good(t1) && SoundRun(t1, rs)
    ensures SoundRun(t, [r] + rs) && Rounds(t, [r] + rs) == Rounds(t1, rs)
  {
    assert ([r] + rs)[1..] == rs;
  }

  /** Two rounds after its start, with fifteen clients, the server is at the full table. */
  lemma FullTableReached() returns (rs: seq<Round>)
    ensures Good(InitTable(Ith(0), Ith(1))) && SoundRun(InitTable(Ith(0), Ith(1)), rs)
    ensures Rounds(InitTable(Ith(0), Ith(1)), rs) == FullTable()
  {
    var mem := (i: nat) => Memory(true, _ => Null, true, _ => ZERO);
    var t0, t1, t2 := Holding(0, Waiting(0, 2)), Holding(2, Waiting(2, 16)), Holding(16, Waiting(16, 17));
    assert InitTable(Ith(0), Ith(1)) == t0 by {
      assert InitTable(Ith(0), Ith(1)).conns == t0.conns && InitTable(Ith(0), Ith(1)).pfds == t0.pfds;
    }
    HoldingGood(2, 16);
    HoldingGood(16, 17);
    RoundFills(2, 16, 17, mem);
    RoundsCons(t1, Next(mem, 16, 17), t2, []);
    RoundFills(0, 2, 16, mem);
    RoundsCons(t0, Next(mem, 2, 16), t1, [Next(mem, 16, 17)] + []);
    rs := [Next(mem, 2, 16)] + ([Next(mem, 16, 17)] + []);
    assert Waiting(16, 17) == [Ith(16)];
  }

  // ---------------------------------------------------------------------------
  // Growth that parts the arrays
  // ---------------------------------------------------------------------------

  lemma FullTableStays()
    ensures Good(FullTable()) && Remaining(FullTable(), {}) == FullTable()
  {
    assert [Ith(16)] == Waiting(16, 17);
    HoldingGood(16, 17);
    NothingDead(FullTable());
  }

  /** The same after an insertion that grew both arrays, only one of them onto zeroed memory. */
  ghost function GarbageTable(): Table {
    Table(seq(32, i requires 0 <= i => if i <= 16 then Conn(i, i + 5) else Conn(99, 99)), 17,
          seq(32, i => if i <= 16 then PollFd(i + 5, EVENTS, 0) else ZERO), 32, 17, [], 16)
  }

  lemma GarbageGrows()
    ensures Aligned(FullTable()) && Dense(FullTable())
    ensures var m := Memory(true, _ => Conn(99, 99), true, _ => ZERO);
            AddSucceeds(FullTable(), m) && Added(FullTable(), m) == GarbageTable()
  {
    var m := Memory(true, _ => Conn(99, 99), true, _ => ZERO);
    var t, g := Added(FullTable(), m), GarbageTable();
    assert t.conns == g.conns;
    assert t.pfds == g.pfds;
  }

  lemma GarbageCounts(p: seq<bool>)
    requires |p| == 32 && forall i :: 0 <= i < 32 ==> (p[i] <==> i <= 16)
    ensures |Pick(GarbageTable().pfds, p)| == 17
  {
    PickFront(GarbageTable().pfds, p, 17);
    PickAll(GarbageTable().pfds[..17], p[..17]);
  }

  /** Growth onto memory that is not zero breaks alignment: the next compaction finds fifteen
      contexts that nobody created beside the seventeen poll entries. */
  lemma GarbageBreaksAlignment()
    ensures !Aligned(GarbageTable())
    ensures Compacted(GarbageTable()).numItems == 32 && Compacted(GarbageTable()).numActive == 17
  {
    var t := GarbageTable();
    assert t.conns[17].Conn?;
    PickAll(t.conns, EzArray.NotSentinel(t.conns, Null));
    GarbageCounts(Used(t.pfds));
  }

  /** A run of the server whose next update grows both arrays, reports success, and leaves a
      table that is not aligned. */
  lemma GrowthOntoGarbage() returns (rs: seq<Round>, mem: nat -> Memory)
    ensures Good(InitTable(Ith(0), Ith(1))) && SoundRun(InitTable(Ith(0), Ith(1)), rs)
    ensures var t := Rounds(InitTable(Ith(0), Ith(1)), rs);
            && Good(t) && Shape(Remaining(t, {}))
            && var (u, ok) := AddedAll(Remaining(t, {}), mem); ok && !Aligned(u)
  {
    rs := FullTableReached();
    mem := _ => Memory(true, _ => Conn(99, 99), true, _ => ZERO);
    FullTableStays();
    GarbageGrows();
    GarbageBreaksAlignment();
    assert AddedAll(GarbageTable(), mem) == (GarbageTable(), true);
  }

  /** A run of the server whose next update finds memory for the context array and none for
      the poll array, and leaves the two with different lengths and counts. */
  lemma PollArrayCannotGrow() returns (rs: seq<Round>, mem: nat -> Memory)
    ensures Good(InitTable(Ith(0), Ith(1))) && SoundRun(InitTable(Ith(0), Ith(1)), rs)
    ensures var t := Rounds(InitTable(Ith(0), Ith(1)), rs);
            && Good(t) && Shape(Remaining(t, {}))
            && var (u, ok) := AddedAll(Remaining(t, {}), mem);
               !ok && !Aligned(u) && |u.conns| == 32 && |u.pfds| == 16 && u.numItems == 17 && u.numActive == 16
  {
    rs := FullTableReached();
    mem := _ => Memory(true, _ => Null, false, _ => ZERO);
    FullTableStays();
    FailedAddAligned(FullTable(), mem(0));
  }
}
