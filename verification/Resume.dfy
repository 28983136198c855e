/** What one turn does, told from its script alone; and that a read goes on where it stopped. */
module Resume {
  import opened Prelude
  import opened Framing
  import opened NetIo
  import opened Connection

  // ---------------------------------------------------------------------------
  // Scripts
  // ---------------------------------------------------------------------------

  /** A call that moves bytes or is interrupted: after it the loop calls again. */
  predicate GoesOn(event: IoEvent) {
    event.Interrupted? || (event.Bytes? && event.n > 0)
  }

  /** The bytes that the calls offer before one of them ends the loop. */
  function Delivered(events: seq<IoEvent>): nat {
    if events == [] || !GoesOn(events[0]) then 0
    else (if events[0].Bytes? then events[0].n else 0) + Delivered(events[1..])
  }

  /** How the first call that ends the loop ends it, with `avail` bytes there; a call blocks if
      nothing is there, and so does the end of the script. */
  function Ending(avail: nat, events: seq<IoEvent>): (r: IoResult)
    ensures r != IoSuccess
  {
    if events == [] then IoWouldBlock
    else match events[0]
      case Bytes(n) => if Min(n, avail) > 0 then Ending(avail - Min(n, avail), events[1..]) else IoWouldBlock
      case Interrupted => Ending(avail, events[1..])
      case WouldBlock => IoWouldBlock
      case Failed => IoError
      case Eof => IoEof
  }

  /** The bytes moved: what is offered, wanted and there. */
  function Moves(avail: nat, len: nat, events: seq<IoEvent>): nat {
    Min(Delivered(events), Min(len, avail))
  }

  /** A loop of calls moves that many bytes. */
  lemma {:induction false} OutcomeMoves(avail: nat, len: nat, events: seq<IoEvent>, e: nat)
    requires e <= |events|
    ensures From(avail, len, events, e).1 == Moves(avail, len, events[e..])
    decreases |events| - e
  {
    if len > 0 && e < |events| {
      assert events[e..][1..] == events[e + 1..];
      match Call(events[e], avail, len) {
        case Moved(k) => OutcomeMoves(avail - k, len - k, events, e + 1);
        case Eintr => OutcomeMoves(avail, len, events, e + 1);
        case _ =>
      }
    }
  }

  /** Unless it has moved all that is wanted, it ends as the first call does that ends it. */
  lemma {:induction false} OutcomeEnds(avail: nat, len: nat, events: seq<IoEvent>, e: nat)
    requires e <= |events| && From(avail, len, events, e).0 != IoSuccess
    ensures From(avail, len, events, e).0 == Ending(avail, events[e..])
    decreases |events| - e
  {
    if e < |events| {
      assert events[e..][1..] == events[e + 1..];
      match Call(events[e], avail, len) {
        case Moved(k) => OutcomeEnds(avail - k, len - k, events, e + 1);
        case Eintr => OutcomeEnds(avail, len, events, e + 1);
        case _ =>
      }
    }
  }

  // ---------------------------------------------------------------------------
  // One turn
  // ---------------------------------------------------------------------------

  ghost predicate Reads(v: View) {
    v.state == ReadHeader || v.state == ReadContent
  }

  lemma OutcomeAt(avail: nat, len: nat, events: seq<IoEvent>)
    ensures var k := Moves(avail, len, events);
            Outcome(avail, len, events) == (if k == len then IoSuccess else Ending(avail, events), k)
  {
    assert events[0..] == events;
    OutcomeMoves(avail, len, events, 0);
    if Moves(avail, len, events) < len {
      OutcomeEnds(avail, len, events, 0);
    }
  }

  lemma ReadIs(stream: seq<Byte>, v: View, events: seq<IoEvent>, k: nat, res: IoResult)
    requires InRange(stream, v) && Reads(v) && k == Moves(|stream| - v.pos, v.toRead, events)
    requires res == if k == v.toRead then IoSuccess else Ending(|stream| - v.pos, events)
    ensures Turned(stream, v, In(events, false)) == AfterRead(Got(stream, v, k), res)
  {
    OutcomeAt(|stream| - v.pos, v.toRead, events);
    ReadTurnIs(stream, v, events, res, k);
  }

  lemma TurnedReads(stream: seq<Byte>, v: View, events: seq<IoEvent>)
    requires InRange(stream, v) && Reads(v)
    ensures Turned(stream, v, In(events, false)) == ReadTurn(stream, v, events)
  {
  }

  lemma ShortRead(stream: seq<Byte>, v: View, k: nat, res: IoResult)
    requires v.pos + k <= |stream| && k <= v.toRead && res != IoSuccess
    ensures AfterRead(Got(stream, v, k), res) ==
            v.(pos := v.pos + k, buffered := v.buffered + stream[v.pos..v.pos + k], toRead := v.toRead - k,
               state := if res == IoEof then PendingClose else v.state)
  {
  }

  /** A read task takes from the stream the k bytes that its script moves. Short of what is
      wanted, the connection stays where it is, and stays open unless the stream has ended. */
  lemma ReadShort(stream: seq<Byte>, v: View, events: seq<IoEvent>, k: nat, res: IoResult)
    requires InRange(stream, v) && Reads(v) && k == Moves(|stream| - v.pos, v.toRead, events) && k < v.toRead
    requires res == Ending(|stream| - v.pos, events)
    ensures Turned(stream, v, In(events, false)) ==
            v.(pos := v.pos + k, buffered := v.buffered + stream[v.pos..v.pos + k], toRead := v.toRead - k,
               state := if res == IoEof then PendingClose else v.state)
  {
    OutcomeAt(|stream| - v.pos, v.toRead, events);
    ReadTurnIs(stream, v, events, res, k);
    ShortRead(stream, v, k, res);
    TurnedReads(stream, v, events);
  }

  lemma WholeRead(stream: seq<Byte>, v: View)
    requires Consistent(stream, v) && Reads(v) && v.pos + v.toRead <= |stream|
    ensures var got := v.buffered + stream[v.pos..v.pos + v.toRead];
            AfterRead(Got(stream, v, v.toRead), IoSuccess) ==
            if v.state == ReadHeader then
              v.(pos := v.pos + v.toRead, buffered := got, toRead := got[1] as int * 256 + got[2] as int,
                 state := ReadContent, phase := ReadContent)
            else
              v.(pos := v.pos + v.toRead, buffered := [], toRead := 0, frames := v.frames + [got],
                 reply := Reply(got), toSend := MESSAGE_SIZE, state := WriteResponse, phase := WriteResponse)
  {
  }

  /** The last byte wanted completes a header, whose length is what is wanted next, or a
      content, which is handed over and answered. */
  lemma ReadWhole(stream: seq<Byte>, v: View, events: seq<IoEvent>)
    requires Consistent(stream, v) && InRange(stream, v) && Reads(v)
    requires Moves(|stream| - v.pos, v.toRead, events) == v.toRead
    ensures var got := v.buffered + stream[v.pos..v.pos + v.toRead];
            Turned(stream, v, In(events, false)) ==
            if v.state == ReadHeader then
              v.(pos := v.pos + v.toRead, buffered := got, toRead := got[1] as int * 256 + got[2] as int,
                 state := ReadContent, phase := ReadContent)
            else
              v.(pos := v.pos + v.toRead, buffered := [], toRead := 0, frames := v.frames + [got],
                 reply := Reply(got), toSend := MESSAGE_SIZE, state := WriteResponse, phase := WriteResponse)
  {
    OutcomeAt(|stream| - v.pos, v.toRead, events);
    ReadTurnIs(stream, v, events, IoSuccess, v.toRead);
    WholeRead(stream, v);
    TurnedReads(stream, v, events);
  }

  /** Either way the place in the stream moves by what the script moves. */
  lemma ReadTakes(stream: seq<Byte>, v: View, events: seq<IoEvent>)
    requires InRange(stream, v) && Reads(v)
    ensures Turned(stream, v, In(events, false)).pos == v.pos + Moves(|stream| - v.pos, v.toRead, events)
  {
    var k := Moves(|stream| - v.pos, v.toRead, events);
    ReadIs(stream, v, events, k, if k == v.toRead then IoSuccess else Ending(|stream| - v.pos, events));
  }

  lemma {:induction false} SendScript(events: seq<IoEvent>)
    ensures Delivered(SendEvents(events)) == Delivered(events)
  {
    if events != [] {
      assert SendEvents(events)[1..] == SendEvents(events[1..]);
      SendScript(events[1..]);
    }
  }

  /** A send task puts the first bytes of the reply on the wire, as many as its script moves.
      The connection stays open, and goes back to reading when nothing is left. */
  lemma SendIs(stream: seq<Byte>, v: View, events: seq<IoEvent>)
    requires InRange(stream, v) && v.state == WriteResponse
    ensures var k, w := Moves(v.toSend, v.toSend, events), Turned(stream, v, Out(events, false));
            && w.wire == v.wire + v.reply[..k]
            && w.pos == v.pos && w.buffered == v.buffered && w.frames == v.frames
            && w.toSend == v.toSend - k
            && w.state == (if k == v.toSend then ReadHeader else WriteResponse)
            && (k == v.toSend ==> w.sent == 0 && w.toRead == HEADER_SIZE && |w.segments| == |v.segments| + 1)
            && (k < v.toSend ==> w.sent == v.sent + k && w.toRead == v.toRead && w.segments == v.segments)
  {
    OutcomeAt(v.toSend, v.toSend, SendEvents(events));
    SendScript(events);
  }

  /** In any other state, and during shutdown, a task does nothing. */
  lemma IdleTask(stream: seq<Byte>, v: View, events: seq<IoEvent>, shutdown: bool)
    requires InRange(stream, v)
    ensures shutdown || !Reads(v) ==> Turned(stream, v, In(events, shutdown)) == v
    ensures shutdown || v.state != WriteResponse ==> Turned(stream, v, Out(events, shutdown)) == v
  {
  }

  lemma ReadClosesExactly(stream: seq<Byte>, v: View, events: seq<IoEvent>)
    requires InRange(stream, v) && Reads(v)
    ensures var left := |stream| - v.pos;
            Turned(stream, v, In(events, false)).state == PendingClose <==>
            Moves(left, v.toRead, events) < v.toRead && Ending(left, events) == IoEof
  {
    var k := Moves(|stream| - v.pos, v.toRead, events);
    ReadIs(stream, v, events, k, if k == v.toRead then IoSuccess else Ending(|stream| - v.pos, events));
  }

  /** Exactly when a turn closes an open connection: it is a hang-up, or a read task that
      comes to the end of the stream with bytes still wanted. */
  lemma ClosesExactly(stream: seq<Byte>, v: View, turn: Turn)
    requires InRange(stream, v) && v.state != PendingClose
    ensures Turned(stream, v, turn).state == PendingClose <==>
            || turn.HangUp?
            || (turn.In? && !turn.shutdown && Reads(v) && Moves(|stream| - v.pos, v.toRead, turn.events) < v.toRead
                && Ending(|stream| - v.pos, turn.events) == IoEof)
  {
    match turn {
      case In(events, shutdown) =>
        if Reads(v) && !shutdown {
          ReadClosesExactly(stream, v, events);
        } else {
          IdleTask(stream, v, events, shutdown);
        }
      case Out(events, shutdown) =>
        if v.state == WriteResponse && !shutdown {
          SendIs(stream, v, events);
        } else {
          IdleTask(stream, v, events, shutdown);
        }
      case HangUp =>
    }
  }

  // ---------------------------------------------------------------------------
  // A read that blocks is resumed
  // ---------------------------------------------------------------------------

  ghost predicate AllGoOn(events: seq<IoEvent>) {
    forall i :: 0 <= i < |events| ==> GoesOn(events[i])
  }

  lemma {:induction false} Joined(avail: nat, first: seq<IoEvent>, second: seq<IoEvent>)
    requires AllGoOn(first) && Delivered(first) <= avail
    ensures Delivered(first + second) == Delivered(first) + Delivered(second)
    ensures Ending(avail, first + second) == Ending(avail - Delivered(first), second)
  {
    if first == [] {
      assert first + second == second;
    } else {
      assert (first + second)[1..] == first[1..] + second;
      Joined(if first[0].Bytes? then avail - first[0].n else avail, first[1..], second);
    }
  }

  lemma BlocksIs(stream: seq<Byte>, v: View, events: seq<IoEvent>, n: nat)
    requires InRange(stream, v) && Reads(v) && Outcome(|stream| - v.pos, v.toRead, events) == (IoWouldBlock, n)
    ensures ReadTurn(stream, v, events) == Got(stream, v, n)
  {
    ReadTurnIs(stream, v, events, IoWouldBlock, n);
  }

  lemma BlockedOutcome(avail: nat, len: nat, first: seq<IoEvent>)
    requires AllGoOn(first) && Delivered(first) < len && Delivered(first) <= avail
    ensures Outcome(avail, len, first + [WouldBlock]) == (IoWouldBlock, Delivered(first))
  {
    OutcomeJoined(avail, len, first, [WouldBlock]);
    assert From(avail - Delivered(first), len - Delivered(first), [WouldBlock], 0) == (IoWouldBlock, 0);
  }

  /** Blocking short of what is wanted changes nothing but the place in the stream. */
  lemma ReadBlocks(stream: seq<Byte>, v: View, first: seq<IoEvent>)
    requires InRange(stream, v) && Reads(v)
    requires AllGoOn(first) && Delivered(first) < v.toRead && Delivered(first) <= |stream| - v.pos
    ensures Turned(stream, v, In(first + [WouldBlock], false)) == Got(stream, v, Delivered(first))
  {
    BlockedOutcome(|stream| - v.pos, v.toRead, first);
    BlocksIs(stream, v, first + [WouldBlock], Delivered(first));
    TurnedReads(stream, v, first + [WouldBlock]);
  }

  lemma GotTwice(stream: seq<Byte>, v: View, n: nat, k: nat)
    requires v.pos + n + k <= |stream| && n + k <= v.toRead
    ensures Got(stream, Got(stream, v, n), k) == Got(stream, v, n + k)
  {
    var a, b, c := v.pos, v.pos + n, v.pos + n + k;
    Extend(v.buffered, stream, a, b, c);
  }

  /** And it loses nothing: the next read task goes on exactly as if the first had not blocked. */
  lemma ReadResumes(stream: seq<Byte>, v: View, first: seq<IoEvent>, second: seq<IoEvent>)
    requires InRange(stream, v) && Reads(v)
    requires AllGoOn(first) && Delivered(first) < v.toRead && Delivered(first) <= |stream| - v.pos
    ensures var w := Turned(stream, v, In(first + [WouldBlock], false));
            && w.state == v.state && w.pos == v.pos + Delivered(first) && w.toRead == v.toRead - Delivered(first)
            && Turned(stream, w, In(second, false)) == Turned(stream, v, In(first + second, false))
  {
    ReadBlocks(stream, v, first);
    GoesOnFrom(stream, v, first, second);
  }

  /** If the calls come to the same from both places, so do the turns. */
  lemma SamePlace(stream: seq<Byte>, v: View, w: View, n: nat, k: nat, second: seq<IoEvent>, joined: seq<IoEvent>, res: IoResult)
    requires InRange(stream, v) && InRange(stream, w) && n + k <= v.toRead && v.pos + n + k <= |stream|
    requires w.pos == v.pos + n && w.toRead == v.toRead - n && Got(stream, w, k) == Got(stream, v, n + k)
    requires Outcome(|stream| - w.pos, w.toRead, second) == (res, k)
    requires Outcome(|stream| - v.pos, v.toRead, joined) == (res, n + k)
    ensures ReadTurn(stream, w, second) == ReadTurn(stream, v, joined)
  {
    ReadTurnIs(stream, v, joined, res, n + k);
    ReadTurnIs(stream, w, second, res, k);
  }

  lemma GoesOnReads(stream: seq<Byte>, v: View, n: nat, second: seq<IoEvent>, joined: seq<IoEvent>)
    requires InRange(stream, v) && Reads(v) && n < v.toRead && n <= |stream| - v.pos
    requires Outcome(|stream| - v.pos, v.toRead, joined) ==
             After(n, Outcome(|stream| - v.pos - n, v.toRead - n, second))
    ensures ReadTurn(stream, Got(stream, v, n), second) == ReadTurn(stream, v, joined)
  {
    var (res, k) := Outcome(|stream| - v.pos - n, v.toRead - n, second);
    GotTwice(stream, v, n, k);
    SamePlace(stream, v, Got(stream, v, n), n, k, second, joined, res);
  }

  lemma GoesOnFrom(stream: seq<Byte>, v: View, first: seq<IoEvent>, second: seq<IoEvent>)
    requires InRange(stream, v) && Reads(v)
    requires AllGoOn(first) && Delivered(first) < v.toRead && Delivered(first) <= |stream| - v.pos
    ensures Turned(stream, Got(stream, v, Delivered(first)), In(second, false)) ==
            Turned(stream, v, In(first + second, false))
  {
    OutcomeJoined(|stream| - v.pos, v.toRead, first, second);
    GoesOnReads(stream, v, Delivered(first), second, first + second);
    TurnedReads(stream, Got(stream, v, Delivered(first)), second);
    TurnedReads(stream, v, first + second);
  }

  /** What the calls of both scripts come to, one after the other. */
  lemma OutcomeJoined(avail: nat, len: nat, first: seq<IoEvent>, second: seq<IoEvent>)
    requires AllGoOn(first) && Delivered(first) < len && Delivered(first) <= avail
    ensures var n := Delivered(first);
            Outcome(avail, len, first + second) == After(n, Outcome(avail - n, len - n, second))
  {
    MovesJoined(avail, len, first, second);
    SameOutcome(avail, len, Delivered(first), first + second, second);
  }

  lemma SameOutcome(avail: nat, len: nat, n: nat, joined: seq<IoEvent>, second: seq<IoEvent>)
    requires n < len && n <= avail && Moves(avail, len, joined) == n + Moves(avail - n, len - n, second)
    requires Ending(avail, joined) == Ending(avail - n, second)
    ensures Outcome(avail, len, joined) == After(n, Outcome(avail - n, len - n, second))
  {
    OutcomeAt(avail, len, joined);
    OutcomeAt(avail - n, len - n, second);
  }

  lemma MovesJoined(avail: nat, len: nat, first: seq<IoEvent>, second: seq<IoEvent>)
    requires AllGoOn(first) && Delivered(first) < len && Delivered(first) <= avail
    ensures var n := Delivered(first);
            && Moves(avail, len, first + second) == n + Moves(avail - n, len - n, second)
            && Ending(avail, first + second) == Ending(avail - n, second)
  {
    Joined(avail, first, second);
  }

  lemma OneMore(stream: seq<Byte>, v: View, first: seq<IoEvent>, second: seq<IoEvent>, turns: seq<Turn>)
    requires InRange(stream, v) && Reads(v)
    requires AllGoOn(first) && Delivered(first) < v.toRead && Delivered(first) <= |stream| - v.pos
    requires turns != [] && turns[0] == In(first + [WouldBlock], false)
    requires var w := Got(stream, v, Delivered(first));
             TurnedAll(stream, w, turns[1..]) == Turned(stream, w, In(second, false))
    ensures TurnedAll(stream, v, turns) == Turned(stream, v, In(first + second, false))
  {
    ReadBlocks(stream, v, first);
    GoesOnFrom(stream, v, first, second);
  }

  /** A read task for each script, which blocks at its end, and one for the last. */
  function Blocked(firsts: seq<seq<IoEvent>>, last: seq<IoEvent>): (r: seq<Turn>)
    ensures r != []
  {
    if firsts == [] then [In(last, false)]
    else [In(firsts[0] + [WouldBlock], false)] + Blocked(firsts[1..], last)
  }

  function Whole(firsts: seq<seq<IoEvent>>, last: seq<IoEvent>): seq<IoEvent> {
    if firsts == [] then last else firsts[0] + Whole(firsts[1..], last)
  }

  function Offered(firsts: seq<seq<IoEvent>>): nat {
    if firsts == [] then 0 else Delivered(firsts[0]) + Offered(firsts[1..])
  }

  /** However often a read blocks on its way: the turns come to what one turn does that gets
      everything in one script. */
  lemma {:induction false} ReadResumesOften(stream: seq<Byte>, v: View, firsts: seq<seq<IoEvent>>, last: seq<IoEvent>)
    requires InRange(stream, v) && Reads(v) && forall i :: 0 <= i < |firsts| ==> AllGoOn(firsts[i])
    requires Offered(firsts) < v.toRead && Offered(firsts) <= |stream| - v.pos
    ensures TurnedAll(stream, v, Blocked(firsts, last)) == Turned(stream, v, In(Whole(firsts, last), false))
    decreases |firsts|
  {
    var turns := Blocked(firsts, last);
    if firsts == [] {
      TurnedOne(stream, v, In(last, false));
    } else {
      assert turns[1..] == Blocked(firsts[1..], last);
      ReadResumesOften(stream, Got(stream, v, Delivered(firsts[0])), firsts[1..], last);
      OneMore(stream, v, firsts[0], Whole(firsts[1..], last), turns);
    }
  }
}
