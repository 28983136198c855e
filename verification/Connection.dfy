/**
 * A connection: the resumable reader, the reply, and the writer.
 *
 * What one turn does to a connection is a function on values; the context class computes
 * that function in place. What holds over whole runs is proved about the function.
 */
module Connection {
  import opened Prelude
  import opened Framing
  import opened NetIo

  // ---------------------------------------------------------------------------
  // One turn, as a function
  // ---------------------------------------------------------------------------

  /** One thing that happens to a connection: a read task, a send task, or a hang-up. */
  datatype Turn = In(events: seq<IoEvent>, shutdown: bool) | Out(events: seq<IoEvent>, shutdown: bool) | HangUp

  /** A connection and its socket. The last four fields are history: the state, or the last
      one before closing; the frames handed to the reply function; what the wire got for each
      completed reply; and whether that went out in one call. */
  datatype View = View(
    state: ConnState,
    pos: nat,
    buffered: seq<Byte>,
    toRead: nat,
    reply: seq<Byte>,
    sent: nat,
    toSend: nat,
    wire: seq<Byte>,
    phase: ConnState,
    frames: seq<seq<Byte>>,
    segments: seq<seq<Byte>>,
    oneCall: seq<bool>
  )

  const START := View(ReadHeader, 0, [], HEADER_SIZE, [], 0, 0, [], ReadHeader, [], [], [])

  ghost predicate InRange(stream: seq<Byte>, v: View) {
    v.pos <= |stream| && v.toSend <= |v.reply| && v.sent <= |v.wire|
  }

  /** What arrives goes behind what is buffered. A complete header says how much content to
      read; a complete content is handed over and answered; the end of the stream closes. */
  function ReadTurn(stream: seq<Byte>, v: View, events: seq<IoEvent>): (r: View)
    requires InRange(stream, v)
    ensures InRange(stream, r)
  {
    var (res, n) := Outcome(|stream| - v.pos, v.toRead, events);
    AfterRead(Got(stream, v, n), res)
  }

  function Got(stream: seq<Byte>, v: View, n: nat): View
    requires v.pos + n <= |stream| && n <= v.toRead
  {
    v.(pos := v.pos + n, buffered := v.buffered + stream[v.pos..v.pos + n], toRead := v.toRead - n)
  }

  function AfterRead(v: View, res: IoResult): View {
    match res
    case IoSuccess => if v.state == ReadHeader then HeaderRead(v) else ContentRead(v)
    case IoEof => v.(state := PendingClose)
    case _ => v
  }

  function HeaderRead(v: View): View {
    if |v.buffered| == HEADER_SIZE then
      v.(toRead := DeclaredLength(v.buffered), state := ReadContent, phase := ReadContent)
    else v
  }

  function ContentRead(v: View): View {
    v.(buffered := [], toRead := 0, frames := v.frames + [v.buffered],
       reply := Reply(v.buffered), toSend := MESSAGE_SIZE, state := WriteResponse, phase := WriteResponse)
  }

  /** What goes out is always the beginning of the reply. The last byte ends the reply. */
  function WriteTurn(stream: seq<Byte>, v: View, events: seq<IoEvent>): (r: View)
    requires InRange(stream, v)
    ensures InRange(stream, r)
  {
    var (res, n) := Outcome(v.toSend, v.toSend, SendEvents(events));
    if res == IoSuccess then ReplySent(v) else PartSent(v, n)
  }

  function PartSent(v: View, n: nat): View
    requires n <= v.toSend <= |v.reply|
  {
    v.(wire := v.wire + v.reply[..n], sent := v.sent + n, toSend := v.toSend - n)
  }

  function ReplySent(v: View): View
    requires v.toSend <= |v.reply| && v.sent <= |v.wire|
  {
    var last := v.reply[..v.toSend];
    v.(wire := v.wire + last, sent := 0, toSend := 0, reply := [], toRead := HEADER_SIZE,
       state := ReadHeader, phase := ReadHeader,
       segments := v.segments + [v.wire[|v.wire| - v.sent..] + last], oneCall := v.oneCall + [v.sent == 0])
  }

  /** Tasks act only in the states they are meant for, and not during shutdown. */
  function Turned(stream: seq<Byte>, v: View, turn: Turn): (r: View)
    requires InRange(stream, v)
    ensures InRange(stream, r)
  {
    match turn
    case In(events, shutdown) =>
      if (v.state == ReadHeader || v.state == ReadContent) && !shutdown then ReadTurn(stream, v, events) else v
    case Out(events, shutdown) =>
      if v.state == WriteResponse && !shutdown then WriteTurn(stream, v, events) else v
    case HangUp => v.(state := PendingClose)
  }

  function TurnedAll(stream: seq<Byte>, v: View, turns: seq<Turn>): (r: View)
    requires InRange(stream, v)
    ensures InRange(stream, r)
    decreases |turns|
  {
    if turns == [] then v else TurnedAll(stream, Turned(stream, v, turns[0]), turns[1..])
  }

  // ---------------------------------------------------------------------------
  // What holds between turns
  // ---------------------------------------------------------------------------

  /** The bytes consumed so far are the frames handed over, then the buffered part of the
      next one; what is still wanted follows from that part. */
  ghost predicate Reading(stream: seq<Byte>, pos: nat, frames: seq<seq<Byte>>, buffered: seq<Byte>, toRead: nat,
                          phase: ConnState) {
    && (forall i :: 0 <= i < |frames| ==> IsFrame(frames[i]))
    && pos <= |stream|
    && stream[..pos] == Flatten(frames) + buffered
    && match phase
       case ReadHeader => toRead > 0 && |buffered| + toRead == HEADER_SIZE
       case ReadContent => |buffered| >= HEADER_SIZE && |buffered| + toRead == HEADER_SIZE + DeclaredLength(buffered)
       case WriteResponse => buffered == [] && toRead == 0
       case PendingClose => false
  }

  /** One reply per frame. Each but the one under way is on the wire, byte for byte exactly
      if it went out in one call. */
  ghost predicate Segmented(frames: seq<seq<Byte>>, segments: seq<seq<Byte>>, oneCall: seq<bool>) {
    && |oneCall| == |segments| <= |frames|
    && (forall i :: 0 <= i < |segments| ==> |segments[i]| == MESSAGE_SIZE)
    && (forall i :: 0 <= i < |segments| ==> (segments[i] == Reply(frames[i]) <==> oneCall[i]))
  }

  /** What the wire holds, and how much of the reply under way is still to go. */
  ghost predicate Writing(wire: seq<Byte>, frames: seq<seq<Byte>>, segments: seq<seq<Byte>>, oneCall: seq<bool>,
                          reply: seq<Byte>, sent: nat, toSend: nat, phase: ConnState) {
    && |frames| == |segments| + (if phase == WriteResponse then 1 else 0)
    && Segmented(frames, segments, oneCall)
    && sent <= |wire|
    && wire[..|wire| - sent] == Flatten(segments)
    && if phase == WriteResponse then
         && sent + toSend == MESSAGE_SIZE && toSend > 0
         && reply == Reply(frames[|frames| - 1])
       else
         sent == 0 && toSend == 0
  }

  ghost predicate Consistent(stream: seq<Byte>, v: View) {
    && (v.state == v.phase || v.state == PendingClose)
    && Reading(stream, v.pos, v.frames, v.buffered, v.toRead, v.phase)
    && Writing(v.wire, v.frames, v.segments, v.oneCall, v.reply, v.sent, v.toSend, v.phase)
  }

  /** A frame under way fits the receive buffer, because every declared length does. */
  lemma NextFrameFits(stream: seq<Byte>, pos: nat, frames: seq<seq<Byte>>, buffered: seq<Byte>, toRead: nat, phase: ConnState)
    requires Reading(stream, pos, frames, buffered, toRead, phase) && LengthsFit(stream)
    ensures |buffered| + toRead <= IO_BUF_SIZE
  {
    var rest := buffered + stream[pos..];
    assert stream == Flatten(frames) + rest;
    SplitFlatten(frames, rest);
    if |buffered| >= HEADER_SIZE {
      assert DeclaredLength(rest) == DeclaredLength(buffered);
    }
  }

  /** After a receive: a header or a content that is complete is ready for the next state. */
  ghost predicate Received(stream: seq<Byte>, pos: nat, frames: seq<seq<Byte>>, buffered: seq<Byte>, toRead: nat,
                           phase: ConnState) {
    if toRead > 0 then Reading(stream, pos, frames, buffered, toRead, phase)
    else if phase == ReadHeader then
      |buffered| == HEADER_SIZE && Reading(stream, pos, frames, buffered, DeclaredLength(buffered), ReadContent)
    else if phase == ReadContent then
      IsFrame(buffered) && Reading(stream, pos, frames + [buffered], [], 0, WriteResponse)
    else
      Reading(stream, pos, frames, buffered, 0, phase)
  }

  /** Any number of further bytes, at most those wanted, extends what is buffered. */
  lemma MoreReceived(stream: seq<Byte>, pos: nat, frames: seq<seq<Byte>>, buffered: seq<Byte>, toRead: nat,
                     phase: ConnState, pos': nat, buffered': seq<Byte>, toRead': nat)
    requires Reading(stream, pos, frames, buffered, toRead, phase) && pos <= pos' <= |stream|
    requires toRead' == toRead - (pos' - pos) && buffered' == buffered + stream[pos..pos']
    ensures Received(stream, pos', frames, buffered', toRead', phase)
  {
    assert stream[..pos'] == stream[..pos] + stream[pos..pos'];
    assert |buffered| >= HEADER_SIZE ==> DeclaredLength(buffered') == DeclaredLength(buffered);
    if toRead' == 0 && phase == ReadContent {
      FlattenSnoc(frames, buffered');
      assert Flatten(frames) + buffered' == Flatten(frames + [buffered']) + [];
    }
  }

  /** A completed frame gets its reply. */
  lemma StartReply(wire: seq<Byte>, frames: seq<seq<Byte>>, segments: seq<seq<Byte>>, oneCall: seq<bool>,
                   stale: seq<Byte>, sent: nat, toSend: nat, f: seq<Byte>)
    requires Writing(wire, frames, segments, oneCall, stale, sent, toSend, ReadContent)
    ensures sent == toSend == 0
    ensures Writing(wire, frames + [f], segments, oneCall, Reply(f), 0, MESSAGE_SIZE, WriteResponse)
  {
  }

  /** Sending some more bytes, not all that are left. */
  lemma MoreSent(wire: seq<Byte>, frames: seq<seq<Byte>>, segments: seq<seq<Byte>>, oneCall: seq<bool>,
                 reply: seq<Byte>, sent: nat, toSend: nat, n: nat)
    requires Writing(wire, frames, segments, oneCall, reply, sent, toSend, WriteResponse) && n < toSend
    ensures Writing(wire + reply[..n], frames, segments, oneCall, reply, sent + n, toSend - n, WriteResponse)
  {
    var wire' := wire + reply[..n];
    assert wire'[..|wire'| - (sent + n)] == wire[..|wire| - sent];
  }

  /** What the wire got for a reply whose last call sends from the start of the buffer: the
      reply itself exactly if nothing had been sent before. */
  lemma ResentFromTheStart(m: seq<Byte>, earlier: seq<Byte>)
    requires |earlier| < MESSAGE_SIZE
    ensures earlier + Reply(m)[..MESSAGE_SIZE - |earlier|] == Reply(m) <==> earlier == []
  {
    var sent := |earlier|;
    var segment := earlier + Reply(m)[..MESSAGE_SIZE - sent];
    if sent > 0 {
      assert segment[sent..] == Reply(m)[..MESSAGE_SIZE - sent];
      ReplyTailIsNotHead(m, sent);
    } else {
      assert segment == Reply(m);
    }
  }

  /** The call that sends the last bytes completes the reply. */
  lemma LastSent(wire: seq<Byte>, frames: seq<seq<Byte>>, segments: seq<seq<Byte>>, oneCall: seq<bool>,
                 reply: seq<Byte>, sent: nat, toSend: nat)
    requires Writing(wire, frames, segments, oneCall, reply, sent, toSend, WriteResponse)
    ensures var segment := wire[|wire| - sent..] + reply[..toSend];
            Writing(wire + reply[..toSend], frames, segments + [segment], oneCall + [sent == 0], reply, 0, 0, ReadHeader)
  {
    var head, tail := wire[..|wire| - sent], wire[|wire| - sent..];
    var segment := tail + reply[..toSend];
    FlattenSnoc(segments, segment);
    assert wire + reply[..toSend] == head + segment by {
      assert wire == head + tail;
      Assoc(head, tail, reply[..toSend]);
    }
    assert (head + segment)[..|head + segment| - 0] == head + segment;
    ResentFromTheStart(frames[|frames| - 1], wire[|wire| - sent..]);
    SegmentedSnoc(frames, segments, oneCall, segment, sent == 0);
  }

  lemma SegmentedSnoc(frames: seq<seq<Byte>>, segments: seq<seq<Byte>>, oneCall: seq<bool>,
                      segment: seq<Byte>, whole: bool)
    requires Segmented(frames, segments, oneCall) && |segments| < |frames| && |segment| == MESSAGE_SIZE
    requires segment == Reply(frames[|segments|]) <==> whole
    ensures Segmented(frames, segments + [segment], oneCall + [whole])
  {
  }

  lemma AfterReadKeeps(stream: seq<Byte>, v: View, res: IoResult)
    requires v.state == v.phase && (res == IoSuccess <==> v.toRead == 0)
    requires v.phase == ReadHeader || v.phase == ReadContent
    requires Received(stream, v.pos, v.frames, v.buffered, v.toRead, v.phase)
    requires Writing(v.wire, v.frames, v.segments, v.oneCall, v.reply, v.sent, v.toSend, v.phase)
    ensures Consistent(stream, AfterRead(v, res))
  {
    if res == IoSuccess && v.phase == ReadContent {
      StartReply(v.wire, v.frames, v.segments, v.oneCall, v.reply, v.sent, v.toSend, v.buffered);
    }
  }

  lemma ReadTurnIs(stream: seq<Byte>, v: View, events: seq<IoEvent>, res: IoResult, n: nat)
    requires InRange(stream, v) && (res, n) == Outcome(|stream| - v.pos, v.toRead, events)
    ensures ReadTurn(stream, v, events) == AfterRead(Got(stream, v, n), res)
  {
  }

  lemma ReadKeeps(stream: seq<Byte>, v: View, events: seq<IoEvent>)
    requires Consistent(stream, v) && InRange(stream, v) && (v.state == ReadHeader || v.state == ReadContent)
    ensures Consistent(stream, ReadTurn(stream, v, events))
  {
    var (res, n) := Outcome(|stream| - v.pos, v.toRead, events);
    var got := Got(stream, v, n);
    MoreReceived(stream, v.pos, v.frames, v.buffered, v.toRead, v.phase, got.pos, got.buffered, got.toRead);
    AfterReadKeeps(stream, got, res);
    ReadTurnIs(stream, v, events, res, n);
  }

  lemma WriteTurnIs(stream: seq<Byte>, v: View, events: seq<IoEvent>, res: IoResult, n: nat)
    requires InRange(stream, v) && (res, n) == Outcome(v.toSend, v.toSend, SendEvents(events))
    ensures WriteTurn(stream, v, events) == if res == IoSuccess then ReplySent(v) else PartSent(v, n)
  {
  }

  lemma WriteKeeps(stream: seq<Byte>, v: View, events: seq<IoEvent>)
    requires Consistent(stream, v) && InRange(stream, v) && v.state == WriteResponse
    ensures Consistent(stream, WriteTurn(stream, v, events))
  {
    var (res, n) := Outcome(v.toSend, v.toSend, SendEvents(events));
    WriteTurnIs(stream, v, events, res, n);
    if res == IoSuccess {
      LastSent(v.wire, v.frames, v.segments, v.oneCall, v.reply, v.sent, v.toSend);
    } else {
      MoreSent(v.wire, v.frames, v.segments, v.oneCall, v.reply, v.sent, v.toSend, n);
    }
  }

  lemma TurnKeeps(stream: seq<Byte>, v: View, turn: Turn)
    requires Consistent(stream, v) && InRange(stream, v)
    ensures Consistent(stream, Turned(stream, v, turn))
  {
    match turn {
      case In(events, shutdown) =>
        if (v.state == ReadHeader || v.state == ReadContent) && !shutdown {
          ReadKeeps(stream, v, events);
        }
      case Out(events, shutdown) =>
        if v.state == WriteResponse && !shutdown {
          WriteKeeps(stream, v, events);
        }
      case HangUp =>
    }
  }

  lemma {:induction false} TurnsKeep(stream: seq<Byte>, v: View, turns: seq<Turn>)
    requires Consistent(stream, v) && InRange(stream, v)
    ensures Consistent(stream, TurnedAll(stream, v, turns))
    decreases |turns|
  {
    if turns != [] {
      TurnKeeps(stream, v, turns[0]);
      TurnsKeep(stream, Turned(stream, v, turns[0]), turns[1..]);
    }
  }

  /** The states go header, content, reply, header; a turn may only stay or close besides. */
  lemma StateCycle(stream: seq<Byte>, v: View, turn: Turn)
    requires Consistent(stream, v) && InRange(stream, v)
    ensures var s := Turned(stream, v, turn).state;
            s == v.state || s == PendingClose || (v.state, s) in
              {(ReadHeader, ReadContent), (ReadContent, WriteResponse), (WriteResponse, ReadHeader)}
  {
  }

  /** Closing is final: nothing is read, sent or answered after it, and a hang-up closes
      whatever else happens. */
  lemma {:induction false} ClosedForGood(stream: seq<Byte>, v: View, turns: seq<Turn>)
    requires InRange(stream, v)
    ensures v.state == PendingClose ==> TurnedAll(stream, v, turns) == v
    ensures HangUp in turns ==> TurnedAll(stream, v, turns).state == PendingClose
    decreases |turns|
  {
    if turns != [] {
      assert HangUp in turns ==> turns[0] == HangUp || HangUp in turns[1..];
      ClosedForGood(stream, Turned(stream, v, turns[0]), turns[1..]);
    }
  }

  // ---------------------------------------------------------------------------
  // Agreement with the pure splitter, however the bytes arrive
  // ---------------------------------------------------------------------------

  /** The beginning of a frame: as long as bytes are missing it holds no frame, and it begins
      the frame that comes out once they are there. */
  lemma SplitUnfinished(buffered: seq<Byte>, more: seq<Byte>)
    requires |buffered| >= HEADER_SIZE ==> |buffered| <= HEADER_SIZE + DeclaredLength(buffered)
    ensures Split(buffered) == if IsFrame(buffered) then [buffered] else []
    ensures Split(buffered + more) != [] ==> buffered <= Split(buffered + more)[0]
  {
    var rest := buffered + more;
    if IsFrame(buffered) {
      assert buffered[..|buffered|] == buffered && buffered[|buffered|..] == [];
    }
    if Split(rest) != [] {
      assert |buffered| >= HEADER_SIZE ==> DeclaredLength(rest) == DeclaredLength(buffered);
      assert Split(rest)[0] == rest[..HEADER_SIZE + DeclaredLength(rest)];
    }
  }

  /** The frames handed to the reply function are a prefix of the frames of the stream; what
      is buffered is the beginning of the next one; and no complete frame is held back,
      except one without content whose header has just been read. */
  lemma ReaderAgreesWithSplit(stream: seq<Byte>, pos: nat, frames: seq<seq<Byte>>, buffered: seq<Byte>, toRead: nat,
                              phase: ConnState)
    requires Reading(stream, pos, frames, buffered, toRead, phase)
    ensures frames <= Split(stream)
    ensures |frames| < |Split(stream)| ==> buffered <= Split(stream)[|frames|]
    ensures Split(stream[..pos]) == frames + if phase == ReadContent && toRead == 0 then [buffered] else []
  {
    var rest := buffered + stream[pos..];
    assert stream == Flatten(frames) + rest by { assert stream == stream[..pos] + stream[pos..]; }
    SplitFlatten(frames, rest);
    SplitFlatten(frames, buffered);
    SplitUnfinished(buffered, stream[pos..]);
    assert frames == Split(stream)[..|frames|];
    if Split(rest) != [] {
      assert Split(stream)[|frames|] == Split(rest)[0];
    }
  }

  ghost function Replies(frames: seq<seq<Byte>>): (r: seq<seq<Byte>>)
    ensures |r| == |frames|
    ensures forall i :: 0 <= i < |r| ==> r[i] == Reply(frames[i])
  {
    seq(|frames|, i requires 0 <= i < |frames| => Reply(frames[i]))
  }

  /** Sequences of equally long pieces flatten to the same bytes only if they are the same. */
  lemma {:induction false} FlattenInjective(a: seq<seq<Byte>>, b: seq<seq<Byte>>)
    requires |a| == |b|
    requires forall i :: 0 <= i < |a| ==> |a[i]| == |b[i]| == MESSAGE_SIZE
    ensures Flatten(a) == Flatten(b) ==> a == b
    ensures |Flatten(a)| == MESSAGE_SIZE * |a|
  {
    if a != [] {
      FlattenInjective(a[1..], b[1..]);
      if Flatten(a) == Flatten(b) {
        assert a[0] == Flatten(a)[..MESSAGE_SIZE] && b[0] == Flatten(b)[..MESSAGE_SIZE];
        assert Flatten(a[1..]) == Flatten(a)[MESSAGE_SIZE..] && Flatten(b[1..]) == Flatten(b)[MESSAGE_SIZE..];
        assert a == [a[0]] + a[1..] && b == [b[0]] + b[1..];
      }
    }
  }

  /** Bytes on the wire are conserved: eleven per completed reply, plus those sent of the
      reply under way. Between replies the wire is the replies, in order, exactly if every
      one of them went out in one call. */
  lemma WireIsRepliesExactlyIfUnsplit(wire: seq<Byte>, frames: seq<seq<Byte>>, segments: seq<seq<Byte>>,
                                      oneCall: seq<bool>, reply: seq<Byte>, sent: nat, toSend: nat, phase: ConnState)
    requires Writing(wire, frames, segments, oneCall, reply, sent, toSend, phase)
    ensures |wire| == MESSAGE_SIZE * |segments| + sent
    ensures phase != WriteResponse ==>
              (wire == Flatten(Replies(frames)) <==> forall i :: 0 <= i < |oneCall| ==> oneCall[i])
  {
    FlattenInjective(segments, segments);
    if phase != WriteResponse {
      var replies := Replies(frames);
      assert wire[..|wire| - 0] == wire;
      FlattenInjective(segments, replies);
      if wire == Flatten(replies) {
        assert forall i :: 0 <= i < |oneCall| ==> segments[i] == Reply(frames[i]);
      }
      if forall i :: 0 <= i < |oneCall| ==> oneCall[i] {
        assert segments == replies;
      }
    }
  }

  // ---------------------------------------------------------------------------
  // Whole runs
  // ---------------------------------------------------------------------------

  /** After any turns on any stream, in whatever chunks it arrives: the frames handed over
      are a prefix of the frames of the stream; what is buffered begins the next one; the
      wire holds eleven bytes per completed reply and what has been sent of the one under
      way; and between replies it is the replies, in order, exactly if each went out in one
      call. */
  lemma AnyRun(stream: seq<Byte>, turns: seq<Turn>)
    ensures var v := TurnedAll(stream, START, turns);
            && Consistent(stream, v)
            && stream[..v.pos] == Flatten(v.frames) + v.buffered
            && v.frames <= Split(stream)
            && (|v.frames| < |Split(stream)| ==> v.buffered <= Split(stream)[|v.frames|])
            && |v.wire| == MESSAGE_SIZE * |v.segments| + v.sent
            && |v.frames| == |v.segments| + (if v.phase == WriteResponse then 1 else 0)
            && (v.phase != WriteResponse ==>
                  (v.wire == Flatten(Replies(v.frames)) <==> forall i :: 0 <= i < |v.oneCall| ==> v.oneCall[i]))
  {
    TurnsKeep(stream, START, turns);
    var v := TurnedAll(stream, START, turns);
    ReaderAgreesWithSplit(stream, v.pos, v.frames, v.buffered, v.toRead, v.phase);
    WireIsRepliesExactlyIfUnsplit(v.wire, v.frames, v.segments, v.oneCall, v.reply, v.sent, v.toSend, v.phase);
  }

  /** The header just read declared no content; the frame is complete but not handed over. */
  ghost predicate HeldBack(v: View) {
    v.phase == ReadContent && v.toRead == 0
  }

  /** Two runs that have consumed the same bytes of the same stream, in whatever chunks, have
      handed over the same frames and buffer the same bytes. */
  lemma ChunkIndependence(stream: seq<Byte>, turns: seq<Turn>, turns': seq<Turn>)
    requires var v, v' := TurnedAll(stream, START, turns), TurnedAll(stream, START, turns');
             v.pos == v'.pos && !HeldBack(v) && !HeldBack(v')
    ensures var v, v' := TurnedAll(stream, START, turns), TurnedAll(stream, START, turns');
            v.frames == v'.frames == Split(stream[..v.pos]) && v.buffered == v'.buffered
  {
    TurnsKeep(stream, START, turns);
    TurnsKeep(stream, START, turns');
    var v, v' := TurnedAll(stream, START, turns), TurnedAll(stream, START, turns');
    ReaderAgreesWithSplit(stream, v.pos, v.frames, v.buffered, v.toRead, v.phase);
    ReaderAgreesWithSplit(stream, v.pos, v'.frames, v'.buffered, v'.toRead, v'.phase);
    assert v.frames + [] == v.frames && v'.frames + [] == v'.frames;
    assert v.buffered == stream[..v.pos][|Flatten(v.frames)|..];
    assert v'.buffered == stream[..v.pos][|Flatten(v.frames)|..];
  }

  ghost predicate AllOneCall(v: View) {
    forall i :: 0 <= i < |v.oneCall| ==> v.oneCall[i]
  }

  /** The turn that takes an open connection furthest: send all, or receive all that is wanted. */
  function Onward(v: View): Turn {
    if v.state == WriteResponse then Out([Bytes(v.toSend)], false) else In([Bytes(v.toRead)], false)
  }

  /** Nothing to send, and fewer bytes left than wanted. */
  ghost predicate Drained(stream: seq<Byte>, v: View) {
    (v.state == ReadHeader || v.state == ReadContent) && |stream| < v.pos + v.toRead
  }

  lemma OnwardCompletes(stream: seq<Byte>, v: View)
    requires Consistent(stream, v) && InRange(stream, v) && v.state != PendingClose && !Drained(stream, v)
    ensures var w := Turned(stream, v, Onward(v));
            && Consistent(stream, w) && InRange(stream, w)
            && w.pos == v.pos + (if v.state == WriteResponse then 0 else v.toRead)
            && w.state == (if v.state == ReadHeader then ReadContent
                           else if v.state == ReadContent then WriteResponse else ReadHeader)
            && (AllOneCall(v) && v.sent == 0 ==> AllOneCall(w) && w.sent == 0)
            && (w.state == ReadHeader ==> w.toRead == HEADER_SIZE)
  {
    var events := Onward(v).events;
    TurnKeeps(stream, v, Onward(v));
    if v.state == WriteResponse {
      assert SendEvents(events)[0] == events[0];
      assert Outcome(v.toSend, v.toSend, SendEvents(events)) == (IoSuccess, v.toSend);
    } else {
      assert Outcome(|stream| - v.pos, v.toRead, events) == (IoSuccess, v.toRead);
    }
  }

  /** A drained connection has handed over every frame of the stream and finished every reply. */
  lemma DrainedHasAll(stream: seq<Byte>, v: View)
    requires Consistent(stream, v) && Drained(stream, v)
    ensures v.frames == Split(stream) && |v.segments| == |v.frames|
  {
    var rest := v.buffered + stream[v.pos..];
    assert stream == Flatten(v.frames) + rest by { assert stream == stream[..v.pos] + stream[v.pos..]; }
    SplitFlatten(v.frames, rest);
    assert Split(rest) == [] by {
      assert |v.buffered| >= HEADER_SIZE ==> DeclaredLength(rest) == DeclaredLength(v.buffered);
    }
    assert v.frames + [] == v.frames;
  }

  /** No state of an open connection is a dead end: some turns bring every remaining frame to
      the reply function and every reply to its end. If no reply has been sent in pieces so
      far, the wire then holds exactly the replies to the frames of the stream. */
  lemma {:induction false} EveryFrameCanBeAnswered(stream: seq<Byte>, v: View) returns (turns: seq<Turn>)
    requires Consistent(stream, v) && InRange(stream, v) && v.state != PendingClose
    ensures var w := TurnedAll(stream, v, turns);
            && w.frames == Split(stream) && |w.segments| == |Split(stream)|
            && (AllOneCall(v) && v.sent == 0 ==> w.wire == Flatten(Replies(Split(stream))))
    decreases |stream| - v.pos, if v.state == ReadContent then 2 else if v.state == WriteResponse then 1 else 0
  {
    if Drained(stream, v) {
      turns := [];
      DrainedHasAll(stream, v);
      WireIsRepliesExactlyIfUnsplit(v.wire, v.frames, v.segments, v.oneCall, v.reply, v.sent, v.toSend, v.phase);
    } else {
      var t := Onward(v);
      OnwardCompletes(stream, v);
      var rest := EveryFrameCanBeAnswered(stream, Turned(stream, v, t));
      turns := [t] + rest;
      assert turns[1..] == rest;
    }
  }

  lemma {:induction false} TurnedConcat(stream: seq<Byte>, v: View, turns: seq<Turn>, rest: seq<Turn>)
    requires InRange(stream, v)
    ensures TurnedAll(stream, v, turns + rest) == TurnedAll(stream, TurnedAll(stream, v, turns), rest)
    decreases |turns|
  {
    if turns == [] {
      assert turns + rest == rest;
    } else {
      assert (turns + rest)[1..] == turns[1..] + rest;
      TurnedConcat(stream, Turned(stream, v, turns[0]), turns[1..], rest);
    }
  }

  lemma TurnedOne(stream: seq<Byte>, v: View, turn: Turn)
    requires InRange(stream, v)
    ensures TurnedAll(stream, v, [turn]) == Turned(stream, v, turn)
  {
    assert [turn][1..] == [];
  }

  lemma TurnedTwo(stream: seq<Byte>, v: View, first: Turn, second: Turn)
    requires InRange(stream, v)
    ensures TurnedAll(stream, v, [first, second]) == Turned(stream, Turned(stream, v, first), second)
  {
    TurnedOne(stream, v, first);
    TurnedOne(stream, Turned(stream, v, first), second);
    TurnedConcat(stream, v, [first], [second]);
    assert [first] + [second] == [first, second];
  }

  // ---------------------------------------------------------------------------
  // When the receive buffer is large enough
  // ---------------------------------------------------------------------------

  /** The next read, if it is one, asks for no more than the receive buffer has room for. */
  predicate Fits(v: View) {
    v.state == ReadHeader || v.state == ReadContent ==> |v.buffered| + v.toRead <= IO_BUF_SIZE
  }

  lemma HeaderTaken(stream: seq<Byte>, v: View)
    requires Consistent(stream, v) && InRange(stream, v)
    requires v.state == ReadHeader && v.toRead == HEADER_SIZE && v.pos + HEADER_SIZE <= |stream|
    ensures var w := Turned(stream, v, Onward(v));
            w.state == ReadContent && |w.buffered| == HEADER_SIZE && w.toRead == DeclaredLength(stream[v.pos..])
  {
    var events := Onward(v).events;
    assert Outcome(|stream| - v.pos, v.toRead, events) == (IoSuccess, v.toRead);
    ReadTurnIs(stream, v, events, IoSuccess, HEADER_SIZE);
    assert v.buffered == [];
    assert [] + stream[v.pos..v.pos + HEADER_SIZE] == stream[v.pos..][..HEADER_SIZE];
  }

  /** Three turns onward take a complete frame and answer it. */
  lemma FrameOnward(stream: seq<Byte>, v: View) returns (turns: seq<Turn>)
    requires Consistent(stream, v) && InRange(stream, v) && v.state == ReadHeader && v.toRead == HEADER_SIZE
    requires |stream| - v.pos >= HEADER_SIZE
    requires |stream| - v.pos >= HEADER_SIZE + DeclaredLength(stream[v.pos..])
    ensures var w := TurnedAll(stream, v, turns);
            && Consistent(stream, w) && w.state == ReadHeader && w.toRead == HEADER_SIZE
            && w.pos == v.pos + HEADER_SIZE + DeclaredLength(stream[v.pos..])
  {
    var t1 := Onward(v);
    HeaderTaken(stream, v);
    OnwardCompletes(stream, v);
    var v1 := Turned(stream, v, t1);
    var t2 := Onward(v1);
    OnwardCompletes(stream, v1);
    var v2 := Turned(stream, v1, t2);
    var t3 := Onward(v2);
    OnwardCompletes(stream, v2);
    TurnedOne(stream, v, t1);
    TurnedOne(stream, v1, t2);
    TurnedOne(stream, v2, t3);
    TurnedConcat(stream, v, [t1], [t2]);
    TurnedConcat(stream, v, [t1] + [t2], [t3]);
    turns := [t1] + [t2] + [t3];
  }

  /** A stream that declares a longer length somewhere leads a reader there. */
  lemma {:induction false} ReachesOversize(stream: seq<Byte>, v: View) returns (turns: seq<Turn>)
    requires Consistent(stream, v) && InRange(stream, v) && v.state == ReadHeader && v.toRead == HEADER_SIZE
    requires !LengthsFit(stream[v.pos..])
    ensures !Fits(TurnedAll(stream, v, turns))
    decreases |stream| - v.pos
  {
    var rest := stream[v.pos..];
    if DeclaredLength(rest) > IO_BUF_SIZE - HEADER_SIZE {
      turns := [Onward(v)];
      HeaderTaken(stream, v);
      TurnedOne(stream, v, Onward(v));
    } else {
      var first := FrameOnward(stream, v);
      var w := TurnedAll(stream, v, first);
      assert stream[w.pos..] == rest[HEADER_SIZE + DeclaredLength(rest)..];
      var more := ReachesOversize(stream, w);
      TurnedConcat(stream, v, first, more);
      turns := first + more;
    }
  }

  /** Reads stay within the receive buffer in every run exactly if every length that the
      stream declares is at most 1021. */
  lemma BufferSufficesExactly(stream: seq<Byte>)
    ensures (forall turns :: Fits(TurnedAll(stream, START, turns))) <==> LengthsFit(stream)
  {
    if LengthsFit(stream) {
      forall turns ensures Fits(TurnedAll(stream, START, turns)) {
        TurnsKeep(stream, START, turns);
        FitsIfLengthsFit(stream, TurnedAll(stream, START, turns));
      }
    } else {
      assert stream[START.pos..] == stream;
      var turns := ReachesOversize(stream, START);
    }
  }

  lemma FitsIfLengthsFit(stream: seq<Byte>, v: View)
    requires Consistent(stream, v) && LengthsFit(stream)
    ensures Fits(v)
  {
    NextFrameFits(stream, v.pos, v.frames, v.buffered, v.toRead, v.phase);
  }

  // ---------------------------------------------------------------------------
  // A reply sent in two pieces
  // ---------------------------------------------------------------------------

  /** The connection that has read the whole stream, one frame, and owes its reply. */
  function Answering(f: seq<Byte>): View {
    View(WriteResponse, |f|, [], 0, Reply(f), 0, MESSAGE_SIZE, [], WriteResponse, [f], [], [])
  }

  /** The connection that has read the header of a stream of one frame. */
  function HeaderOf(f: seq<Byte>): View
    requires IsFrame(f)
  {
    START.(pos := HEADER_SIZE, buffered := f[..HEADER_SIZE], toRead := |f| - HEADER_SIZE,
           state := ReadContent, phase := ReadContent)
  }

  lemma ReadsHeader(f: seq<Byte>)
    requires IsFrame(f)
    ensures Turned(f, START, In([Bytes(HEADER_SIZE)], false)) == HeaderOf(f)
  {
    var events := [Bytes(HEADER_SIZE)];
    assert Outcome(|f|, HEADER_SIZE, events) == (IoSuccess, HEADER_SIZE);
    ReadTurnIs(f, START, events, IoSuccess, HEADER_SIZE);
    assert Got(f, START, HEADER_SIZE).buffered == f[..HEADER_SIZE];
  }

  lemma ReadsContent(f: seq<Byte>)
    requires IsFrame(f)
    ensures Turned(f, HeaderOf(f), In([Bytes(|f|)], false)) == Answering(f)
  {
    var events, n := [Bytes(|f|)], |f| - HEADER_SIZE;
    assert Outcome(n, n, events) == (IoSuccess, n);
    ReadTurnIs(f, HeaderOf(f), events, IoSuccess, n);
    assert Got(f, HeaderOf(f), n).buffered == f;
  }

  lemma ReadsFrame(f: seq<Byte>)
    requires IsFrame(f)
    ensures TurnedAll(f, START, [In([Bytes(HEADER_SIZE)], false), In([Bytes(|f|)], false)]) == Answering(f)
  {
    ReadsHeader(f);
    ReadsContent(f);
    TurnedTwo(f, START, In([Bytes(HEADER_SIZE)], false), In([Bytes(|f|)], false));
  }

  /** A first call that sends n bytes and would block, then one that sends the rest. */
  lemma SendsInTwo(f: seq<Byte>, n: nat)
    requires IsFrame(f) && 0 < n < MESSAGE_SIZE
    ensures var v := TurnedAll(f, Answering(f), [Out([Bytes(n), WouldBlock], false), Out([Bytes(MESSAGE_SIZE - n)], false)]);
            v.state == ReadHeader && v.frames == [f] && v.wire == Reply(f)[..n] + Reply(f)[..MESSAGE_SIZE - n]
  {
    var first, second := Out([Bytes(n), WouldBlock], false), Out([Bytes(MESSAGE_SIZE - n)], false);
    var v := Answering(f);
    var script := SendEvents(first.events);
    assert script == first.events;
    assert From(MESSAGE_SIZE - n, MESSAGE_SIZE - n, script, 1) == (IoWouldBlock, 0);
    WriteTurnIs(f, v, first.events, IoWouldBlock, n);
    var v1 := Turned(f, v, first);
    assert v1 == PartSent(v, n);
    assert SendEvents(second.events) == second.events;
    WriteTurnIs(f, v1, second.events, IoSuccess, MESSAGE_SIZE - n);
    var v2 := Turned(f, v1, second);
    assert v2 == ReplySent(v1);
    TurnedTwo(f, v, first, second);
  }

  /** For every frame and every way to send its reply in two pieces there is a run in which
      the connection takes the reply for sent, and the wire does not hold it. */
  lemma SplitReplyCorrupts(f: seq<Byte>, n: nat) returns (turns: seq<Turn>)
    requires IsFrame(f) && 0 < n < MESSAGE_SIZE
    ensures var v := TurnedAll(f, START, turns);
            && v.state == ReadHeader && v.frames == [f] == Split(f)
            && v.wire == Reply(f)[..n] + Reply(f)[..MESSAGE_SIZE - n] && v.wire != Reply(f)
  {
    var read := [In([Bytes(HEADER_SIZE)], false), In([Bytes(|f|)], false)];
    var send := [Out([Bytes(n), WouldBlock], false), Out([Bytes(MESSAGE_SIZE - n)], false)];
    ReadsFrame(f);
    SendsInTwo(f, n);
    TurnedConcat(f, START, read, send);
    turns := read + send;
    ResentFromTheStart(f, Reply(f)[..n]);
    SplitFrame(f, []);
    assert f + [] == f;
  }
}
