/**
 * The per-connection reader and writer over a non-blocking socket.
 *
 * The socket is the stream its peer will ever send, a read position, and what has been
 * put on the wire. Each call into it is scripted: it moves some bytes, is interrupted,
 * would block, fails, or reports the end of the stream.
 */
module NetIo {
  import opened Framing

  datatype IoEvent = Bytes(n: nat) | Interrupted | WouldBlock | Failed | Eof

  datatype IoResult = IoSuccess | IoEof | IoWouldBlock | IoError

  class Socket {
    const inbound: seq<Byte>
    var pos: nat
    var wire: seq<Byte>

    constructor (inbound: seq<Byte>)
      ensures this.inbound == inbound && pos == 0 && wire == []
    {
      this.inbound := inbound;
      pos := 0;
      wire := [];
    }
  }

  function Min(a: nat, b: nat): nat {
    if a <= b then a else b
  }

  /** What one call returns: a positive byte count, zero, or an error number. */
  datatype CallResult = Moved(k: nat) | Zero | Eintr | Ewouldblock | Eother

  /** One call asking for `len` bytes when the other side can deliver or take `avail`. */
  function Call(event: IoEvent, avail: nat, len: nat): (r: CallResult)
    ensures r.Moved? ==> 0 < r.k <= avail && r.k <= len
  {
    match event
    case Bytes(n) =>
      var k := Min(n, Min(len, avail));
      if k == 0 then Ewouldblock else Moved(k)
    case Interrupted => Eintr
    case WouldBlock => Ewouldblock
    case Failed => Eother
    case Eof => Zero
  }

  /** What a loop of calls moves: how it ends, and how many bytes in all. An exhausted
      script would block. */
  function Outcome(avail: nat, len: nat, events: seq<IoEvent>): (r: (IoResult, nat))
    ensures r.1 <= len && r.1 <= avail
    ensures r.0 == IoSuccess <==> r.1 == len
  {
    From(avail, len, events, 0)
  }

  /** The same from call e on. */
  function From(avail: nat, len: nat, events: seq<IoEvent>, e: nat): (r: (IoResult, nat))
    requires e <= |events|
    ensures r.1 <= len && r.1 <= avail
    ensures r.0 == IoSuccess <==> r.1 == len
    decreases |events| - e
  {
    if len == 0 then (IoSuccess, 0)
    else if e == |events| then (IoWouldBlock, 0)
    else match Call(events[e], avail, len)
      case Moved(k) => After(k, From(avail - k, len - k, events, e + 1))
      case Zero => (IoEof, 0)
      case Eintr => From(avail, len, events, e + 1)
      case Ewouldblock => (IoWouldBlock, 0)
      case Eother => (IoError, 0)
  }

  /** The outcome of a loop that has already moved `done` bytes. */
  function After(done: nat, o: (IoResult, nat)): (IoResult, nat) {
    (o.0, done + o.1)
  }

  /** The whole loop has the outcome `whole` if it has moved `done` bytes and goes on from call e. */
  ghost predicate Continues(whole: (IoResult, nat), done: nat, avail: nat, len: nat, events: seq<IoEvent>, e: nat) {
    e <= |events| && whole == After(done, From(avail, len, events, e))
  }

  lemma FromEnds(whole: (IoResult, nat), done: nat, avail: nat, len: nat, events: seq<IoEvent>, e: nat)
    requires Continues(whole, done, avail, len, events, e)
    ensures len == 0 ==> whole == (IoSuccess, done)
    ensures len > 0 && e == |events| ==> whole == (IoWouldBlock, done)
  {
  }

  /** What the outcome of the whole loop is when call e moves nothing. */
  lemma FromStays(whole: (IoResult, nat), done: nat, avail: nat, len: nat, events: seq<IoEvent>, e: nat)
    requires e < |events| && len > 0 && Continues(whole, done, avail, len, events, e)
    ensures match Call(events[e], avail, len)
            case Moved(_) => true
            case Eintr => Continues(whole, done, avail, len, events, e + 1)
            case Zero => whole == (IoEof, done)
            case Ewouldblock => whole == (IoWouldBlock, done)
            case Eother => whole == (IoError, done)
  {
  }

  lemma FromMoved(whole: (IoResult, nat), done: nat, avail: nat, len: nat, events: seq<IoEvent>, e: nat, k: nat)
    requires e < |events| && len > 0 && Call(events[e], avail, len) == Moved(k)
    requires Continues(whole, done, avail, len, events, e)
    ensures Continues(whole, done + k, avail - k, len - k, events, e + 1)
  {
  }

  lemma Extend(prefix: seq<Byte>, s: seq<Byte>, a: nat, b: nat, c: nat)
    requires a <= b <= c <= |s|
    ensures (prefix + s[a..b]) + s[b..c] == prefix + s[a..c]
  {
    assert s[a..b] + s[b..c] == s[a..c];
  }

  /** One recv: the bytes it moves land at `at`. */
  method Recv(sock: Socket, buf: array<Byte>, at: nat, len: nat, event: IoEvent) returns (r: CallResult)
    requires at + len <= buf.Length && sock.pos <= |sock.inbound|
    modifies sock`pos, buf
    ensures r == Call(event, |sock.inbound| - old(sock.pos), len)
    ensures sock.pos == old(sock.pos) + (if r.Moved? then r.k else 0)
    ensures buf[..at + (if r.Moved? then r.k else 0)] == old(buf[..at]) + sock.inbound[old(sock.pos)..sock.pos]
  {
    r := Call(event, |sock.inbound| - sock.pos, len);
    if r.Moved? {
      forall i | 0 <= i < r.k {
        buf[at + i] := sock.inbound[sock.pos + i];
      }
      sock.pos := sock.pos + r.k;
    }
  }

  /** One send: the bytes it moves go on the wire. A send never returns zero for a
      non-empty buffer, so an end of stream reads as an error. */
  method Send(sock: Socket, buf: array<Byte>, at: nat, len: nat, event: IoEvent) returns (r: CallResult)
    requires at + len <= buf.Length
    modifies sock`wire
    ensures r == Call(if event == Eof then Failed else event, len, len)
    ensures sock.wire == old(sock.wire) + buf[..][at..at + (if r.Moved? then r.k else 0)]
  {
    r := Call(if event == Eof then Failed else event, len, len);
    if r.Moved? {
      sock.wire := sock.wire + buf[at..at + r.k];
    }
  }

  /** One recv within a loop: what the buffer holds stays one stretch of the stream. */
  method RecvMore(sock: Socket, buf: array<Byte>, at: nat, len: nat, event: IoEvent,
                  ghost head: seq<Byte>, ghost start: nat) returns (r: CallResult)
    requires at + len <= buf.Length && start <= sock.pos <= |sock.inbound|
    requires buf[..at] == head + sock.inbound[start..sock.pos]
    modifies sock`pos, buf
    ensures r == Call(event, |sock.inbound| - old(sock.pos), len)
    ensures sock.pos == old(sock.pos) + (if r.Moved? then r.k else 0)
    ensures buf[..at + (if r.Moved? then r.k else 0)] == head + sock.inbound[start..sock.pos]
  {
    r := Recv(sock, buf, at, len, event);
    Extend(head, sock.inbound, start, old(sock.pos), sock.pos);
  }

  /** Receive until len bytes are there, an error other than an interrupt, or the end. */
  method RecvAll(sock: Socket, buf: array<Byte>, off: nat, len: nat, events: seq<IoEvent>)
    returns (res: IoResult, total: nat)
    requires off + len <= buf.Length && sock.pos <= |sock.inbound|
    modifies sock`pos, buf
    ensures (res, total) == Outcome(|sock.inbound| - old(sock.pos), len, events)
    ensures sock.pos == old(sock.pos) + total <= |sock.inbound|
    ensures buf[..off + total] == old(buf[..off]) + sock.inbound[old(sock.pos)..sock.pos]
  {
    ghost var start, head := sock.pos, buf[..off];
    ghost var avail: nat, left: nat := |sock.inbound| - sock.pos, len;
    ghost var whole := Outcome(avail, left, events);
    var e := 0;
    total := 0;
    while total < len
      invariant total <= len && e <= |events|
      invariant sock.pos == start + total && avail == |sock.inbound| - sock.pos && left == len - total
      invariant Continues(whole, total, avail, left, events, e)
      invariant buf[..off + total] == head + sock.inbound[start..sock.pos]
      decreases |events| - e
    {
      FromEnds(whole, total, avail, left, events, e);
      if e == |events| {
        return IoWouldBlock, total;
      }
      FromStays(whole, total, avail, left, events, e);
      var r := RecvMore(sock, buf, off + total, len - total, events[e], head, start);
      e := e + 1;
      match r {
        case Eintr =>
        case Ewouldblock => return IoWouldBlock, total;
        case Eother => return IoError, total;
        case Zero => return IoEof, total;
        case Moved(k) =>
          FromMoved(whole, total, avail, left, events, e - 1, k);
          total, avail, left := total + k, avail - k, left - k;
      }
    }
    FromEnds(whole, total, avail, left, events, e);
    res := IoSuccess;
  }

  /** The script of a send loop, with an end of stream read as an error. */
  function SendEvents(events: seq<IoEvent>): (r: seq<IoEvent>)
    ensures |r| == |events|
    ensures forall i :: 0 <= i < |r| ==> r[i] == if events[i] == Eof then Failed else events[i]
  {
    seq(|events|, i requires 0 <= i < |events| => if events[i] == Eof then Failed else events[i])
  }

  /** One send within a loop: what has gone out stays one stretch of the buffer. */
  method SendMore(sock: Socket, buf: array<Byte>, at: nat, len: nat, event: IoEvent, ghost before: seq<Byte>)
    returns (r: CallResult)
    requires at + len <= buf.Length && sock.wire == before + buf[..at]
    modifies sock`wire
    ensures r == Call(if event == Eof then Failed else event, len, len)
    ensures sock.wire == before + buf[..at + (if r.Moved? then r.k else 0)]
  {
    r := Send(sock, buf, at, len, event);
    Extend(before, buf[..], 0, at, at + (if r.Moved? then r.k else 0));
    assert forall n :: 0 <= n <= buf.Length ==> buf[..][0..n] == buf[..n];
  }

  /** Send until len bytes are out or an error other than an interrupt. */
  method SendAll(sock: Socket, buf: array<Byte>, len: nat, events: seq<IoEvent>)
    returns (res: IoResult, total: nat)
    requires len <= buf.Length
    modifies sock`wire
    ensures (res, total) == Outcome(len, len, SendEvents(events))
    ensures sock.wire == old(sock.wire) + buf[..total]
  {
    ghost var script := SendEvents(events);
    ghost var left: nat := len;
    ghost var whole := Outcome(left, left, script);
    var e := 0;
    total := 0;
    while total < len
      invariant total <= len && e <= |events| && left == len - total
      invariant Continues(whole, total, left, left, script, e)
      invariant sock.wire == old(sock.wire) + buf[..total]
      decreases |events| - e
    {
      FromEnds(whole, total, left, left, script, e);
      if e == |events| {
        return IoWouldBlock, total;
      }
      FromStays(whole, total, left, left, script, e);
      var r := SendMore(sock, buf, total, len - total, events[e], old(sock.wire));
      e := e + 1;
      match r {
        case Eintr =>
        case Ewouldblock => return IoWouldBlock, total;
        case Moved(k) =>
          FromMoved(whole, total, left, left, script, e - 1, k);
          total, left := total + k, left - k;
        case _ => return IoError, total;
      }
    }
    FromEnds(whole, total, left, left, script, e);
    res := IoSuccess;
  }
}
