/** The connection context, updated in place by its tasks and by the main loop. */
module ConnContext {
  import opened Prelude
  import opened Framing
  import opened NetIo
  import opened Connection

  class ConnCtx {
    var state: ConnState
    const recvBuf: array<Byte>
    var bytesRead: nat
    var bytesToRead: nat
    const sendBuf: array<Byte>
    var bytesSent: nat
    var bytesToSend: nat

    ghost var phase: ConnState
    ghost var frames: seq<seq<Byte>>
    ghost var segments: seq<seq<Byte>>
    ghost var oneCall: seq<bool>

    ghost predicate Buffers()
      reads this
    {
      recvBuf.Length == IO_BUF_SIZE && sendBuf.Length == IO_BUF_SIZE && recvBuf != sendBuf && bytesRead <= IO_BUF_SIZE
    }

    /** The reply counts only while it is being sent. */
    ghost function Abs(sock: Socket): View
      requires Buffers()
      reads this, recvBuf, sendBuf, sock
    {
      View(state, sock.pos, recvBuf[..bytesRead], bytesToRead,
           if phase == WriteResponse then sendBuf[..MESSAGE_SIZE] else [], bytesSent, bytesToSend, sock.wire,
           phase, frames, segments, oneCall)
    }

    ghost predicate Valid(sock: Socket)
      reads this, recvBuf, sendBuf, sock
    {
      Buffers() && InRange(sock.inbound, Abs(sock)) && Consistent(sock.inbound, Abs(sock))
    }

    constructor (sock: Socket)
      requires sock.pos == 0 && sock.wire == []
      ensures Valid(sock) && Abs(sock) == START && fresh(recvBuf) && fresh(sendBuf)
    {
      state, phase := ReadHeader, ReadHeader;
      recvBuf := new Byte[IO_BUF_SIZE];
      sendBuf := new Byte[IO_BUF_SIZE];
      bytesRead, bytesToRead, bytesSent, bytesToSend := 0, HEADER_SIZE, 0, 0;
      frames, segments, oneCall := [], [], [];
      new;
      assert recvBuf[..bytesRead] == [];
    }

    /** Receive what is wanted, as far as the socket delivers, behind what is buffered. */
    method Receive(sock: Socket, events: seq<IoEvent>) returns (res: IoResult)
      requires bytesRead + bytesToRead <= recvBuf.Length && sock.pos <= |sock.inbound|
      modifies `bytesRead, `bytesToRead, recvBuf, sock`pos
      ensures old(sock.pos) <= sock.pos <= |sock.inbound| && bytesRead <= recvBuf.Length
      ensures (res, sock.pos - old(sock.pos)) == Outcome(|sock.inbound| - old(sock.pos), old(bytesToRead), events)
      ensures bytesToRead == old(bytesToRead) - (sock.pos - old(sock.pos))
      ensures recvBuf[..bytesRead] == old(recvBuf[..bytesRead]) + sock.inbound[old(sock.pos)..sock.pos]
    {
      var n;
      res, n := RecvAll(sock, recvBuf, bytesRead, bytesToRead, events);
      bytesRead, bytesToRead := bytesRead + n, bytesToRead - n;
    }

    /** The header read. */
    method TakeHeader(sock: Socket, events: seq<IoEvent>) returns (ok: bool)
      requires Buffers() && bytesRead + bytesToRead <= IO_BUF_SIZE && InRange(sock.inbound, Abs(sock))
      requires state == phase == ReadHeader
      modifies this, recvBuf, sock`pos
      ensures Buffers() && Abs(sock) == ReadTurn(sock.inbound, old(Abs(sock)), events)
      ensures ok <==> Outcome(|sock.inbound| - old(sock.pos), old(bytesToRead), events).0 != IoError
    {
      var res := Receive(sock, events);
      ReadTurnIs(sock.inbound, old(Abs(sock)), events, res, sock.pos - old(sock.pos));
      assert Abs(sock) == Got(sock.inbound, old(Abs(sock)), sock.pos - old(sock.pos));
      ok := res != IoError;
      if res == IoSuccess {
        if bytesRead == HEADER_SIZE {
          bytesToRead := recvBuf[1] as int * 256 + recvBuf[2] as int;
          state, phase := ReadContent, ReadContent;
        }
      } else if res == IoEof {
        state := PendingClose;
      }
    }

    /** The content read: on the last byte the reply is made. */
    method TakeContent(sock: Socket, events: seq<IoEvent>) returns (ok: bool)
      requires Buffers() && bytesRead + bytesToRead <= IO_BUF_SIZE && InRange(sock.inbound, Abs(sock))
      requires state == phase == ReadContent && bytesToSend == 0
      modifies this, recvBuf, sendBuf, sock`pos
      ensures Buffers() && Abs(sock) == ReadTurn(sock.inbound, old(Abs(sock)), events)
      ensures ok <==> Outcome(|sock.inbound| - old(sock.pos), old(bytesToRead), events).0 != IoError
    {
      var res := Receive(sock, events);
      ReadTurnIs(sock.inbound, old(Abs(sock)), events, res, sock.pos - old(sock.pos));
      assert Abs(sock) == Got(sock.inbound, old(Abs(sock)), sock.pos - old(sock.pos));
      ok := res != IoError;
      if res == IoSuccess {
        if bytesToRead == 0 {
          Answer(sock);
        }
      } else if res == IoEof {
        state := PendingClose;
      }
    }

    /** The content is complete: make the reply, and both buffers change roles. */
    method Answer(sock: Socket)
      requires Buffers() && state == phase == ReadContent && bytesToSend == 0
      modifies this, recvBuf, sendBuf
      ensures Buffers() && Abs(sock) == ContentRead(old(Abs(sock)))
    {
      ghost var f := recvBuf[..bytesRead];
      var outLen := CreateResponse(recvBuf, sendBuf, bytesRead);
      frames := frames + [f];
      bytesToSend := bytesToSend - bytesToSend % 65536 + outLen;
      bytesToRead, bytesRead := 0, 0;
      state, phase := WriteResponse, WriteResponse;
      Clear(recvBuf);
      assert recvBuf[..bytesRead] == [];
    }

    /** Reads only in the read states; what is wanted must fit the receive buffer. */
    method HandleDataIn(sock: Socket, events: seq<IoEvent>) returns (ok: bool)
      requires Valid(sock) && Fits(Abs(sock))
      modifies this, recvBuf, sendBuf, sock`pos
      ensures Buffers()
      ensures if old(state) == ReadHeader || old(state) == ReadContent
              then Abs(sock) == ReadTurn(sock.inbound, old(Abs(sock)), events)
              else !ok && Abs(sock) == old(Abs(sock))
    {
      match state {
        case ReadHeader => ok := TakeHeader(sock, events);
        case ReadContent => ok := TakeContent(sock, events);
        case _ => ok := false;
      }
    }

    /** Send what is left of the reply, from the start of the send buffer. */
    method HandleDataOut(sock: Socket, events: seq<IoEvent>) returns (ok: bool)
      requires Buffers() && InRange(sock.inbound, Abs(sock)) && state == phase == WriteResponse
      modifies this, sendBuf, sock`wire
      ensures Buffers() && Abs(sock) == WriteTurn(sock.inbound, old(Abs(sock)), events)
      ensures var res := Outcome(old(bytesToSend), old(bytesToSend), SendEvents(events)).0;
              ok <==> res == IoSuccess || res == IoWouldBlock
    {
      ghost var v := Abs(sock);
      var res, n := SendAll(sock, sendBuf, bytesToSend, events);
      assert sendBuf[..n] == v.reply[..n];
      bytesToSend, bytesSent := bytesToSend - n, bytesSent + n;
      ok := res == IoSuccess || res == IoWouldBlock;
      if res == IoSuccess {
        if bytesToSend == 0 {
          segments, oneCall := segments + [v.wire[|v.wire| - v.sent..] + v.reply[..v.toSend]], oneCall + [v.sent == 0];
          bytesToSend, bytesSent := 0, 0;
          state, phase := ReadHeader, ReadHeader;
          bytesToRead := HEADER_SIZE;
          Clear(sendBuf);
        }
      }
    }

    /** A read task: it reads only in a read state, and not during shutdown. */
    method TaskIoRead(sock: Socket, events: seq<IoEvent>, shutdown: bool)
      requires Valid(sock) && (shutdown || Fits(Abs(sock)))
      modifies this, recvBuf, sendBuf, sock`pos
      ensures Valid(sock) && Abs(sock) == Turned(sock.inbound, old(Abs(sock)), In(events, shutdown))
    {
      TurnKeeps(sock.inbound, Abs(sock), In(events, shutdown));
      if (state == ReadContent || state == ReadHeader) && !shutdown {
        var ok := HandleDataIn(sock, events);
      }
    }

    /** A send task: it sends only in the write state, and not during shutdown. */
    method TaskIoSend(sock: Socket, events: seq<IoEvent>, shutdown: bool)
      requires Valid(sock)
      modifies this, sendBuf, sock`wire
      ensures Valid(sock) && Abs(sock) == Turned(sock.inbound, old(Abs(sock)), Out(events, shutdown))
    {
      TurnKeeps(sock.inbound, Abs(sock), Out(events, shutdown));
      if state == WriteResponse && !shutdown {
        var ok := HandleDataOut(sock, events);
      }
    }

    /** The main loop saw the connection hang up. */
    method MarkClosed(sock: Socket)
      requires Valid(sock)
      modifies `state
      ensures Valid(sock) && Abs(sock) == Turned(sock.inbound, old(Abs(sock)), HangUp)
    {
      state := PendingClose;
    }

    method Take(sock: Socket, turn: Turn)
      requires Valid(sock) && (turn.In? ==> turn.shutdown || Fits(Abs(sock)))
      modifies this, recvBuf, sendBuf, sock
      ensures Valid(sock) && Abs(sock) == Turned(sock.inbound, old(Abs(sock)), turn)
    {
      match turn {
        case In(events, shutdown) => TaskIoRead(sock, events, shutdown);
        case Out(events, shutdown) => TaskIoSend(sock, events, shutdown);
        case HangUp => MarkClosed(sock);
      }
    }

    method TakeAll(sock: Socket, turns: seq<Turn>)
      requires Valid(sock) && LengthsFit(sock.inbound)
      modifies this, recvBuf, sendBuf, sock
      ensures Valid(sock) && Abs(sock) == TurnedAll(sock.inbound, old(Abs(sock)), turns)
    {
      ghost var goal := TurnedAll(sock.inbound, Abs(sock), turns);
      for t := 0 to |turns|
        invariant Valid(sock) && TurnedAll(sock.inbound, Abs(sock), turns[t..]) == goal
      {
        assert turns[t..][1..] == turns[t + 1..];
        FitsIfLengthsFit(sock.inbound, Abs(sock));
        Take(sock, turns[t]);
      }
    }
  }

  /** Write the reply to the message in the first inLen bytes of inBuf to outBuf. */
  method CreateResponse(inBuf: array<Byte>, outBuf: array<Byte>, inLen: nat) returns (outLen: nat)
    requires inLen <= inBuf.Length && MESSAGE_SIZE <= outBuf.Length && inBuf != outBuf
    modifies outBuf
    ensures outLen == MESSAGE_SIZE
    ensures outBuf[..outLen] == Reply(inBuf[..inLen])
  {
    outLen := MESSAGE_SIZE;
    var response: seq<Byte> := [0, 0, 0, 0, 0, 0, 0, 0, 0, 0, 0];
    response := response[2 := 11];
    if inLen != MESSAGE_SIZE {
      response := response[0 := PING_PONG_ERR];
    } else {
      var m := inBuf[..inLen];
      response := response[3 := m[3]][4 := m[4]];
      if m[0] != PING_TYPE || m[6..10] != PING {
        response := response[0 := PING_PONG_ERR];
      } else {
        response := response[0 := PONG_TYPE][5 := (m[5] as int + 1) % 256];
        response := response[..6] + PONG;
      }
    }
    Fill(outBuf, response);
  }

  method Clear(buf: array<Byte>)
    modifies buf
    ensures forall i :: 0 <= i < buf.Length ==> buf[i] == 0
  {
    forall i | 0 <= i < buf.Length {
      buf[i] := 0;
    }
  }

  /** Copy data to the start of a buffer. */
  method Fill(buf: array<Byte>, data: seq<Byte>)
    requires |data| <= buf.Length
    modifies buf
    ensures buf[..|data|] == data
  {
    forall i | 0 <= i < |data| {
      buf[i] := data[i];
    }
  }

  /** A connection's life on any stream whose declared lengths fit the receive buffer: what
      it has consumed, buffered and sent is what the turns say. */
  method Converse(stream: seq<Byte>, turns: seq<Turn>)
    returns (state: ConnState, pos: nat, buffered: seq<Byte>, wire: seq<Byte>)
    requires LengthsFit(stream)
    ensures var v := TurnedAll(stream, START, turns);
            state == v.state && pos == v.pos && buffered == v.buffered && wire == v.wire
  {
    var sock := new Socket(stream);
    var ctx := new ConnCtx(sock);
    ctx.TakeAll(sock, turns);
    state, pos, buffered, wire := ctx.state, sock.pos, ctx.recvBuf[..ctx.bytesRead], sock.wire;
  }
}
