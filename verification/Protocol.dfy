/** Messages as the peers write and read them, field by field. */
module Protocol {
  import opened Prelude
  import opened Framing
  import opened NetIo
  import Connection

  // ---------------------------------------------------------------------------
  // Fields
  // ---------------------------------------------------------------------------

  /** A 16-bit number in network byte order. */
  function Put16(n: nat): (r: seq<Byte>)
    requires n <= UINT16_MAX
    ensures |r| == 2
  {
    [n / 256, n % 256]
  }

  /** Characters as ASCII codes. */
  function Ascii(s: string): (r: seq<Byte>)
    requires forall i :: 0 <= i < |s| ==> s[i] as int < 256
    ensures |r| == |s|
  {
    seq(|s|, i requires 0 <= i < |s| => s[i] as int)
  }

  // ---------------------------------------------------------------------------
  // Any message on the way in: a type, a length, and content
  // ---------------------------------------------------------------------------

  datatype Message = Message(kind: Byte, content: seq<Byte>)

  type Sendable = m: Message | |m.content| <= UINT16_MAX witness Message(0, [])

  /** What a peer sends for a message. */
  function Encoded(m: Sendable): seq<Byte> {
    [m.kind] + Put16(|m.content|) + m.content
  }

  function EncodedAll(ms: seq<Sendable>): (r: seq<seq<Byte>>)
    ensures |r| == |ms| && forall i :: 0 <= i < |r| ==> r[i] == Encoded(ms[i])
  {
    seq(|ms|, i requires 0 <= i < |ms| => Encoded(ms[i]))
  }

  lemma EncodedHeader(m: Sendable)
    ensures |Encoded(m)| == HEADER_SIZE + |m.content| && DeclaredLength(Encoded(m)) == |m.content|
    ensures IsFrame(Encoded(m)) && Encoded(m)[0] == m.kind && Encoded(m)[HEADER_SIZE..] == m.content
  {
  }

  /** Every frame is what a peer sends for one message. */
  lemma FrameIsEncoded(f: seq<Byte>) returns (m: Sendable)
    requires IsFrame(f)
    ensures f == Encoded(m)
  {
    m := Message(f[0], f[HEADER_SIZE..]);
    assert Put16(|m.content|) == [f[1], f[2]];
  }

  /** Some bytes of a message, but not all of it. */
  ghost predicate Unfinished(s: seq<Byte>) {
    exists m: Sendable :: s < Encoded(m)
  }

  /** The beginning of a message holds no frame. */
  lemma UnfinishedHasNoFrame(s: seq<Byte>)
    ensures Unfinished(s) <==> Split(s) == []
  {
    if m: Sendable :| s < Encoded(m) {
      EncodedHeader(m);
      assert |s| >= HEADER_SIZE ==> DeclaredLength(s) == DeclaredLength(Encoded(m));
    }
    if Split(s) == [] {
      NoFrameIsUnfinished(s);
    }
  }

  lemma NoFrameIsUnfinished(s: seq<Byte>)
    requires Split(s) == []
    ensures Unfinished(s)
  {
    if |s| < HEADER_SIZE {
      var padded := s + seq(HEADER_SIZE - |s|, i => 0);
      var m := Message(padded[0], seq(DeclaredLength(padded), i => 0));
      assert Put16(|m.content|) == [padded[1], padded[2]];
      assert Encoded(m)[..|s|] == s;
    } else {
      var missing := DeclaredLength(s) - (|s| - HEADER_SIZE);
      var m := Message(s[0], s[HEADER_SIZE..] + seq(missing, i => 0));
      assert Put16(|m.content|) == [s[1], s[2]];
      assert Encoded(m)[..|s|] == s;
    }
  }

  /** The messages of a stream are found exactly: a stream is some messages and the beginning
      of another exactly if splitting it gives what was sent for those messages, and leaves
      that beginning. */
  lemma SplitFindsMessages(stream: seq<Byte>, ms: seq<Sendable>)
    ensures Split(stream) == EncodedAll(ms) <==>
            exists rest :: stream == Flatten(EncodedAll(ms)) + rest && Unfinished(rest)
  {
    if rest :| stream == Flatten(EncodedAll(ms)) + rest && Unfinished(rest) {
      SentIsSplit(ms, rest);
    }
    if Split(stream) == EncodedAll(ms) {
      var rest := SplitCovers(stream);
      UnfinishedHasNoFrame(rest);
    }
  }

  lemma SentIsSplit(ms: seq<Sendable>, rest: seq<Byte>)
    requires Unfinished(rest)
    ensures Split(Flatten(EncodedAll(ms)) + rest) == EncodedAll(ms)
  {
    forall i | 0 <= i < |ms| ensures IsFrame(EncodedAll(ms)[i]) {
      EncodedHeader(ms[i]);
    }
    SplitFlatten(EncodedAll(ms), rest);
    UnfinishedHasNoFrame(rest);
  }

  // ---------------------------------------------------------------------------
  // Pings and pongs
  // ---------------------------------------------------------------------------

  /** The fields of a ping or pong, in the order in which they are sent. */
  datatype Volley = Volley(kind: Byte, len: nat, id: nat, volley: nat, text: seq<Byte>)

  /** What a client reads in eleven bytes. */
  function Parsed(s: seq<Byte>): Volley
    requires |s| == MESSAGE_SIZE
  {
    Volley(s[0], s[1] as int * 256 + s[2] as int, s[3] as int * 256 + s[4] as int, s[5] as int, s[6..])
  }

  /** A message of a client: its number, the volley, and five characters of text. */
  datatype Request = Request(kind: Byte, id: nat, volley: Byte, text: seq<Byte>)

  type Call = r: Request | r.id <= UINT16_MAX && |r.text| == 5 witness Request(0, 0, 0, [0, 0, 0, 0, 0])

  function Sent(c: Call): Sendable {
    Message(c.kind, Put16(c.id) + [c.volley] + c.text)
  }

  /** Every message of eleven bytes is one of a client's. */
  lemma ElevenBytes(m: Sendable) returns (c: Call)
    requires |Encoded(m)| == MESSAGE_SIZE
    ensures m == Sent(c)
  {
    var s := m.content;
    c := Request(m.kind, s[0] as int * 256 + s[1] as int, s[2], s[3..]);
    assert s == Put16(c.id) + [c.volley] + c.text;
  }

  /** A pong carries the client's number back and raises the volley; everything else is
      answered by an error that carries the number. */
  ghost function Answer(c: Call): Volley {
    if c.kind == 0 && c.text[..4] == Ascii("ping") then Volley(1, 11, c.id, (c.volley as int + 1) % 256, Ascii("pong\0"))
    else Volley(2, 11, c.id, 0, Ascii("\0\0\0\0\0"))
  }

  /** The reply to a client's message, as the client reads it. */
  lemma ReplyToClient(c: Call)
    ensures Parsed(Reply(Encoded(Sent(c)))) == Answer(c)
  {
    var m := Encoded(Sent(c));
    assert m == [c.kind, 0, 8, c.id / 256, c.id % 256, c.volley] + c.text;
    assert m[6..10] == c.text[..4];
    assert Ascii("ping") == PING && Ascii("pong\0") == PONG && Ascii("\0\0\0\0\0") == [0, 0, 0, 0, 0];
    assert Parsed(Reply(m)).text == Answer(c).text;
  }

  /** The reply to a message of any other length. */
  lemma ReplyToOther(m: Sendable)
    requires |Encoded(m)| != MESSAGE_SIZE
    ensures Parsed(Reply(Encoded(m))) == Volley(2, 11, 0, 0, Ascii("\0\0\0\0\0"))
  {
    assert Ascii("\0\0\0\0\0") == [0, 0, 0, 0, 0];
  }

  /** A reply declares its whole length, a request only that of its content: read as a
      request, no reply is a complete message. */
  lemma ReplyIsNoFrame(m: seq<Byte>)
    ensures !IsFrame(Reply(m)) && Split(Reply(m)) == []
  {
  }

  // ---------------------------------------------------------------------------
  // A client that sends one message after the other
  // ---------------------------------------------------------------------------

  ghost function SentAll(cs: seq<Call>): (r: seq<Sendable>)
    ensures |r| == |cs| && forall i :: 0 <= i < |r| ==> r[i] == Sent(cs[i])
  {
    seq(|cs|, i requires 0 <= i < |cs| => Sent(cs[i]))
  }

  /** The i-th of equally long pieces. */
  lemma {:induction false} PieceOf(pieces: seq<seq<Byte>>, i: nat)
    requires i < |pieces| && forall k :: 0 <= k < |pieces| ==> |pieces[k]| == MESSAGE_SIZE
    ensures MESSAGE_SIZE * (i + 1) <= |Flatten(pieces)|
    ensures Flatten(pieces)[MESSAGE_SIZE * i..MESSAGE_SIZE * (i + 1)] == pieces[i]
  {
    var flat, rest := Flatten(pieces), Flatten(pieces[1..]);
    assert flat == pieces[0] + rest;
    if i > 0 {
      PieceOf(pieces[1..], i - 1);
      assert flat[MESSAGE_SIZE * i..MESSAGE_SIZE * (i + 1)] == rest[MESSAGE_SIZE * (i - 1)..MESSAGE_SIZE * i];
    }
  }

  /** The replies to a client's messages are read as the answers to them, in order. */
  lemma AnswersInOrder(cs: seq<Call>)
    ensures var stream := Flatten(EncodedAll(SentAll(cs)));
            var wire := Flatten(Connection.Replies(Split(stream)));
            && Split(stream) == EncodedAll(SentAll(cs))
            && |wire| == MESSAGE_SIZE * |cs|
            && forall i :: 0 <= i < |cs| ==>
                 Parsed(wire[MESSAGE_SIZE * i..MESSAGE_SIZE * i + MESSAGE_SIZE]) == Answer(cs[i])
  {
    var sent := EncodedAll(SentAll(cs));
    assert Flatten(sent) + [] == Flatten(sent);
    UnfinishedHasNoFrame([]);
    SentIsSplit(SentAll(cs), []);
    var replies := Connection.Replies(sent);
    Connection.FlattenInjective(replies, replies);
    forall i | 0 <= i < |cs|
      ensures Parsed(Flatten(replies)[MESSAGE_SIZE * i..MESSAGE_SIZE * i + MESSAGE_SIZE]) == Answer(cs[i])
    {
      PieceOf(replies, i);
      assert sent[i] == Encoded(Sent(cs[i]));
      ReplyToClient(cs[i]);
    }
  }

  /** Whatever the chunks, interrupts and would-blocks: what has been handed over are the
      client's messages from the first on, one by one. Between replies, if none went out in
      pieces, the client has got eleven bytes for each of them, and reads in the i-th eleven
      bytes the answer to its i-th message. */
  lemma ClientIsAnswered(cs: seq<Call>, rest: seq<Byte>, turns: seq<Connection.Turn>, i: nat)
    requires Unfinished(rest)
    ensures var v := Connection.TurnedAll(Flatten(EncodedAll(SentAll(cs))) + rest, Connection.START, turns);
            && v.frames <= EncodedAll(SentAll(cs))
            && (v.phase != WriteResponse && Connection.AllOneCall(v) ==>
                  && |v.wire| == MESSAGE_SIZE * |v.frames|
                  && (i < |v.frames| ==>
                        && MESSAGE_SIZE * (i + 1) <= |v.wire|
                        && Parsed(v.wire[MESSAGE_SIZE * i..MESSAGE_SIZE * (i + 1)]) == Answer(cs[i])))
  {
    var stream := Flatten(EncodedAll(SentAll(cs))) + rest;
    var v := Connection.TurnedAll(stream, Connection.START, turns);
    Connection.AnyRun(stream, turns);
    SentIsSplit(SentAll(cs), rest);
    if v.phase != WriteResponse && Connection.AllOneCall(v) && i < |v.frames| {
      PieceOf(Connection.Replies(v.frames), i);
      assert v.frames[i] == Encoded(Sent(cs[i]));
      ReplyToClient(cs[i]);
    }
  }
}
