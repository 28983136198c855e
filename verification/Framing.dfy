/** The wire format: a byte stream cut into frames, and the reply to a frame. */
module Framing {
  type Byte = x: int | 0 <= x < 256

  const HEADER_SIZE := 3
  const IO_BUF_SIZE := 1024
  const MESSAGE_SIZE := 11
  const PING_TYPE: Byte := 0
  const PONG_TYPE: Byte := 1
  const PING_PONG_ERR: Byte := 2

  /** The big-endian length in bytes 1 and 2 of a header. */
  function DeclaredLength(h: seq<Byte>): nat
    requires |h| >= HEADER_SIZE
  {
    h[1] as int * 256 + h[2] as int
  }

  predicate IsFrame(f: seq<Byte>) {
    |f| >= HEADER_SIZE && |f| == HEADER_SIZE + DeclaredLength(f)
  }

  /** The complete frames of a stream, in order. */
  function Split(s: seq<Byte>): seq<seq<Byte>> {
    if |s| < HEADER_SIZE || |s| < HEADER_SIZE + DeclaredLength(s) then []
    else
      var n := HEADER_SIZE + DeclaredLength(s);
      [s[..n]] + Split(s[n..])
  }

  function Flatten(frames: seq<seq<Byte>>): seq<Byte> {
    if frames == [] then [] else frames[0] + Flatten(frames[1..])
  }

  /** Every header in the stream declares a length that fits the receive buffer. */
  predicate LengthsFit(s: seq<Byte>) {
    |s| >= HEADER_SIZE ==>
      && DeclaredLength(s) <= IO_BUF_SIZE - HEADER_SIZE
      && (|s| >= HEADER_SIZE + DeclaredLength(s) ==> LengthsFit(s[HEADER_SIZE + DeclaredLength(s)..]))
  }

  /** Cutting one frame off the front. */
  lemma SplitFrame(f: seq<Byte>, tail: seq<Byte>)
    requires IsFrame(f)
    ensures Split(f + tail) == [f] + Split(tail)
    ensures LengthsFit(f + tail) ==> LengthsFit(tail)
  {
    var s := f + tail;
    assert DeclaredLength(s) == DeclaredLength(f);
    assert s[..|f|] == f && s[|f|..] == tail;
  }

  /** Splitting undoes flattening: leading frames come out as they went in. */
  lemma {:induction false} SplitFlatten(frames: seq<seq<Byte>>, rest: seq<Byte>)
    requires forall i :: 0 <= i < |frames| ==> IsFrame(frames[i])
    ensures Split(Flatten(frames) + rest) == frames + Split(rest)
    ensures LengthsFit(Flatten(frames) + rest) ==> LengthsFit(rest)
  {
    if frames == [] {
      assert Flatten(frames) + rest == rest;
      assert frames + Split(rest) == Split(rest);
    } else {
      var f, more := frames[0], frames[1..];
      var tail := Flatten(more) + rest;
      SplitFlatten(more, rest);
      SplitFrame(f, tail);
      assert Flatten(frames) + rest == f + tail by { Assoc(f, Flatten(more), rest); }
      assert [f] + (more + Split(rest)) == frames + Split(rest) by {
        Assoc([f], more, Split(rest));
        assert [f] + more == frames;
      }
    }
  }

  lemma Assoc<T>(a: seq<T>, b: seq<T>, c: seq<T>)
    ensures (a + b) + c == a + (b + c)
  {
  }

  lemma {:induction false} FlattenSnoc(frames: seq<seq<Byte>>, f: seq<Byte>)
    ensures Flatten(frames + [f]) == Flatten(frames) + f
  {
    if frames == [] {
      assert frames + [f] == [f];
      assert Flatten([f]) == f + Flatten([f][1..]);
    } else {
      assert (frames + [f])[1..] == frames[1..] + [f];
      FlattenSnoc(frames[1..], f);
    }
  }

  /** A stream is its frames followed by a remainder that holds no complete frame. */
  lemma {:induction false} SplitCovers(s: seq<Byte>) returns (rest: seq<Byte>)
    ensures Flatten(Split(s)) + rest == s
    ensures Split(rest) == []
    ensures forall i :: 0 <= i < |Split(s)| ==> IsFrame(Split(s)[i])
  {
    if |s| < HEADER_SIZE || |s| < HEADER_SIZE + DeclaredLength(s) {
      rest := s;
    } else {
      var n := HEADER_SIZE + DeclaredLength(s);
      rest := SplitCovers(s[n..]);
      var frames := Split(s);
      assert frames[0] == s[..n] && frames[1..] == Split(s[n..]);
      assert s == s[..n] + s[n..];
    }
  }

  // ---------------------------------------------------------------------------
  // The reply
  // ---------------------------------------------------------------------------

  const PING: seq<Byte> := [112, 105, 110, 103]
  const PONG: seq<Byte> := [112, 111, 110, 103, 0]

  /** A well-formed ping: eleven bytes, the ping type, and "ping" in the text. */
  predicate IsPing(m: seq<Byte>) {
    |m| == MESSAGE_SIZE && m[0] == PING_TYPE && m[6..10] == PING
  }

  /** Pong with the volley raised by one modulo 256, or an error that keeps the client id
      only if the message had the right size. */
  function Reply(m: seq<Byte>): (r: seq<Byte>)
    ensures |r| == MESSAGE_SIZE
    ensures DeclaredLength(r) == MESSAGE_SIZE
  {
    if |m| != MESSAGE_SIZE then [PING_PONG_ERR, 0, 11, 0, 0, 0, 0, 0, 0, 0, 0]
    else if !IsPing(m) then [PING_PONG_ERR, 0, 11, m[3], m[4], 0, 0, 0, 0, 0, 0]
    else [PONG_TYPE, 0, 11, m[3], m[4], (m[5] as int + 1) % 256] + PONG
  }

  /** No proper tail of a reply is also its head: sending the head again in place of the
      tail is always wrong. */
  lemma ReplyTailIsNotHead(m: seq<Byte>, n: nat)
    requires 0 < n < MESSAGE_SIZE
    ensures Reply(m)[n..] != Reply(m)[..MESSAGE_SIZE - n]
  {
    var r := Reply(m);
    var tail, head := r[n..], r[..MESSAGE_SIZE - n];
    assert tail[0] == r[n] && head[0] == r[0];
    if n == 3 {
      assert tail[3] == r[6] && head[3] == r[3];
    } else if n == 4 {
      assert tail[2] == r[6] && head[2] == r[2];
    } else if n == 5 {
      assert tail[1] == r[6] && head[1] == r[1];
    }
  }
}
