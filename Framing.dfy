/**
 * The length-prefixed framing used between a payment-channel client and its
 * server: every message is preceded by its length written as a 4-byte
 * big-endian two's-complement int (`DataOutputStream.writeInt`), and a
 * message may be at most `Short.MAX_VALUE` bytes long.
 */
module Framing {
  import Seqs

  type Byte = b: int | 0 <= b < 256
  type Message = seq<Byte>

  /** `Short.MAX_VALUE`, the cap on a message's length. */
  const MAX_MESSAGE_LENGTH: int := 32767

  const TWO_8: int := 0x100
  const TWO_16: int := 0x1_0000
  const TWO_24: int := 0x100_0000
  const TWO_31: int := 0x8000_0000
  const TWO_32: int := 0x1_0000_0000

  predicate IsInt32(v: int) {
    -TWO_31 <= v < TWO_31
  }

  predicate Sendable(m: Message) {
    |m| <= MAX_MESSAGE_LENGTH
  }

  /** `DataOutputStream.writeInt`: the four bytes of `v`, high byte first. */
  function WriteInt(v: int): (b: seq<Byte>)
    requires IsInt32(v)
    ensures |b| == 4
    ensures v < 0 <==> b[0] >= 128
  {
    var u := if v < 0 then v + TWO_32 else v;
    [u / TWO_24, (u / TWO_16) % TWO_8, (u / TWO_8) % TWO_8, u % TWO_8]
  }

  /** `DataInputStream.readInt` on four available bytes. */
  function ReadInt(b: seq<Byte>): (v: int)
    requires |b| == 4
    ensures IsInt32(v)
    ensures v < 0 <==> b[0] >= 128
  {
    var u := b[0] * TWO_24 + b[1] * TWO_16 + b[2] * TWO_8 + b[3];
    if u >= TWO_31 then u - TWO_32 else u
  }

  /** The unsigned value of four big-endian bytes. */
  function Unsigned(b: seq<Byte>): int
    requires |b| == 4
  {
    b[0] * TWO_24 + b[1] * TWO_16 + b[2] * TWO_8 + b[3]
  }

  lemma {:induction false} UnsignedOfDigits(u: int)
    requires 0 <= u < TWO_32
    ensures u / TWO_24 < TWO_8
    ensures (u / TWO_24) * TWO_24 + ((u / TWO_16) % TWO_8) * TWO_16
            + ((u / TWO_8) % TWO_8) * TWO_8 + u % TWO_8 == u
  {
    var d0, d1, d2, d3 := u / TWO_24, (u / TWO_16) % TWO_8, (u / TWO_8) % TWO_8, u % TWO_8;
    var q1, q2 := u / TWO_16, u / TWO_8;
    assert q2 == q2 / TWO_8 * TWO_8 + d2;
    assert q2 / TWO_8 == q1;
    assert q1 == q1 / TWO_8 * TWO_8 + d1;
    assert q1 / TWO_8 == d0;
    assert u == q2 * TWO_8 + d3;
  }

  lemma {:induction false} DigitsOfUnsigned(b: seq<Byte>)
    requires |b| == 4
    ensures 0 <= Unsigned(b) < TWO_32
    ensures Unsigned(b) / TWO_24 == b[0]
    ensures (Unsigned(b) / TWO_16) % TWO_8 == b[1]
    ensures (Unsigned(b) / TWO_8) % TWO_8 == b[2]
    ensures Unsigned(b) % TWO_8 == b[3]
  {
    var u := Unsigned(b);
    var low1 := b[3];
    var low2 := b[2] * TWO_8 + b[3];
    var low3 := b[1] * TWO_16 + b[2] * TWO_8 + b[3];
    assert 0 <= low3 < TWO_24;
    assert u == b[0] * TWO_24 + low3;
    assert u / TWO_24 == b[0];
    assert u == (b[0] * TWO_8 + b[1]) * TWO_16 + low2;
    assert 0 <= low2 < TWO_16;
    assert u / TWO_16 == b[0] * TWO_8 + b[1];
    assert u == ((b[0] * TWO_8 + b[1]) * TWO_8 + b[2]) * TWO_8 + low1;
    assert u / TWO_8 == (b[0] * TWO_8 + b[1]) * TWO_8 + b[2];
  }

  /** Reading back what `writeInt` wrote yields the same int. */
  lemma {:induction false} ReadWriteInt(v: int)
    requires IsInt32(v)
    ensures ReadInt(WriteInt(v)) == v
  {
    var u := if v < 0 then v + TWO_32 else v;
    UnsignedOfDigits(u);
    assert Unsigned(WriteInt(v)) == u;
  }

  /** Writing the int that four bytes decode to yields those four bytes. */
  lemma {:induction false} WriteReadInt(b: seq<Byte>)
    requires |b| == 4
    ensures WriteInt(ReadInt(b)) == b
  {
    DigitsOfUnsigned(b);
    var u := Unsigned(b);
    var v := ReadInt(b);
    assert (if v < 0 then v + TWO_32 else v) == u;
  }

  /** The frame that carries `m`: its length, then its bytes. */
  function Encode(m: Message): (f: seq<Byte>)
    requires Sendable(m)
    ensures |f| == 4 + |m|
    ensures ReadInt(f[..4]) == |m| && f[4..] == m
  {
    ReadWriteInt(|m|);
    var f := WriteInt(|m|) + m;
    assert f[..4] == WriteInt(|m|);
    f
  }

  /** The frames of several messages, back to back. */
  function EncodeAll(ms: seq<Message>): (s: seq<Byte>)
    requires forall i :: 0 <= i < |ms| ==> Sendable(ms[i])
  {
    if ms == [] then [] else Encode(ms[0]) + EncodeAll(ms[1..])
  }

  /** Why a read loop stopped. */
  datatype Stop =
    | EndOfStream           // fewer than four bytes left for the length (EOFException from readInt)
    | BadLength(length: int)  // a declared length below 0 or above Short.MAX_VALUE
    | Truncated(length: int)  // fewer payload bytes than declared before the stream ended

  datatype ReadStep = Frame(message: Message, rest: seq<Byte>) | Stopped(why: Stop)

  /**
   * One iteration of the read loop: read the length, check it against the cap,
   * read the payload.
   */
  function ReadFrame(s: seq<Byte>): (r: ReadStep)
    ensures r.Frame? ==> Sendable(r.message) && 4 + |r.message| <= |s| && r.rest == s[4 + |r.message|..]
    ensures r == Stopped(EndOfStream) <==> |s| < 4
    ensures r.Stopped? && r.why.BadLength? ==>
      |s| >= 4 && r.why.length == ReadInt(s[..4]) && (s[0] >= 128 || r.why.length > MAX_MESSAGE_LENGTH)
    ensures r.Stopped? && r.why.Truncated? ==>
      |s| >= 4 && r.why.length == ReadInt(s[..4]) && 0 <= |s| - 4 < r.why.length <= MAX_MESSAGE_LENGTH
  {
    if |s| < 4 then Stopped(EndOfStream)
    else
      var len := ReadInt(s[..4]);
      if len < 0 || len > MAX_MESSAGE_LENGTH then Stopped(BadLength(len))
      else if |s| - 4 < len then Stopped(Truncated(len))
      else Frame(s[4..4 + len], s[4 + len..])
  }

  /** A frame the read loop accepts is exactly the encoding of the message it yields. */
  lemma {:induction false} FrameIsEncoding(s: seq<Byte>)
    requires ReadFrame(s).Frame?
    ensures s == Encode(ReadFrame(s).message) + ReadFrame(s).rest
  {
    var m := ReadFrame(s).message;
    WriteReadInt(s[..4]);
    assert ReadInt(s[..4]) == |m|;
    assert Encode(m)[..4] == s[..4];
    assert Encode(m)[4..] == m;
  }

  datatype Decoded = Decoded(messages: seq<Message>, stop: Stop)

  /** Everything a read loop delivers from a finite stream, and why it stops. */
  function DecodeAll(s: seq<Byte>): (r: Decoded)
    ensures forall i :: 0 <= i < |r.messages| ==> Sendable(r.messages[i])
    decreases |s|
  {
    match ReadFrame(s)
    case Stopped(why) => Decoded([], why)
    case Frame(m, rest) =>
      var tail := DecodeAll(rest);
      Decoded([m] + tail.messages, tail.stop)
  }

  /**
   * What the read loop delivers is exactly the frames at the front of the
   * stream, and it stops at the first point where no complete frame follows.
   */
  lemma {:induction false} DecodeAllIsPrefix(s: seq<Byte>)
    ensures |EncodeAll(DecodeAll(s).messages)| <= |s|
    ensures s[..|EncodeAll(DecodeAll(s).messages)|] == EncodeAll(DecodeAll(s).messages)
    ensures ReadFrame(s[|EncodeAll(DecodeAll(s).messages)|..]) == Stopped(DecodeAll(s).stop)
    decreases |s|
  {
    match ReadFrame(s)
    case Stopped(why) =>
      assert s[0..] == s;
    case Frame(m, rest) =>
      FrameIsEncoding(s);
      DecodeAllIsPrefix(rest);
      PrefixStep(s, m, rest, DecodeAll(rest).messages);
  }

  lemma {:induction false} EncodeAllCons(m: Message, ms: seq<Message>)
    requires Sendable(m) && forall i :: 0 <= i < |ms| ==> Sendable(ms[i])
    ensures forall i :: 0 <= i < |[m] + ms| ==> Sendable(([m] + ms)[i])
    ensures EncodeAll([m] + ms) == Encode(m) + EncodeAll(ms)
  {
    assert ([m] + ms)[1..] == ms;
  }

  /** One more frame in front of a decoded prefix keeps it a prefix of the stream. */
  lemma {:induction false} PrefixStep(s: seq<Byte>, m: Message, rest: seq<Byte>, ms: seq<Message>)
    requires Sendable(m) && s == Encode(m) + rest
    requires forall i :: 0 <= i < |ms| ==> Sendable(ms[i])
    requires |EncodeAll(ms)| <= |rest| && rest[..|EncodeAll(ms)|] == EncodeAll(ms)
    ensures forall i :: 0 <= i < |[m] + ms| ==> Sendable(([m] + ms)[i])
    ensures |EncodeAll([m] + ms)| <= |s| && s[..|EncodeAll([m] + ms)|] == EncodeAll([m] + ms)
    ensures s[|EncodeAll([m] + ms)|..] == rest[|EncodeAll(ms)|..]
  {
    EncodeAllCons(m, ms);
    var e, k := Encode(m), |EncodeAll(ms)|;
    assert s[..|e| + k] == e + rest[..k];
    assert s[|e| + k..] == rest[k..];
  }

  /**
   * Decoding frames followed by anything yields the framed messages in order,
   * then whatever the remainder decodes to.
   */
  lemma {:induction false} DecodeEncodeAll(ms: seq<Message>, tail: seq<Byte>)
    requires forall i :: 0 <= i < |ms| ==> Sendable(ms[i])
    ensures DecodeAll(EncodeAll(ms) + tail) == Decoded(ms + DecodeAll(tail).messages, DecodeAll(tail).stop)
  {
    if ms == [] {
      assert EncodeAll(ms) + tail == tail;
      assert ms + DecodeAll(tail).messages == DecodeAll(tail).messages;
    } else {
      var s, after := EncodeAll(ms) + tail, DecodeAll(tail);
      FirstFrame(ms, tail);
      DecodeAllOfFrame(s);
      DecodeEncodeAll(ms[1..], tail);
      Seqs.HeadThenTail(ms, after.messages);
    }
  }

  /** Sending one more message appends its frame to what was already written. */
  lemma {:induction false} EncodeAllSnoc(ms: seq<Message>, m: Message)
    requires Sendable(m) && forall i :: 0 <= i < |ms| ==> Sendable(ms[i])
    ensures forall i :: 0 <= i < |ms + [m]| ==> Sendable((ms + [m])[i])
    ensures EncodeAll(ms + [m]) == EncodeAll(ms) + Encode(m)
    decreases |ms|
  {
    if ms == [] {
      assert [] + [m] == [m];
      assert EncodeAll([m]) == Encode(m) + EncodeAll([]);
    } else {
      assert (ms + [m])[0] == ms[0];
      assert (ms + [m])[1..] == ms[1..] + [m];
      EncodeAllSnoc(ms[1..], m);
    }
  }

  /**
   * The read loop's invariant: having delivered `delivered`, what is still
   * unread (`unread`) decodes to the rest of the whole stream's messages.
   */
  ghost predicate ReadProgress(input: seq<Byte>, unread: seq<Byte>, delivered: seq<Message>)
  {
    DecodeAll(input) == Decoded(delivered + DecodeAll(unread).messages, DecodeAll(unread).stop)
  }

  /** Before the first read nothing is delivered. */
  lemma ReadLoopStart(input: seq<Byte>)
    ensures ReadProgress(input, input, [])
  {
  }

  /** Delivering the frame at the head of `unread` moves the loop past it. */
  lemma {:induction false} ReadLoopStep(input: seq<Byte>, unread: seq<Byte>, delivered: seq<Message>)
    requires ReadProgress(input, unread, delivered) && ReadFrame(unread).Frame?
    ensures ReadProgress(input, ReadFrame(unread).rest, delivered + [ReadFrame(unread).message])
  {
    var m, rest := ReadFrame(unread).message, ReadFrame(unread).rest;
    DecodeAllOfFrame(unread);
    Seqs.Associative(delivered, [m], DecodeAll(rest).messages);
  }

  /** A read loop that stops has delivered everything the stream holds. */
  lemma {:induction false} ReadLoopEnd(input: seq<Byte>, unread: seq<Byte>, delivered: seq<Message>)
    requires ReadProgress(input, unread, delivered) && ReadFrame(unread).Stopped?
    ensures DecodeAll(input) == Decoded(delivered, ReadFrame(unread).why)
  {
    assert delivered + [] == delivered;
  }

  /** The read loop finds the first message first, and resumes at the frames of the others. */
  lemma {:induction false} FirstFrame(ms: seq<Message>, tail: seq<Byte>)
    requires ms != [] && forall i :: 0 <= i < |ms| ==> Sendable(ms[i])
    ensures ReadFrame(EncodeAll(ms) + tail) == Frame(ms[0], EncodeAll(ms[1..]) + tail)
  {
    assert EncodeAll(ms) + tail == Encode(ms[0]) + (EncodeAll(ms[1..]) + tail);
    FrameOfEncoding(ms[0], EncodeAll(ms[1..]) + tail);
  }

  /** When the stream starts with a frame, the read loop delivers it and carries on after it. */
  lemma {:induction false} DecodeAllOfFrame(s: seq<Byte>)
    requires ReadFrame(s).Frame?
    ensures DecodeAll(s) == Decoded([ReadFrame(s).message] + DecodeAll(ReadFrame(s).rest).messages,
                                    DecodeAll(ReadFrame(s).rest).stop)
  {
  }

  /** The first frame of `Encode(m) + rest` is `m`, and the read loop resumes at `rest`. */
  lemma {:induction false} FrameOfEncoding(m: Message, rest: seq<Byte>)
    requires Sendable(m)
    ensures ReadFrame(Encode(m) + rest) == Frame(m, rest)
  {
    var s := Encode(m) + rest;
    assert s[..4] == Encode(m)[..4];
    assert s[4..4 + |m|] == m;
    assert s[4 + |m|..] == rest;
  }

  /** Round trip: the frames of a sequence of messages decode to exactly those messages. */
  lemma RoundTrip(ms: seq<Message>)
    requires forall i :: 0 <= i < |ms| ==> Sendable(ms[i])
    ensures DecodeAll(EncodeAll(ms)) == Decoded(ms, EndOfStream)
  {
    DecodeEncodeAll(ms, []);
    assert EncodeAll(ms) + [] == EncodeAll(ms);
    assert ms + [] == ms;
  }
}
