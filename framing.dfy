/*
 * The wire format between the launcher and the engine: every message is one
 * length byte followed by that many payload bytes (TCPBase::SendIPC).
 */
module Framing {

  /** One octet of a QByteArray. */
  newtype byte = x: int | 0 <= x < 256

  datatype Option<T> = None | Some(value: T)

  /** A length one byte can announce. */
  type Len = x: nat | x <= 255

  /** MAXMSGCHARS: the largest payload SendIPC accepts.  Its value lives in
      hwconsts.h and is left open here: every proof holds for any value that
      fits in the length byte. */
  const MaxMsgChars: Len

  /** The `quint8 len = buf.size()` cast: keeps the low eight bits of n. */
  function Quint8(n: nat): (b: byte)
    ensures (n - b as int) % 256 == 0
    ensures b as int == n <==> n < 256
  {
    (n % 256) as byte
  }

  /** The frame SendIPC hands to RawSendIPC: the length byte, then the payload. */
  function LengthPrefixed(buf: seq<byte>): (f: seq<byte>)
    ensures |f| == |buf| + 1 && f[1..] == buf
    ensures (f[0] as int - |buf|) % 256 == 0
    ensures |buf| <= MaxMsgChars ==> f[0] as int == |buf|
  {
    [Quint8(|buf|)] + buf
  }

  /** Reads one frame off the front of a byte stream: the payload and the
      bytes after it, or None when the stream holds no complete frame. */
  function ParseFrame(wire: seq<byte>): (r: Option<(seq<byte>, seq<byte>)>)
    ensures r.Some? ==> |r.value.1| < |wire|
    ensures r.Some? ==> |r.value.0| < 256 && wire == [|r.value.0| as byte] + r.value.0 + r.value.1
  {
    if |wire| == 0 then None
    else
      var n := wire[0] as int;
      if |wire| - 1 < n then None
      else
        assert wire == [wire[0]] + wire[1..1 + n] + wire[1 + n..];
        Some((wire[1..1 + n], wire[1 + n..]))
  }

  /** Splits a whole byte stream into the payloads of its frames. */
  function ParseFrames(wire: seq<byte>): Option<seq<seq<byte>>>
    decreases |wire|
  {
    if wire == [] then Some([])
    else
      match ParseFrame(wire)
      case None => None
      case Some((msg, rest)) =>
        match ParseFrames(rest)
        case None => None
        case Some(msgs) => Some([msg] + msgs)
  }

  /** The bytes a run of SendIPC calls puts on the wire, in call order. */
  function Encode(msgs: seq<seq<byte>>): seq<byte>
  {
    if msgs == [] then [] else LengthPrefixed(msgs[0]) + Encode(msgs[1..])
  }

  /** Every payload within MAXMSGCHARS can be framed exactly. */
  ghost predicate AllFit(msgs: seq<seq<byte>>)
  {
    forall i :: 0 <= i < |msgs| ==> |msgs[i]| <= MaxMsgChars
  }

  /** Reading the length byte and taking that many bytes gives the payload
      back, whatever follows the frame. */
  lemma ParseFrameOfLengthPrefixed(buf: seq<byte>, rest: seq<byte>)
    requires |buf| <= MaxMsgChars
    ensures ParseFrame(LengthPrefixed(buf) + rest) == Some((buf, rest))
  {
  }

  /** A stream of frames decodes into the payloads that were sent, in order. */
  lemma {:induction false} ParseFramesOfEncode(msgs: seq<seq<byte>>)
    requires AllFit(msgs)
    ensures ParseFrames(Encode(msgs)) == Some(msgs)
  {
    if msgs != [] {
      ParseFrameOfLengthPrefixed(msgs[0], Encode(msgs[1..]));
      assert AllFit(msgs[1..]) by {
        forall i | 0 <= i < |msgs[1..]| ensures |msgs[1..][i]| <= MaxMsgChars {
          assert msgs[1..][i] == msgs[i + 1];
        }
      }
      ParseFramesOfEncode(msgs[1..]);
      assert [msgs[0]] + msgs[1..] == msgs;
    }
  }

  /** Decoding is the left inverse of encoding in the other direction too: a
      stream that parses is exactly the encoding of what it parses into. */
  lemma {:induction false} EncodeOfParseFrames(wire: seq<byte>)
    requires ParseFrames(wire).Some?
    ensures forall i :: 0 <= i < |ParseFrames(wire).value| ==> |ParseFrames(wire).value[i]| < 256
    ensures Encode(ParseFrames(wire).value) == wire
    decreases |wire|
  {
    if wire != [] {
      var Some((msg, rest)) := ParseFrame(wire);
      EncodeOfParseFrames(rest);
      var msgs := ParseFrames(wire).value;
      assert msgs == [msg] + ParseFrames(rest).value;
      assert msgs[1..] == ParseFrames(rest).value;
      assert |msg| < 256;
      assert Quint8(|msg|) == |msg| as byte;
    }
  }
}
