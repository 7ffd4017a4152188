/** Interleaved RTP over the RTSP connection: what `consumePktFunction` writes, and how section
    10.12 of RFC 2326 says a client reads it back. */
module Framing {
  import opened VideoUrl

  type byte = x: int | 0 <= x < 256

  const DOLLAR: byte := 36
  const HEADER := 4
  const SEND_BUFFER_SIZE := 1600

  datatype Frame = Frame(channel: byte, payload: seq<byte>)

  /** The packets for which the code stays inside `data` and inside the send buffer. */
  predicate Sendable(data: seq<byte>) {
    2 <= |data| <= SEND_BUFFER_SIZE - HEADER
  }

  predicate AllSendable(ps: seq<seq<byte>>) {
    forall i :: 0 <= i < |ps| ==> Sendable(ps[i])
  }

  function Channel(data: seq<byte>): byte
    requires |data| >= 2
  {
    var payload := data[1] % 128;
    if 72 <= payload <= 76 then 1 else 0
  }

  function Encode(data: seq<byte>): seq<byte>
    requires Sendable(data)
  {
    [DOLLAR, Channel(data), |data| / 256, |data| % 256] + data
  }

  /** The reader of RFC 2326 section 10.12: '$', channel, 16-bit big-endian length, payload. */
  function Decode(s: seq<byte>): Option<seq<Frame>> {
    if s == [] then Some([])
    else if |s| < HEADER || s[0] != DOLLAR then None
    else
      var n: int := s[2] as int * 256 + s[3] as int;
      if |s| < HEADER + n then None
      else
        var rest := Decode(s[HEADER + n..]);
        if rest.None? then None else Some([Frame(s[1], s[HEADER..HEADER + n])] + rest.value)
  }

  ghost function EncodeAll(ps: seq<seq<byte>>): seq<byte>
    requires AllSendable(ps)
  {
    if ps == [] then [] else Encode(ps[0]) + EncodeAll(ps[1..])
  }

  ghost function FramesOf(ps: seq<seq<byte>>): seq<Frame>
    requires AllSendable(ps)
  {
    if ps == [] then [] else [Frame(Channel(ps[0]), ps[0])] + FramesOf(ps[1..])
  }

  /** The bytes of a frame: '$', the channel, the length with the high byte first, then the packet. */
  lemma FrameLayout(data: seq<byte>)
    requires Sendable(data)
    ensures |Encode(data)| == |data| + 4 && Encode(data)[4..] == data
    ensures Encode(data)[0] == '$' as int && Encode(data)[1] == Channel(data)
    ensures Encode(data)[2] as int * 256 + Encode(data)[3] as int == |data|
  {}

  lemma DecodeOne(p: seq<byte>, rest: seq<byte>)
    requires Sendable(p) && Decode(rest).Some?
    ensures Decode(Encode(p) + rest) == Some([Frame(Channel(p), p)] + Decode(rest).value)
  {}

  /** Reading back any number of frames gives exactly the packets, in order, with their channel. */
  lemma {:induction false} DecodeAll(ps: seq<seq<byte>>)
    requires AllSendable(ps)
    ensures Decode(EncodeAll(ps)) == Some(FramesOf(ps))
  {
    if ps != [] {
      DecodeAll(ps[1..]);
      DecodeOne(ps[0], EncodeAll(ps[1..]));
    }
  }

  lemma {:induction false} EncodeAllAppend(ps: seq<seq<byte>>, q: seq<byte>)
    requires AllSendable(ps) && Sendable(q)
    ensures EncodeAll(ps + [q]) == EncodeAll(ps) + Encode(q)
  {
    if ps == [] {
      assert EncodeAll([q]) == Encode(q) + EncodeAll([q][1..]);
    } else {
      EncodeAllAppend(ps[1..], q);
      assert (ps + [q])[1..] == ps[1..] + [q];
    }
  }

  /** Channel 1 carries the RTCP packet types 200 to 204 of RFC 3550 section 12.1, and also,
      because the marker bit is masked off, second bytes 72 to 76. */
  lemma ChannelOneBytes(data: seq<byte>)
    requires |data| >= 2
    ensures Channel(data) == 1 <==> 200 <= data[1] <= 204 || 72 <= data[1] <= 76
    ensures Channel(data) == 0 || Channel(data) == 1
  {}

  /** The in-place fill of `sendBuffer`.  `ok` is false where the code would read behind `data` or write behind the
      buffer; the model stops there. */
  method FillSendBuffer(buf: array<byte>, data: seq<byte>) returns (ok: bool)
    requires buf.Length == SEND_BUFFER_SIZE
    modifies buf
    ensures ok <==> Sendable(data)
    ensures ok ==> buf[..|data| + HEADER] == Encode(data)
  {
    if |data| <= 1 || HEADER + |data| > buf.Length {
      return false;
    }
    var interleaved: byte := 0;
    var payload := data[1] % 128;
    if payload >= 72 && payload <= 76 {
      interleaved := 1;
    }
    buf[0] := DOLLAR;
    buf[1] := interleaved;
    buf[2] := |data| / 256;
    buf[3] := |data| % 256;
    var i := 0;
    while i < |data|
      invariant 0 <= i <= |data|
      invariant buf[..HEADER] == [DOLLAR, interleaved, |data| / 256, |data| % 256]
      invariant buf[HEADER..HEADER + i] == data[..i]
    {
      buf[HEADER + i] := data[i];
      i := i + 1;
    }
    assert buf[..|data| + HEADER] == buf[..HEADER] + buf[HEADER..HEADER + |data|];
    return true;
  }
}
