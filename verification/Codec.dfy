/** The two implementations of the length-prefixed framing: the server's incremental codec and the
    client's blocking packet reader. */
module Codec {
  import opened CanalTypes

  const MAX_PACKET_SIZE := 8 * 1024 * 1024

  function ToBytes(n: int): (b: seq<byte>)
    requires 0 <= n < TWO_32
    ensures |b| == 4
  {
    var a: int := n / 256;
    var b: int := a / 256;
    [b / 256, b % 256, a % 256, n % 256]
  }

  function FromBytes(b: seq<byte>): (n: int)
    requires |b| >= 4
    ensures 0 <= n < TWO_32
  {
    (((b[0] as int) * 256 + b[1] as int) * 256 + b[2] as int) * 256 + b[3] as int
  }

  lemma HeaderRoundTrip(n: int, tail: seq<byte>)
    requires 0 <= n < TWO_32
    ensures FromBytes(ToBytes(n) + tail) == n
  {
  }

  /** The header is four bytes, most significant first, and the limit is 8 MiB. */
  lemma FramingFacts()
    ensures ToBytes(0x0102_0304) == [1, 2, 3, 4] && FromBytes([1, 2, 3, 4]) == 0x0102_0304
    ensures MAX_PACKET_SIZE == 8388608
  {
  }

  datatype Decoded =
    | Incomplete
    | TooLarge
    | Frame(payload: seq<byte>, rest: seq<byte>)

  /** What one `decode` call finds at the front of a buffer. */
  function Next(src: seq<byte>): (d: Decoded)
    ensures d.Frame? ==> |d.rest| < |src|
  {
    if |src| < 4 then Incomplete
    else
      var len := FromBytes(src);
      if len > MAX_PACKET_SIZE then TooLarge
      else if |src| < 4 + len then Incomplete
      else Frame(src[4..4 + len], src[4 + len..])
  }

  /** A payload behind its length; the cast to 32 bits keeps the low bits of an oversized length. */
  function Encode(payload: seq<byte>): seq<byte> {
    ToBytes(|payload| % TWO_32) + payload
  }

  function EncodeAll(payloads: seq<seq<byte>>): seq<byte> {
    if payloads == [] then [] else Encode(payloads[0]) + EncodeAll(payloads[1..])
  }

  /** A growable byte buffer. */
  class BytesMut {
    var data: seq<byte>

    constructor ()
      ensures data == []
    {
      data := [];
    }

    method Advance(n: nat)
      requires n <= |data|
      modifies this
      ensures data == old(data)[n..]
    {
      data := data[n..];
    }

    method PutSlice(bytes: seq<byte>)
      modifies this
      ensures data == old(data) + bytes
    {
      data := data + bytes;
    }
  }

  /** The server's decoder: a frame and the buffer advanced past it, or nothing and the buffer as it
      was. */
  method DecodeFrame(src: BytesMut) returns (r: Result<Option<seq<byte>>, CanalError>)
    modifies src
    ensures
      match Next(old(src.data))
      case Incomplete => r == Ok(None) && src.data == old(src.data)
      case TooLarge => r == Err(Protocol) && src.data == old(src.data)
      case Frame(payload, rest) => r == Ok(Some(payload)) && src.data == rest
  {
    if |src.data| < 4 {
      return Ok(None);
    }
    var len := FromBytes(src.data[..4]);
    if len == 0 {
      assert src.data[4..4] == [];
      src.Advance(4);
      return Ok(Some([]));
    }
    if len > MAX_PACKET_SIZE {
      return Err(Protocol);
    }
    if |src.data| < 4 + len {
      return Ok(None);
    }
    assert src.data[4..][..len] == src.data[4..4 + len];
    assert src.data[4..][len..] == src.data[4 + len..];
    src.Advance(4);
    var payload := src.data[..len];
    src.Advance(len);
    return Ok(Some(payload));
  }

  method EncodeFrame(item: seq<byte>, dst: BytesMut)
    modifies dst
    ensures dst.data == old(dst.data) + Encode(item)
  {
    dst.PutSlice(ToBytes(|item| % TWO_32));
    dst.PutSlice(item);
    assert dst.data == old(dst.data) + Encode(item);
  }

  // -- Decoding a whole stream ----------------------------------------------

  /** The frames taken from a buffer by decoding until nothing more is found. After an oversized
      length the stream has failed and is not read any further. */
  datatype Drained = Drained(frames: seq<seq<byte>>, rest: seq<byte>, failed: bool)

  function Drain(buf: seq<byte>): Drained
    decreases |buf|
  {
    match Next(buf)
    case Incomplete => Drained([], buf, false)
    case TooLarge => Drained([], buf, true)
    case Frame(payload, rest) =>
      var d := Drain(rest);
      d.(frames := [payload] + d.frames)
  }

  /** Receive more bytes after what has been drained so far. */
  function Feed(d: Drained, chunk: seq<byte>): Drained {
    if d.failed then d.(rest := d.rest + chunk)
    else
      var more := Drain(d.rest + chunk);
      more.(frames := d.frames + more.frames)
  }

  function FeedAll(d: Drained, chunks: seq<seq<byte>>): Drained
    decreases |chunks|
  {
    if chunks == [] then d else FeedAll(Feed(d, chunks[0]), chunks[1..])
  }

  function Concat(chunks: seq<seq<byte>>): seq<byte> {
    if chunks == [] then [] else chunks[0] + Concat(chunks[1..])
  }

  /** Bytes that arrive later do not change a frame that is complete, nor a length that is too large. */
  lemma NextIsStable(buf: seq<byte>, more: seq<byte>)
    requires !Next(buf).Incomplete?
    ensures Next(buf + more) ==
            if Next(buf).TooLarge? then TooLarge else Frame(Next(buf).payload, Next(buf).rest + more)
  {
    var all := buf + more;
    assert all[0] == buf[0] && all[1] == buf[1] && all[2] == buf[2] && all[3] == buf[3];
    var len := FromBytes(buf);
    if len <= MAX_PACKET_SIZE {
      assert all[4..4 + len] == buf[4..4 + len];
      assert all[4 + len..] == buf[4 + len..] + more;
    }
  }

  lemma {:induction false} DrainThenFeed(buf: seq<byte>, more: seq<byte>)
    ensures Feed(Drain(buf), more) == Drain(buf + more)
    decreases |buf|
  {
    hide Next;
    if !Next(buf).Incomplete? {
      NextIsStable(buf, more);
      if Next(buf).Frame? {
        DrainThenFeed(Next(buf).rest, more);
      }
    }
  }

  lemma {:induction false} FeedAllIsDrain(buf: seq<byte>, chunks: seq<seq<byte>>)
    ensures FeedAll(Drain(buf), chunks) == Drain(buf + Concat(chunks))
    decreases |chunks|
  {
    hide Drain, Feed;
    if chunks == [] {
      assert buf + Concat(chunks) == buf;
    } else {
      DrainThenFeed(buf, chunks[0]);
      FeedAllIsDrain(buf + chunks[0], chunks[1..]);
      assert buf + Concat(chunks) == buf + chunks[0] + Concat(chunks[1..]);
    }
  }

  /** Chunking invariance, for every byte stream, well formed or not: however the bytes are split,
      the frames, the bytes left over and the failure are those of decoding the stream in one piece. */
  lemma ChunkingInvariance(chunks: seq<seq<byte>>)
    ensures FeedAll(Drained([], [], false), chunks) == Drain(Concat(chunks))
  {
    FeedAllIsDrain([], chunks);
    assert [] + Concat(chunks) == Concat(chunks);
  }

  ghost predicate AllFit(payloads: seq<seq<byte>>) {
    forall i | 0 <= i < |payloads| :: |payloads[i]| <= MAX_PACKET_SIZE
  }

  lemma NextOfEncoded(payload: seq<byte>, tail: seq<byte>)
    requires |payload| <= MAX_PACKET_SIZE
    ensures Next(Encode(payload) + tail) == Frame(payload, tail)
  {
    var all := Encode(payload) + tail;
    assert all == ToBytes(|payload|) + (payload + tail);
    HeaderRoundTrip(|payload|, payload + tail);
    assert all[4..4 + |payload|] == payload;
    assert all[4 + |payload|..] == tail;
  }

  lemma DrainOfFrame(buf: seq<byte>, payload: seq<byte>, rest: seq<byte>)
    requires Next(buf) == Frame(payload, rest)
    ensures Drain(buf) == Drain(rest).(frames := [payload] + Drain(rest).frames)
  {
    hide Next;
  }

  lemma {:induction false} DrainOfEncoded(payloads: seq<seq<byte>>, tail: seq<byte>)
    requires AllFit(payloads)
    ensures Drain(EncodeAll(payloads) + tail) ==
            var d := Drain(tail); d.(frames := payloads + d.frames)
  {
    hide Next, Encode, Drain;
    if payloads == [] {
      assert EncodeAll(payloads) + tail == tail;
    } else {
      var after := EncodeAll(payloads[1..]) + tail;
      assert EncodeAll(payloads) + tail == Encode(payloads[0]) + after;
      NextOfEncoded(payloads[0], after);
      DrainOfFrame(Encode(payloads[0]) + after, payloads[0], after);
      DrainOfEncoded(payloads[1..], tail);
      var d := Drain(tail);
      assert [payloads[0]] + (payloads[1..] + d.frames) == payloads + d.frames;
    }
  }

  /** Frames of any list of payloads within the size limit, empty ones included, arrive whole, in
      order and once each, with nothing left over, however the stream is chunked. */
  lemma FramesSurviveChunking(payloads: seq<seq<byte>>, chunks: seq<seq<byte>>)
    requires AllFit(payloads) && Concat(chunks) == EncodeAll(payloads)
    ensures FeedAll(Drained([], [], false), chunks) == Drained(payloads, [], false)
  {
    ChunkingInvariance(chunks);
    DrainOfEncoded(payloads, []);
    assert EncodeAll(payloads) + [] == EncodeAll(payloads);
    assert payloads + [] == payloads;
  }

  /** What decoding the first bytes of a stream of payloads must have left: the frames that have come
      out are a prefix of the payloads, and the buffer holds precisely the bytes that have not been
      decoded, which is less than the next frame. */
  ghost predicate DecodedSoFar(payloads: seq<seq<byte>>, received: seq<byte>, d: Drained) {
    && !d.failed
    && d.frames <= payloads
    && EncodeAll(d.frames) + d.rest == received
    && (|d.frames| < |payloads| ==> |d.rest| < |Encode(payloads[|d.frames|])|)
  }

  /** It holds at every point of the stream. */
  lemma {:induction false} PartialStream(payloads: seq<seq<byte>>, received: seq<byte>)
    requires AllFit(payloads) && received <= EncodeAll(payloads)
    ensures DecodedSoFar(payloads, received, Drain(received))
  {
    hide Next, Encode, DecodedSoFar;
    if payloads == [] {
      assert received == [];
      NothingReceived();
      NothingDecoded(payloads, received);
    } else {
      var first := Encode(payloads[0]);
      if |received| < |first| {
        assert received == first[..|received|];
        ShortOfFrame(payloads[0], |received|);
        NothingDecoded(payloads, received);
      } else {
        var tail := received[|first|..];
        assert received == first + tail;
        assert tail <= EncodeAll(payloads[1..]) by {
          assert EncodeAll(payloads)[|first|..] == EncodeAll(payloads[1..]);
        }
        NextOfEncoded(payloads[0], tail);
        PartialStream(payloads[1..], tail);
        OneMoreDecoded(payloads, tail, Drain(tail));
      }
    }
  }

  lemma NothingDecoded(payloads: seq<seq<byte>>, received: seq<byte>)
    requires payloads != [] ==> |received| < |Encode(payloads[0])|
    ensures DecodedSoFar(payloads, received, Drained([], received, false))
  {
    hide Encode;
    assert EncodeAll([]) + received == received;
  }

  lemma OneMoreDecoded(payloads: seq<seq<byte>>, tail: seq<byte>, d: Drained)
    requires payloads != [] && DecodedSoFar(payloads[1..], tail, d)
    ensures DecodedSoFar(payloads, Encode(payloads[0]) + tail, d.(frames := [payloads[0]] + d.frames))
  {
    hide Encode, EncodeAll;
    EncodeAllCons(payloads[0], d.frames);
    assert Encode(payloads[0]) + EncodeAll(d.frames) + d.rest == Encode(payloads[0]) + (EncodeAll(d.frames) + d.rest);
    assert [payloads[0]] + payloads[1..] == payloads;
  }

  lemma NothingReceived()
    ensures Next([]) == Incomplete
  {
  }

  lemma EncodeAllCons(payload: seq<byte>, payloads: seq<seq<byte>>)
    ensures EncodeAll([payload] + payloads) == Encode(payload) + EncodeAll(payloads)
  {
    hide Encode;
    assert ([payload] + payloads)[1..] == payloads;
  }

  lemma ShortOfFrame(payload: seq<byte>, n: nat)
    requires |payload| <= MAX_PACKET_SIZE && n < |Encode(payload)|
    ensures Next(Encode(payload)[..n]) == Incomplete
  {
    hide ToBytes;
    if n >= 4 {
      HeaderRoundTrip(|payload|, payload);
      var cut := Encode(payload)[..n];
      assert FromBytes(cut) == FromBytes(Encode(payload));
    }
  }

  /** The encoder has no size limit of its own: a payload survives the round trip if and only if it
      is within the decoder's limit. */
  lemma RoundTripIffFits(payload: seq<byte>)
    ensures Drain(Encode(payload)) == Drained([payload], [], false) <==> |payload| <= MAX_PACKET_SIZE
  {
    if |payload| <= MAX_PACKET_SIZE {
      DrainOfEncoded([payload], []);
      assert EncodeAll([payload]) + [] == Encode(payload) by { assert EncodeAll([]) == []; }
      assert [payload] + [] == [payload];
    } else {
      var n := |payload| % TWO_32;
      HeaderRoundTrip(n, payload);
    }
  }

  // -- The client's reader --------------------------------------------------

  /** Bytes still to be read from a connection that the peer then closes. */
  class ByteStream {
    var bytes: seq<byte>

    constructor (bytes: seq<byte>)
      ensures this.bytes == bytes
    {
      this.bytes := bytes;
    }

    /** `read_exact`: all `n` bytes, or an error when the stream ends first. */
    method ReadExact(n: nat) returns (r: Result<seq<byte>, CanalError>)
      modifies this
      ensures n <= old(|bytes|) ==> r == Ok(old(bytes)[..n]) && bytes == old(bytes)[n..]
      ensures n > old(|bytes|) ==> r == Err(Io) && bytes == []
    {
      if n <= |bytes| {
        r := Ok(bytes[..n]);
        bytes := bytes[n..];
      } else {
        r := Err(Io);
        bytes := [];
      }
    }
  }

  /** `send_packet` behind the protobuf encoding: the bytes written are those of the server's encoder. */
  method SendPacket(body: seq<byte>, stream: BytesMut)
    modifies stream
    ensures stream.data == old(stream.data) + Encode(body)
  {
    var len := |body| % TWO_32;
    var buf: seq<byte> := [];
    buf := buf + ToBytes(len);
    buf := buf + body;
    assert buf == Encode(body);
    stream.PutSlice(buf);
  }

  /** `read_packet` up to the protobuf decoding of the body. It gives a payload exactly when the
      server's decoder would find a non-empty frame, and the same one. */
  method ReadPacket(stream: ByteStream) returns (r: Result<seq<byte>, CanalError>)
    modifies stream
    ensures
      match Next(old(stream.bytes))
      case Incomplete => r == Err(Io)
      case TooLarge => r == Err(Protocol)
      case Frame(payload, rest) =>
        stream.bytes == rest && r == if payload == [] then Err(Protocol) else Ok(payload)
  {
    var header := stream.ReadExact(4);
    if header.Err? {
      return header;
    }
    var len := FromBytes(header.value);
    if len == 0 {
      return Err(Protocol);
    }
    if len > MAX_PACKET_SIZE {
      return Err(Protocol);
    }
    assert 4 + len <= |old(stream.bytes)| ==>
             && stream.bytes[..len] == old(stream.bytes)[4..4 + len]
             && stream.bytes[len..] == old(stream.bytes)[4 + len..];
    r := stream.ReadExact(len);
  }

  /** The frames before the first empty one. */
  function BeforeEmpty(frames: seq<seq<byte>>): seq<seq<byte>> {
    if frames == [] || frames[0] == [] then [] else [frames[0]] + BeforeEmpty(frames[1..])
  }

  /** The client's loop over a whole stream: read packets until one fails. On every byte stream it
      extracts the frames that the server's decoder extracts, up to the first empty frame. */
  method ReadPackets(stream: ByteStream) returns (payloads: seq<seq<byte>>)
    modifies stream
    ensures payloads == BeforeEmpty(Drain(old(stream.bytes)).frames)
    ensures [] !in Drain(old(stream.bytes)).frames ==> payloads == Drain(old(stream.bytes)).frames
  {
    hide Next;
    payloads := [];
    var going := true;
    ghost var all := Drain(stream.bytes).frames;
    assert payloads + BeforeEmpty(all) == BeforeEmpty(all);
    while going
      invariant going ==> payloads + BeforeEmpty(Drain(stream.bytes).frames) == BeforeEmpty(all)
      invariant !going ==> payloads == BeforeEmpty(all)
      decreases going, |stream.bytes|
    {
      ghost var before := stream.bytes;
      var r := ReadPacket(stream);
      if r.Ok? {
        ghost var later := Drain(stream.bytes).frames;
        assert Drain(before).frames == [r.value] + later;
        assert ([r.value] + later)[1..] == later;
        assert payloads + ([r.value] + BeforeEmpty(later)) == payloads + [r.value] + BeforeEmpty(later);
        payloads := payloads + [r.value];
      } else {
        going := false;
      }
    }
    NoneEmpty(all);
  }

  lemma {:induction false} NoneEmpty(frames: seq<seq<byte>>)
    ensures [] !in frames ==> BeforeEmpty(frames) == frames
  {
    if frames != [] && frames[0] != [] {
      NoneEmpty(frames[1..]);
      assert frames == [frames[0]] + frames[1..];
    }
  }
}
