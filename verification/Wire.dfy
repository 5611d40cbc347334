/** The client's loop and the server over two byte streams, in frames that arrive in arbitrary chunks: what
    is proved of the loop over ideal queues of packets holds of it over the wire. */
module Wire {
  import opened CanalTypes
  import opened EventLog
  import opened Conversion
  import opened Session
  import opened SessionRuns
  import opened SessionSafety
  import opened Delivery
  import Codec

  /** Protobuf's encodings of packets are a parameter of the model. */
  datatype Packets = Packets(
    encodeFrame: Frame -> seq<byte>,
    decodeFrame: seq<byte> -> Frame,
    encodeReply: Reply -> seq<byte>,
    decodeReply: seq<byte> -> Option<Reply>)

  /** Decoding undoes encoding, and no packet encodes to nothing. */
  ghost predicate Faithful(p: Packets) {
    && (forall f: Frame :: (f.Get? && f.fetchSize.Some?) || (f.Ack? && f.batchId.Some?) ==>
          p.decodeFrame(p.encodeFrame(f)) == f && p.encodeFrame(f) != [])
    && (forall r: Reply :: p.decodeReply(p.encodeReply(r)) == Some(r) && p.encodeReply(r) != [])
  }

  /** `up` and `down` hold the bytes under way, `upBuf` and `downBuf` those that have arrived and are not
      decoded yet; `reply` is the packet that the client has read and is dealing with. */
  datatype ByteWorld = ByteWorld(
    sys: System,
    up: seq<byte>,
    upBuf: seq<byte>,
    down: seq<byte>,
    downBuf: seq<byte>,
    phase: Phase,
    reply: Option<Reply>,
    part: nat,
    forwarded: seq<Result<CanalEvent, CanalError>>)

  datatype ByteMove =
    | Poll
    | UpArrives(n: nat)        // a chunk reaches the server
    | DownArrives(n: nat)      // a chunk reaches the client
    | Accept                   // the server decodes a frame and handles it
    | ReadReply                // the client reads a packet
    | Forward
    | Take
    | Fail
    | Server(step: Step)

  function FramesOf(p: Packets, frames: seq<Frame>): seq<seq<byte>> {
    seq(|frames|, i requires 0 <= i < |frames| => p.encodeFrame(frames[i]))
  }

  function PayloadsOf(p: Packets, replies: seq<Reply>): seq<seq<byte>> {
    seq(|replies|, i requires 0 <= i < |replies| => p.encodeReply(replies[i]))
  }

  /** The server's step, with the replies it makes written behind the bytes under way. */
  function Written(p: Packets, b: ByteWorld, sys: System): ByteWorld {
    if b.sys.out <= sys.out then
      b.(sys := sys, down := b.down + Codec.EncodeAll(PayloadsOf(p, sys.out[|b.sys.out|..])))
    else b
  }

  function WithFrame(p: Packets, b: ByteWorld, frame: Frame): ByteWorld {
    b.(up := b.up + Codec.Encode(p.encodeFrame(frame)))
  }

  /** One move. The server's decoder takes a frame off its buffer, an empty one being a keepalive, and fails
      on one that is too large; so does the client's reader, which takes an empty one for an error too. */
  ghost function ByteNext(cfg: Config, p: Packets, b: ByteWorld, move: ByteMove): ByteWorld {
    match move
    case Poll =>
      if b.phase != Idle then b else WithFrame(p, b, Get(Some(CLIENT_FETCH_SIZE))).(phase := Awaiting)
    case UpArrives(n) =>
      var k := Min(n, |b.up|);
      b.(up := b.up[k..], upBuf := b.upBuf + b.up[..k])
    case DownArrives(n) =>
      var k := Min(n, |b.down|);
      b.(down := b.down[k..], downBuf := b.downBuf + b.down[..k])
    case Accept =>
      if !b.sys.open || b.sys.waiting.Some? then b
      else
        (match Codec.Next(b.upBuf)
         case Incomplete => b
         case TooLarge => b.(sys := Apply(cfg, b.sys, Abort))
         case Frame(payload, rest) =>
           var frame := if payload == [] then KeepAlive else p.decodeFrame(payload);
           Written(p, b.(upBuf := rest), Apply(cfg, b.sys, Receive(frame))))
    case ReadReply =>
      if b.phase != Awaiting || b.reply.Some? then b
      else
        (match Codec.Next(b.downBuf)
         case Incomplete => b
         case TooLarge => b.(phase := Stopped)
         case Frame(payload, rest) =>
           if payload == [] || p.decodeReply(payload).None? then b.(phase := Stopped)
           else b.(downBuf := rest, reply := p.decodeReply(payload)))
    case Forward =>
      if b.phase != Awaiting || b.reply.None? || !b.reply.value.Messages? || b.part >= |b.reply.value.entries| then b
      else
        b.(part := b.part + 1,
           forwarded := b.forwarded + [EntryBytesToEvent(cfg.prost, b.reply.value.entries[b.part])])
    case Take =>
      if b.phase != Awaiting || b.reply.None? then b
      else
        (match b.reply.value
         case Messages(id, entries) =>
           if b.part < |entries| then b
           else WithFrame(p, b, Ack(Some(id))).(phase := Idle, reply := None, part := 0)
         case _ => b.(phase := Stopped, reply := None, part := 0))
    case Fail => b.(phase := Stopped)
    case Server(step) => if ServerSide(step) then Written(p, b, Apply(cfg, b.sys, step)) else b
  }

  ghost function BytePlay(cfg: Config, p: Packets, b: ByteWorld, moves: seq<ByteMove>): ByteWorld
    decreases |moves|
  {
    if moves == [] then b else BytePlay(cfg, p, ByteNext(cfg, p, b, moves[0]), moves[1..])
  }

  // -- The queues behind the bytes ------------------------------------------

  /** The moves of the loop over queues that a move over the wire amounts to. */
  function Unframed(b: ByteWorld, move: ByteMove): seq<Move> {
    match move
    case Poll => [Move.Poll]
    case UpArrives(_) => []
    case DownArrives(_) => []
    case Accept =>
      if b.sys.open && b.sys.waiting.None? && Codec.Next(b.upBuf).Frame? then [Move.Accept] else []
    case ReadReply =>
      if b.phase == Awaiting && b.reply.None? && Codec.Next(b.downBuf).TooLarge? then [Move.Fail] else []
    case Forward => if b.reply.Some? then [Move.Forward] else []
    case Take => if b.reply.Some? then [Move.Take] else []
    case Fail => [Move.Fail]
    case Server(step) => [Move.Server(step)]
  }

  ghost function UnframedAll(cfg: Config, p: Packets, b: ByteWorld, moves: seq<ByteMove>): seq<Move>
    decreases |moves|
  {
    if moves == [] then []
    else Unframed(b, moves[0]) + UnframedAll(cfg, p, ByteNext(cfg, p, b, moves[0]), moves[1..])
  }

  /** Every packet the server sends is below 4 GiB, so that its length fits its header, and every packet of
      the client is within the server's limit. */
  predicate SizesFit(p: Packets, out: seq<Reply>) {
    && |p.encodeFrame(Get(Some(CLIENT_FETCH_SIZE)))| <= Codec.MAX_PACKET_SIZE
    && forall i | 0 <= i < |out| ::
         && |p.encodeReply(out[i])| < TWO_32
         && (out[i].Messages? ==> |p.encodeFrame(Ack(Some(out[i].batchId)))| <= Codec.MAX_PACKET_SIZE)
  }

  predicate FrameFits(p: Packets, frame: Frame) {
    && ((frame.Get? && frame.fetchSize.Some?) || (frame.Ack? && frame.batchId.Some?))
    && |p.encodeFrame(frame)| <= Codec.MAX_PACKET_SIZE
  }

  /** How many replies the client has read. */
  function ReadSoFar(b: ByteWorld, w: World): nat {
    w.taken + if b.reply.Some? then 1 else 0
  }

  /** The bytes of each stream, arrived and under way, are the encodings of a queue. */
  ghost predicate Refines(p: Packets, b: ByteWorld, w: World) {
    && b.sys == w.sys && b.phase == w.phase && b.part == w.part && b.forwarded == w.forwarded
    && UpHolds(p, b.upBuf + b.up, w.toServer)
    && ReadSoFar(b, w) <= |w.sys.out|
    && (b.reply.Some? ==> b.reply.value == w.sys.out[w.taken])
    && (b.part > 0 ==> b.reply.Some?)
    && DownHolds(p, b.downBuf + b.down, w.sys.out[ReadSoFar(b, w)..])
  }

  ghost predicate UpHolds(p: Packets, bytes: seq<byte>, frames: seq<Frame>) {
    && bytes == Codec.EncodeAll(FramesOf(p, frames))
    && forall i | 0 <= i < |frames| :: FrameFits(p, frames[i])
  }

  ghost predicate DownHolds(p: Packets, bytes: seq<byte>, replies: seq<Reply>) {
    bytes == Codec.EncodeAll(PayloadsOf(p, replies))
  }

  lemma {:induction false} EncodeAllConcat(a: seq<seq<byte>>, b: seq<seq<byte>>)
    ensures Codec.EncodeAll(a + b) == Codec.EncodeAll(a) + Codec.EncodeAll(b)
  {
    hide Codec.Encode;
    if a == [] {
      assert a + b == b;
    } else {
      assert (a + b)[0] == a[0] && (a + b)[1..] == a[1..] + b;
      EncodeAllConcat(a[1..], b);
    }
  }

  lemma EncodeOne(payload: seq<byte>)
    ensures Codec.EncodeAll([payload]) == Codec.Encode(payload)
  {
    hide Codec.Encode;
    assert Codec.EncodeAll([payload]) == Codec.Encode(payload) + Codec.EncodeAll([payload][1..]);
    assert [payload][1..] == [];
  }

  /** What a decoder finds in the bytes that have arrived of a stream that begins with a payload: that
      payload, or that it is too large, or not enough yet. */
  lemma HeadOfStream(arrived: seq<byte>, coming: seq<byte>, payload: seq<byte>, tail: seq<byte>)
    requires arrived + coming == Codec.Encode(payload) + tail && |payload| < TWO_32
    ensures
      match Codec.Next(arrived)
      case Incomplete => true
      case TooLarge => |payload| > Codec.MAX_PACKET_SIZE
      case Frame(found, rest) => found == payload && |payload| <= Codec.MAX_PACKET_SIZE && rest + coming == tail
  {
    hide Codec.Next, Codec.Encode;
    if !Codec.Next(arrived).Incomplete? {
      Codec.NextIsStable(arrived, coming);
      if |payload| <= Codec.MAX_PACKET_SIZE {
        Codec.NextOfEncoded(payload, tail);
      } else {
        NextOfOversized(payload, tail);
      }
    }
  }

  lemma NextOfOversized(payload: seq<byte>, tail: seq<byte>)
    requires Codec.MAX_PACKET_SIZE < |payload| < TWO_32
    ensures Codec.Next(Codec.Encode(payload) + tail) == Codec.TooLarge
  {
    assert Codec.Encode(payload) + tail == Codec.ToBytes(|payload|) + (payload + tail);
    Codec.HeaderRoundTrip(|payload|, payload + tail);
  }

  lemma NothingInNothing(arrived: seq<byte>, coming: seq<byte>)
    requires arrived + coming == []
    ensures Codec.Next(arrived) == Codec.Incomplete
  {
    assert |arrived| == 0;
  }

  // -- Every move keeps the correspondence ----------------------------------

  lemma SendKeeps(p: Packets, bytes: seq<byte>, frames: seq<Frame>, frame: Frame)
    requires UpHolds(p, bytes, frames) && FrameFits(p, frame)
    ensures UpHolds(p, bytes + Codec.Encode(p.encodeFrame(frame)), frames + [frame])
  {
    hide Codec.Encode, Codec.EncodeAll, FrameFits;
    assert FramesOf(p, frames + [frame]) == FramesOf(p, frames) + [p.encodeFrame(frame)];
    EncodeAllConcat(FramesOf(p, frames), [p.encodeFrame(frame)]);
    EncodeOne(p.encodeFrame(frame));
  }

  lemma RepliesKeep(p: Packets, bytes: seq<byte>, out: seq<Reply>, out': seq<Reply>, read: nat)
    requires read <= |out| && out <= out' && DownHolds(p, bytes, out[read..])
    ensures DownHolds(p, bytes + Codec.EncodeAll(PayloadsOf(p, out'[|out|..])), out'[read..])
  {
    hide Codec.EncodeAll;
    assert out'[read..] == out[read..] + out'[|out|..];
    assert PayloadsOf(p, out'[read..]) == PayloadsOf(p, out[read..]) + PayloadsOf(p, out'[|out|..]);
    EncodeAllConcat(PayloadsOf(p, out[read..]), PayloadsOf(p, out'[|out|..]));
  }

  /** The server decodes the next frame of the client's queue, or finds nothing yet. */
  lemma AcceptFinds(p: Packets, arrived: seq<byte>, coming: seq<byte>, frames: seq<Frame>)
    requires Faithful(p) && UpHolds(p, arrived + coming, frames)
    ensures !Codec.Next(arrived).TooLarge?
    ensures
      Codec.Next(arrived).Frame? ==>
        && frames != [] && Codec.Next(arrived).payload != []
        && p.decodeFrame(Codec.Next(arrived).payload) == frames[0]
        && UpHolds(p, Codec.Next(arrived).rest + coming, frames[1..])
  {
    hide Codec.Next, Codec.Encode;
    if frames == [] {
      NothingInNothing(arrived, coming);
    } else {
      assert FrameFits(p, frames[0]);
      assert FramesOf(p, frames)[1..] == FramesOf(p, frames[1..]);
      HeadOfStream(arrived, coming, p.encodeFrame(frames[0]), Codec.EncodeAll(FramesOf(p, frames[1..])));
    }
  }

  /** The client reads the next reply, finds it too large, or finds nothing yet. */
  lemma ReadFinds(p: Packets, arrived: seq<byte>, coming: seq<byte>, replies: seq<Reply>)
    requires Faithful(p) && DownHolds(p, arrived + coming, replies)
    requires forall i | 0 <= i < |replies| :: |p.encodeReply(replies[i])| < TWO_32
    ensures
      Codec.Next(arrived).Frame? ==>
        && replies != [] && Codec.Next(arrived).payload != []
        && p.decodeReply(Codec.Next(arrived).payload) == Some(replies[0])
        && DownHolds(p, Codec.Next(arrived).rest + coming, replies[1..])
  {
    hide Codec.Next, Codec.Encode;
    if replies == [] {
      NothingInNothing(arrived, coming);
    } else {
      assert PayloadsOf(p, replies)[1..] == PayloadsOf(p, replies[1..]);
      HeadOfStream(arrived, coming, p.encodeReply(replies[0]), Codec.EncodeAll(PayloadsOf(p, replies[1..])));
    }
  }

  lemma ChunkArrives(arrived: seq<byte>, coming: seq<byte>, n: nat)
    requires n <= |coming|
    ensures (arrived + coming[..n]) + coming[n..] == arrived + coming
  {
  }

  lemma ServerKeeps(cfg: Config, p: Packets, b: ByteWorld, w: World, step: Step)
    requires Refines(p, b, w) && ServerSide(step)
    ensures Refines(p, ByteNext(cfg, p, b, ByteMove.Server(step)), Next(cfg, w, Move.Server(step)))
  {
    hide Apply, UpHolds, DownHolds, Codec.EncodeAll, Entries, EntryBytesToEvent;
    StepExtends(cfg, w.sys, step);
    var sys := Apply(cfg, w.sys, step);
    RepliesKeep(p, b.downBuf + b.down, w.sys.out, sys.out, ReadSoFar(b, w));
    var more := Codec.EncodeAll(PayloadsOf(p, sys.out[|w.sys.out|..]));
    assert b.downBuf + b.down + more == b.downBuf + (b.down + more);
  }

  lemma AcceptKeeps(cfg: Config, p: Packets, b: ByteWorld, w: World)
    requires Faithful(p) && Refines(p, b, w) && b.sys.open && b.sys.waiting.None?
    ensures
      Refines(p, ByteNext(cfg, p, b, ByteMove.Accept),
        if Codec.Next(b.upBuf).Frame? then Next(cfg, w, Move.Accept) else w)
  {
    hide Apply, UpHolds, DownHolds, Codec.EncodeAll, Codec.Next, Faithful, Entries, EntryBytesToEvent;
    AcceptFinds(p, b.upBuf, b.up, w.toServer);
    if Codec.Next(b.upBuf).Frame? {
      var step := Receive(w.toServer[0]);
      StepExtends(cfg, w.sys, step);
      var sys := Apply(cfg, w.sys, step);
      RepliesKeep(p, b.downBuf + b.down, w.sys.out, sys.out, ReadSoFar(b, w));
      var more := Codec.EncodeAll(PayloadsOf(p, sys.out[|w.sys.out|..]));
      assert b.downBuf + b.down + more == b.downBuf + (b.down + more);
    }
  }

  lemma ReadKeeps(cfg: Config, p: Packets, b: ByteWorld, w: World)
    requires Faithful(p) && Refines(p, b, w) && SizesFit(p, w.sys.out) && b.phase == Awaiting && b.reply.None?
    ensures
      Refines(p, ByteNext(cfg, p, b, ReadReply),
        if Codec.Next(b.downBuf).TooLarge? then Next(cfg, w, Move.Fail) else w)
  {
    hide Apply, UpHolds, DownHolds, Codec.EncodeAll, Codec.Next, Faithful, Entries, EntryBytesToEvent;
    var replies := w.sys.out[w.taken..];
    assert forall i | 0 <= i < |replies| :: |p.encodeReply(replies[i])| < TWO_32;
    ReadFinds(p, b.downBuf, b.down, replies);
    if Codec.Next(b.downBuf).Frame? {
      assert replies[0] == w.sys.out[w.taken] && replies[1..] == w.sys.out[w.taken + 1..];
    }
  }

  lemma PollKeeps(cfg: Config, p: Packets, b: ByteWorld, w: World)
    requires Refines(p, b, w) && SizesFit(p, w.sys.out)
    ensures Refines(p, ByteNext(cfg, p, b, ByteMove.Poll), Next(cfg, w, Move.Poll))
  {
    hide Apply, UpHolds, DownHolds, Codec.Encode, Codec.EncodeAll, Entries, EntryBytesToEvent;
    var get := Get(Some(CLIENT_FETCH_SIZE));
    SendKeeps(p, b.upBuf + b.up, w.toServer, get);
    var more := Codec.Encode(p.encodeFrame(get));
    assert b.upBuf + b.up + more == b.upBuf + (b.up + more);
  }

  lemma TakeKeeps(cfg: Config, p: Packets, b: ByteWorld, w: World)
    requires Refines(p, b, w) && SizesFit(p, w.sys.out) && b.reply.Some?
    ensures Refines(p, ByteNext(cfg, p, b, ByteMove.Take), Next(cfg, w, Move.Take))
  {
    hide Apply, UpHolds, DownHolds, Codec.Encode, Codec.EncodeAll, EntryBytesToEvent;
    if b.reply.value.Messages? {
      var ack := Ack(Some(b.reply.value.batchId));
      SendKeeps(p, b.upBuf + b.up, w.toServer, ack);
      var more := Codec.Encode(p.encodeFrame(ack));
      assert b.upBuf + b.up + more == b.upBuf + (b.up + more);
    }
  }

  /** Each move over the wire is the moves it amounts to over the queues. */
  lemma ByteMoveRefines(cfg: Config, p: Packets, b: ByteWorld, w: World, move: ByteMove)
    requires Faithful(p) && Refines(p, b, w) && SizesFit(p, w.sys.out)
    ensures Refines(p, ByteNext(cfg, p, b, move), Play(cfg, w, Unframed(b, move)))
  {
    hide Apply, UpHolds, DownHolds, Codec.Next, Codec.Encode, Codec.EncodeAll, EntryBytesToEvent, Faithful, SizesFit,
      PayloadsOf, Play;
    PlayOne(cfg, w, Move.Poll);
    match move
    case Poll => PollKeeps(cfg, p, b, w);
    case UpArrives(n) => ChunkArrives(b.upBuf, b.up, Min(n, |b.up|));
    case DownArrives(n) => ChunkArrives(b.downBuf, b.down, Min(n, |b.down|));
    case Accept =>
      PlayOne(cfg, w, Move.Accept);
      if b.sys.open && b.sys.waiting.None? {
        AcceptKeeps(cfg, p, b, w);
      }
    case ReadReply =>
      PlayOne(cfg, w, Move.Fail);
      if b.phase == Awaiting && b.reply.None? {
        ReadKeeps(cfg, p, b, w);
      }
    case Forward => PlayOne(cfg, w, Move.Forward);
    case Take =>
      PlayOne(cfg, w, Move.Take);
      if b.reply.Some? {
        TakeKeeps(cfg, p, b, w);
      }
    case Fail => PlayOne(cfg, w, Move.Fail);
    case Server(step) =>
      PlayOne(cfg, w, Move.Server(step));
      if ServerSide(step) {
        ServerKeeps(cfg, p, b, w, step);
      }
  }

  lemma FewerSizesFit(p: Packets, out: seq<Reply>, out': seq<Reply>)
    requires out <= out' && SizesFit(p, out')
    ensures SizesFit(p, out)
  {
  }

  lemma ByteMoveExtends(cfg: Config, p: Packets, b: ByteWorld, move: ByteMove)
    ensures b.sys.out <= ByteNext(cfg, p, b, move).sys.out
  {
    hide Apply, Codec.Next, Codec.Encode, Codec.EncodeAll, EntryBytesToEvent, PayloadsOf;
    StepExtends(cfg, b.sys, Abort);
  }

  lemma {:induction false} BytePlayExtends(cfg: Config, p: Packets, b: ByteWorld, moves: seq<ByteMove>)
    ensures b.sys.out <= BytePlay(cfg, p, b, moves).sys.out
    decreases |moves|
  {
    hide ByteNext;
    if moves != [] {
      ByteMoveExtends(cfg, p, b, moves[0]);
      BytePlayExtends(cfg, p, ByteNext(cfg, p, b, moves[0]), moves[1..]);
    }
  }

  /** A whole schedule over the wire, however the bytes are cut into chunks and whenever they arrive, is a
      schedule over the queues. */
  lemma {:induction false} BytePlayRefines(cfg: Config, p: Packets, b: ByteWorld, w: World, moves: seq<ByteMove>)
    requires Faithful(p) && Refines(p, b, w) && SizesFit(p, BytePlay(cfg, p, b, moves).sys.out)
    ensures Refines(p, BytePlay(cfg, p, b, moves), Play(cfg, w, UnframedAll(cfg, p, b, moves)))
    decreases |moves|
  {
    hide ByteNext, Next, Faithful, SizesFit, Unframed, UpHolds, DownHolds;
    if moves != [] {
      var b1 := ByteNext(cfg, p, b, moves[0]);
      BytePlayExtends(cfg, p, b, moves);
      FewerSizesFit(p, b.sys.out, BytePlay(cfg, p, b, moves).sys.out);
      ByteMoveRefines(cfg, p, b, w, moves[0]);
      BytePlayRefines(cfg, p, b1, Play(cfg, w, Unframed(b, moves[0])), moves[1..]);
      PlayConcat(cfg, w, Unframed(b, moves[0]), UnframedAll(cfg, p, b1, moves[1..]));
    }
  }

  /** A subscription over the wire: nothing is under way. */
  function Connected(sys: System): ByteWorld {
    ByteWorld(sys, [], [], [], [], Idle, None, 0, [])
  }

  lemma ConnectedRefines(p: Packets, sys: System)
    ensures Refines(p, Connected(sys), Subscribed(sys))
  {
    assert sys.out[|sys.out|..] == [];
    assert [] + [] == Codec.EncodeAll([]) == [];
  }

  /** While a reply is unread there are bytes of it to read. */
  lemma UnreadHasBytes(p: Packets, replies: seq<Reply>)
    requires replies != []
    ensures Codec.EncodeAll(PayloadsOf(p, replies)) != []
  {
    hide Codec.Encode;
    var payloads := PayloadsOf(p, replies);
    assert Codec.EncodeAll(payloads) == Codec.Encode(payloads[0]) + Codec.EncodeAll(payloads[1..]);
    HeaderIsThere(payloads[0]);
  }

  lemma HeaderIsThere(payload: seq<byte>)
    ensures |Codec.Encode(payload)| >= 4
  {
  }

  lemma StillToRead(p: Packets, bytes: seq<byte>, replies: seq<Reply>)
    requires DownHolds(p, bytes, replies) && replies != []
    ensures bytes != []
  {
    UnreadHasBytes(p, replies);
  }

  /** End-to-end delivery over the wire: for every chunking of both streams and every interleaving, what the
      client has forwarded is a prefix of the matching entries of one contiguous segment of the log that
      begins exactly where the first read of its start cursor began, in order and once each, and all of them
      when no byte is left to read. Replies above the client's limit, which the encoder does not keep the
      server from sending, end the loop and take nothing back. */
  lemma DeliveryOverTheWire(cfg: Config, p: Packets, capacity: nat, steps: seq<Step>, f: FilterPattern,
                            moves: seq<ByteMove>)
    requires Lawful(cfg.prost) && Faithful(p) && capacity > 0
    requires FreshSubscription(f, Run(cfg, Start(capacity), steps))
    requires
      var s0 := Run(cfg, Start(capacity), steps);
      && SafePlay(cfg, Subscribed(s0), UnframedAll(cfg, p, Connected(s0), moves))
      && SizesFit(p, BytePlay(cfg, p, Connected(s0), moves).sys.out)
    ensures
      var s0 := Run(cfg, Start(capacity), steps);
      var b := BytePlay(cfg, p, Connected(s0), moves);
      var owed := OnWireAll(cfg.prost, Owed(cfg, f, b.sys.log, b.sys.served));
      && b.forwarded <= owed
      && (b.reply.None? && b.downBuf + b.down == [] ==> b.forwarded == owed)
      && (b.sys.served != [] ==>
            var first := b.sys.served[0];
            var base, end := first.from, b.sys.served[|b.sys.served| - 1].to;
            && first.start == CursorOf(s0.conn, s0.sessions) && |s0.log| <= first.seen
            && BeginsRight(b.sys.log, b.sys.capacity, first)
            && base < end <= |b.sys.log|
            && Owed(cfg, f, b.sys.log, b.sys.served) == Select(cfg.re, f, b.sys.log[base..end]))
  {
    hide Lawful, Faithful, Run, FreshSubscription, SafePlay, UnframedAll, BytePlay, Play, Connected, Subscribed,
      SizesFit, Owed, OnWireAll, Select, CursorOf, BeginsRight, FirstAfter, UpHolds, DownHolds;
    var s0 := Run(cfg, Start(capacity), steps);
    ConnectedRefines(p, s0);
    BytePlayRefines(cfg, p, Connected(s0), Subscribed(s0), moves);
    EndToEndDelivery(cfg, capacity, steps, f, UnframedAll(cfg, p, Connected(s0), moves));
    var b := BytePlay(cfg, p, Connected(s0), moves);
    var w := Play(cfg, Subscribed(s0), UnframedAll(cfg, p, Connected(s0), moves));
    if b.reply.None? && w.taken < |w.sys.out| {
      StillToRead(p, b.downBuf + b.down, w.sys.out[w.taken..]);
    }
  }

  // -- How the loop ends over the wire --------------------------------------

  predicate AtByteEnd(b: ByteWorld) {
    b.phase == Stopped || (b.phase == Awaiting && b.reply.Some? && !b.reply.value.Messages?)
  }

  lemma ByteMoveStaysAtEnd(cfg: Config, p: Packets, b: ByteWorld, move: ByteMove)
    requires AtByteEnd(b)
    ensures
      var b' := ByteNext(cfg, p, b, move);
      && AtByteEnd(b') && (b.phase == Stopped || move == ByteMove.Take || move == ByteMove.Fail ==> b'.phase == Stopped)
      && b'.forwarded == b.forwarded && OnlyTakenFrom(b.up, b'.up)
  {
    hide Apply, Codec.Next, Codec.EncodeAll, EntryBytesToEvent;
  }

  /** The same over the wire: once the client has read a packet that is not a batch, no schedule makes it
      write another byte or forward anything, and once it has dealt with the packet it has stopped. */
  lemma {:induction false} RefusalIsFinalOverTheWire(cfg: Config, p: Packets, b: ByteWorld, moves: seq<ByteMove>)
    requires AtByteEnd(b)
    ensures
      var b' := BytePlay(cfg, p, b, moves);
      && b'.phase != Idle && b'.forwarded == b.forwarded && OnlyTakenFrom(b.up, b'.up)
      && (ByteMove.Take in moves || ByteMove.Fail in moves || b.phase == Stopped ==> b'.phase == Stopped)
    decreases |moves|
  {
    hide ByteNext;
    if moves != [] {
      var b1 := ByteNext(cfg, p, b, moves[0]);
      ByteMoveStaysAtEnd(cfg, p, b, moves[0]);
      RefusalIsFinalOverTheWire(cfg, p, b1, moves[1..]);
      var later := BytePlay(cfg, p, b, moves).up;
      assert later == b1.up[|b1.up| - |later|..] == b.up[|b.up| - |later|..];
    }
  }

  /** A batch that has been forwarded is acked on the wire and leaves the client ready to poll for 100. */
  lemma BatchGoesOnOverTheWire(cfg: Config, p: Packets, b: ByteWorld)
    requires b.phase == Awaiting && b.reply.Some? && b.reply.value.Messages? && b.part == |b.reply.value.entries|
    ensures
      var ack := Codec.Encode(p.encodeFrame(Ack(Some(b.reply.value.batchId))));
      var get := Codec.Encode(p.encodeFrame(Get(Some(100))));
      && BytePlay(cfg, p, b, [ByteMove.Take]) == b.(phase := Idle, reply := None, part := 0, up := b.up + ack)
      && BytePlay(cfg, p, b, [ByteMove.Take, ByteMove.Poll]) ==
         b.(reply := None, part := 0, up := b.up + ack + get)
  {
    hide Codec.Encode;
    var b1 := ByteNext(cfg, p, b, ByteMove.Take);
    var b2 := ByteNext(cfg, p, b1, ByteMove.Poll);
    assert [ByteMove.Take, ByteMove.Poll][1..] == [ByteMove.Poll] && [ByteMove.Poll][1..] == [];
    assert [ByteMove.Take][1..] == [];
    assert BytePlay(cfg, p, b1, []) == b1 && BytePlay(cfg, p, b2, []) == b2;
    assert BytePlay(cfg, p, b1, [ByteMove.Poll]) == b2;
  }

  /** A packet that the client cannot read ends the loop as well: one above its limit, an empty one, or one
      that does not decode. */
  lemma UnreadableEndsLoop(cfg: Config, p: Packets, b: ByteWorld)
    requires b.phase == Awaiting && b.reply.None?
    requires
      || Codec.Next(b.downBuf).TooLarge?
      || (Codec.Next(b.downBuf).Frame? &&
          var payload := Codec.Next(b.downBuf).payload; payload == [] || p.decodeReply(payload).None?)
    ensures ByteNext(cfg, p, b, ReadReply) == b.(phase := Stopped)
  {
  }

  /** An empty frame is a keepalive: the server takes it off its buffer and does nothing else. */
  lemma EmptyFrameIsSkipped(cfg: Config, p: Packets, b: ByteWorld)
    requires b.sys.open && b.sys.waiting.None? && Codec.Next(b.upBuf).Frame? && Codec.Next(b.upBuf).payload == []
    ensures ByteNext(cfg, p, b, ByteMove.Accept) == b.(upBuf := Codec.Next(b.upBuf).rest)
  {
    HeartbeatIsAnswered(cfg, b.sys);
    hide Apply, Codec.Next;
    var none := PayloadsOf(p, b.sys.out[|b.sys.out|..]);
    assert none == [] && Codec.EncodeAll(none) == [] && b.down + [] == b.down;
  }

  /** A frame above the limit ends the connection at the server. */
  lemma OversizedFrameDisconnects(cfg: Config, p: Packets, b: ByteWorld)
    requires b.sys.open && b.sys.waiting.None? && Codec.Next(b.upBuf).TooLarge?
    ensures
      var b' := ByteNext(cfg, p, b, ByteMove.Accept);
      !b'.sys.open && b'.sys.out == b.sys.out && b'.sys.sessions == b.sys.sessions
  {
  }
}
