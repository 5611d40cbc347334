/** The client's poll loop composed with the server, over first-in first-out channels: what its
    consumer receives, over every interleaving with puts and other clients. */
module Delivery {
  import opened CanalTypes
  import opened JournalOrder
  import opened EventLog
  import opened Conversion
  import opened Session
  import opened SessionRuns
  import opened SessionSafety

  const CLIENT_FETCH_SIZE := 100

  datatype Phase = Idle | Awaiting | Stopped

  /** The server's replies not yet dealt with are `sys.out[taken..]`; of the first of these, `part` entries
      have been forwarded to the consumer. */
  datatype World = World(
    sys: System,
    toServer: seq<Frame>,
    phase: Phase,
    taken: nat,
    part: nat,
    forwarded: seq<Result<CanalEvent, CanalError>>)

  datatype Move =
    | Poll                     // the client sends a Get
    | Forward                  // the client decodes an entry of a reply and forwards it
    | Take                     // the client is done with a reply
    | Fail                     // a send or a read of the client fails, or its consumer is gone
    | Accept                   // the server takes a packet
    | Server(step: Step)       // anything else at the server

  /** The client sends nothing but Gets and acks; connecting again is another subscription. */
  predicate ServerSide(step: Step) {
    step.Put? || step.OtherClientReads? || step.OtherSessions? || step.Serve? || step.TimeOut? || step.Abort?
  }

  function Decoded(p: Prost, entries: seq<seq<byte>>): seq<Result<CanalEvent, CanalError>> {
    seq(|entries|, i requires 0 <= i < |entries| => EntryBytesToEvent(p, entries[i]))
  }

  function Entries(out: seq<Reply>, taken: nat): seq<seq<byte>> {
    if taken < |out| && out[taken].Messages? then out[taken].entries else []
  }

  /** One move of `subscribe`'s loop or of the server. The client forwards the events of a batch one by
      one, and may fail in the middle; then it acks the batch by its id and polls again. An `Ack` packet
      ends the loop. */
  ghost function Next(cfg: Config, w: World, move: Move): World {
    match move
    case Poll =>
      if w.phase != Idle then w
      else w.(phase := Awaiting, toServer := w.toServer + [Get(Some(CLIENT_FETCH_SIZE))])
    case Forward =>
      if w.phase != Awaiting || w.part >= |Entries(w.sys.out, w.taken)| then w
      else
        w.(part := w.part + 1,
           forwarded := w.forwarded + [EntryBytesToEvent(cfg.prost, Entries(w.sys.out, w.taken)[w.part])])
    case Take =>
      if w.phase != Awaiting || w.taken >= |w.sys.out| || w.part < |Entries(w.sys.out, w.taken)| then w
      else
        (match w.sys.out[w.taken]
         case Messages(id, _) =>
           w.(taken := w.taken + 1, part := 0, phase := Idle, toServer := w.toServer + [Ack(Some(id))])
         case _ => w.(taken := w.taken + 1, part := 0, phase := Stopped))
    case Fail => w.(phase := Stopped)
    case Accept =>
      if w.toServer == [] || !w.sys.open || w.sys.waiting.Some? then w
      else w.(sys := Apply(cfg, w.sys, Receive(w.toServer[0])), toServer := w.toServer[1..])
    case Server(step) => if ServerSide(step) then w.(sys := Apply(cfg, w.sys, step)) else w
  }

  ghost function Play(cfg: Config, w: World, moves: seq<Move>): World
    decreases |moves|
  {
    if moves == [] then w else Play(cfg, Next(cfg, w, moves[0]), moves[1..])
  }

  predicate Fair(w: World, move: Move) {
    move.Server? && ServerSide(move.step) ==> Disciplined(w.sys, move.step)
  }

  ghost predicate FairPlay(cfg: Config, w: World, moves: seq<Move>)
    decreases |moves|
  {
    moves != [] ==> Fair(w, moves[0]) && FairPlay(cfg, Next(cfg, w, moves[0]), moves[1..])
  }

  ghost predicate PrudentPlay(cfg: Config, w: World, moves: seq<Move>)
    decreases |moves|
  {
    moves != [] ==>
      && (moves[0].Server? && ServerSide(moves[0].step) ==> Prudent(w.sys, moves[0].step))
      && PrudentPlay(cfg, Next(cfg, w, moves[0]), moves[1..])
  }

  ghost predicate AtomicPlay(cfg: Config, w: World, moves: seq<Move>)
    decreases |moves|
  {
    moves != [] ==>
      && (moves[0].Server? && ServerSide(moves[0].step) ==> Atomic(w.sys, moves[0].step))
      && AtomicPlay(cfg, Next(cfg, w, moves[0]), moves[1..])
  }

  /** Safe in any of the three senses in which a run of the server is. */
  ghost predicate SafePlay(cfg: Config, w: World, moves: seq<Move>) {
    (Checked(w.sys) && AtomicPlay(cfg, w, moves)) || PrudentPlay(cfg, w, moves) || FairPlay(cfg, w, moves)
  }

  // -- What is owed ---------------------------------------------------------

  /** The event as it leaves the client. */
  function OnWire(p: Prost, e: CanalEvent): Result<CanalEvent, CanalError> {
    match EventToEntry(p, e)
    case Err(error) => Err(error)
    case Ok(entry) => Ok(NormalForm(e).(rawBytes := entry.storeValue))
  }

  function OnWireAll(p: Prost, events: seq<CanalEvent>): seq<Result<CanalEvent, CanalError>> {
    seq(|events|, i requires 0 <= i < |events| => OnWire(p, events[i]))
  }

  lemma {:induction false} EncodedThenDecoded(p: Prost, events: seq<CanalEvent>)
    requires Lawful(p) && EncodeEvents(p, events).Some?
    ensures Decoded(p, EncodeEvents(p, events).value) == OnWireAll(p, events)
  {
    hide EventToEntry, EntryBytesToEvent, NormalForm, Lawful;
    if events != [] {
      WireRoundTrip(p, events[0]);
      EncodedThenDecoded(p, events[1..]);
      var rest := EncodeEvents(p, events[1..]).value;
      var bytes := p.encodeEntry(EventToEntry(p, events[0]).value);
      assert Decoded(p, [bytes] + rest) == [EntryBytesToEvent(p, bytes)] + Decoded(p, rest);
      assert OnWireAll(p, events) == [OnWire(p, events[0])] + OnWireAll(p, events[1..]);
    }
  }

  lemma OnWireConcat(p: Prost, a: seq<CanalEvent>, b: seq<CanalEvent>)
    ensures OnWireAll(p, a + b) == OnWireAll(p, a) + OnWireAll(p, b)
  {
    hide OnWire;
  }

  /** The log entries that a client with filter `f` is owed from the batches `served`: those between
      the start of the first and the end of the last that pass. */
  function Owed(cfg: Config, f: FilterPattern, log: seq<CanalEvent>, served: seq<Served>): seq<CanalEvent> {
    if served == [] then []
    else
      var from, to := served[0].from, served[|served| - 1].to;
      if from <= to <= |log| then Select(cfg.re, f, log[from..to]) else []
  }

  // -- The invariant --------------------------------------------------------

  /** Batches follow each other in the log without a gap or an overlap, all under the filter `f`, and
      the end of each is the end of a position group. */
  ghost predicate Contiguous(log: seq<CanalEvent>, served: seq<Served>, f: FilterPattern) {
    && (forall k | 0 <= k < |served| :: GroupEndsAt(log, served[k], f))
    && (forall j, k | 0 <= j && k == j + 1 && k < |served| :: served[k].from == served[j].to)
  }

  predicate GroupEndsAt(log: seq<CanalEvent>, b: Served, f: FilterPattern) {
    && b.filter == Some(f) && b.from < b.to <= |log|
    && FirstAfter(log, EventKey(log[b.to - 1])) == b.to
  }

  /** The client never rolls back, so the cursor is at the end of the last batch. */
  ghost predicate ServerInv(f: FilterPattern, sys: System) {
    && Contiguous(sys.log, sys.served, f)
    && (sys.open ==>
          && sys.conn.authenticated
          && FilterOf(sys.sessions, sys.conn.clientId) == Some(f)
          && (sys.served != [] ==> sys.conn.currentPos == sys.conn.lastGetEndPos))
  }

  /** The number of batches whose replies the client has taken. */
  function BatchesTaken(out: seq<Reply>, taken: nat): nat
    requires taken <= |out|
  {
    |DataReplies(out[..taken])|
  }

  /** Is `id` the id of one of the first `n` batches, or the id of an empty answer? */
  ghost predicate KnownId(served: seq<Served>, n: nat, id: int) {
    id == 0 || exists k :: 0 <= k < n && k < |served| && served[k].batchId == id
  }

  ghost predicate ClientFrame(served: seq<Served>, n: nat, frame: Frame) {
    || frame == Get(Some(CLIENT_FETCH_SIZE))
    || (frame.Ack? && frame.batchId.Some? && KnownId(served, n, frame.batchId.value))
  }

  /** An ack is at the end of one of the first `n` batches. */
  ghost predicate AckedTaken(log: seq<CanalEvent>, served: seq<Served>, n: nat, ack: LogPosition) {
    exists k :: 0 <= k < n && k < |served| && 0 < served[k].to <= |log| && ack == PositionOf(log[served[k].to - 1])
  }

  /** The client acks only what it has taken, and what it has forwarded is what those batches owe and
      the part of the next one that it has got through. */
  ghost predicate ClientInv(cfg: Config, f: FilterPattern, w: World) {
    && w.taken <= |w.sys.out|
    && var n := BatchesTaken(w.sys.out, w.taken);
    && n <= |w.sys.served|
    && w.part <= |Entries(w.sys.out, w.taken)|
    && w.forwarded == OnWireAll(cfg.prost, Owed(cfg, f, w.sys.log, w.sys.served[..n]))
                      + Decoded(cfg.prost, Entries(w.sys.out, w.taken)[..w.part])
    && (forall i | 0 <= i < |w.toServer| :: ClientFrame(w.sys.served, n, w.toServer[i]))
    && (w.sys.open && w.sys.conn.lastAckPos.Some? ==>
          AckedTaken(w.sys.log, w.sys.served, n, w.sys.conn.lastAckPos.value))
  }

  ghost predicate WorldInv(cfg: Config, f: FilterPattern, w: World) {
    && Sound(cfg, w.sys) && CoverInv(w.sys)
    && ServerInv(f, w.sys)
    && ClientInv(cfg, f, w)
  }

  // -- Every move keeps it --------------------------------------------------

  lemma TakenIsPrefix(out: seq<Reply>, more: seq<Reply>, taken: nat)
    requires taken <= |out|
    ensures BatchesTaken(out + more, taken) == BatchesTaken(out, taken)
    ensures DataReplies(out[..taken]) <= DataReplies(out)
  {
    hide DataReplies;
    assert (out + more)[..taken] == out[..taken];
    assert out == out[..taken] + out[taken..];
    DataRepliesConcat(out[..taken], out[taken..]);
  }

  lemma OwedStable(cfg: Config, f: FilterPattern, log: seq<CanalEvent>, events: seq<CanalEvent>, served: seq<Served>)
    requires Contiguous(log, served, f)
    ensures Owed(cfg, f, log + events, served) == Owed(cfg, f, log, served)
  {
    hide Passes, Select, FirstAfter;
    if served != [] {
      ServedInOrder(log, served, f, 0, |served| - 1);
      var from, to := served[0].from, served[|served| - 1].to;
      assert (log + events)[from..to] == log[from..to];
    }
  }

  lemma {:induction false} ServedInOrder(log: seq<CanalEvent>, served: seq<Served>, f: FilterPattern, j: nat, k: nat)
    requires Contiguous(log, served, f) && j <= k < |served|
    ensures served[j].from < served[k].to <= |log|
    decreases k - j
  {
    if j < k {
      ServedInOrder(log, served, f, j + 1, k);
    }
  }

  lemma ContiguousPrefix(log: seq<CanalEvent>, served: seq<Served>, f: FilterPattern, n: nat)
    requires Contiguous(log, served, f) && n <= |served|
    ensures Contiguous(log, served[..n], f)
  {
  }

  lemma ContiguousAfterPut(log: seq<CanalEvent>, events: seq<CanalEvent>, served: seq<Served>, f: FilterPattern)
    requires Sorted(log) && Contiguous(log, served, f) && StrictlyAfter(log, events)
    ensures Contiguous(log + events, served, f)
  {
    hide BinlogSuffix, FirstAfter, StrictlyAfter;
    forall k | 0 <= k < |served|
      ensures GroupEndsAt(log + events, served[k], f)
    {
      assert GroupEndsAt(log, served[k], f);
      var last := log[served[k].to - 1];
      assert (log + events)[served[k].to - 1] == last;
      assert AtMost(EventKey(last), EventKey(log[|log| - 1]));
      CursorStable(log, events, EventKey(last));
    }
  }

  lemma ContiguousWithMore(log: seq<CanalEvent>, served: seq<Served>, b: Served, f: FilterPattern)
    requires Contiguous(log, served, f)
    requires GroupEndsAt(log, b, f)
    requires served != [] ==> b.from == served[|served| - 1].to
    ensures Contiguous(log, served + [b], f)
  {
    hide GroupEndsAt;
  }

  /** Where the last batch ended is where the cursor stands. */
  lemma CursorAtLastEnd(f: FilterPattern, s: System)
    requires s.open && ServerInv(f, s) && RemembersLast(s.conn, s.log, s.served) && s.served != []
    ensures
      var last := s.served[|s.served| - 1];
      && s.conn.currentPos == Some(PositionOf(s.log[last.to - 1]))
      && FirstAfter(s.log, PosKey(s.conn.currentPos.value)) == last.to
  {
    hide FirstAfter, BinlogSuffix;
  }

  /** Serving one more batch. */
  lemma ServeIsContiguous(cfg: Config, f: FilterPattern, s: System)
    requires SessionInv(s) && StoreInv(s) && HistoryInv(cfg, s) && CoverInv(s) && ServerInv(f, s)
    requires CanServe(s) && !SkipsUnsent(s)
    ensures ServerInv(f, Apply(cfg, s, Serve))
  {
    hide Answer, ServedNow, BoundedFrom, ReadEnd, Apply, Failures, FirstAfter, Answers, DataReplies, Contiguous,
      RemembersLast, CoverInv, SkipsUnsent, IdsGrow, EmptyWithoutId, Sorted, Recorded;
    ServeStep(cfg, s);
    var b := ServedNow(s);
    ServedFrom(s);
    ReadEndsAtBoundary(s.log, b.from, s.waiting.value.size);
    if s.served != [] {
      CursorAtLastEnd(f, s);
      FrontIsLastEnd(s.log, s.served, f);
      ServeFromCursor(s);
    }
    ContiguousWithMore(s.log, s.served, b, f);
  }

  lemma {:induction false} FrontIsLastEnd(log: seq<CanalEvent>, served: seq<Served>, f: FilterPattern)
    requires Contiguous(log, served, f) && served != []
    ensures Front(served) == served[|served| - 1].to
  {
    var front, last := served[..|served| - 1], served[|served| - 1];
    assert GroupEndsAt(log, last, f);
    if front != [] {
      ContiguousPrefix(log, served, f, |front|);
      FrontIsLastEnd(log, front, f);
      assert last.from == served[|served| - 2].to;
    }
  }

  /** A read for the client's own cursor, which stands at the front, starts right behind that cursor. */
  lemma ServeFromCursor(s: System)
    requires StoreInv(s) && CoverInv(s) && CanServe(s) && !SkipsUnsent(s) && s.served != []
    requires s.conn.currentPos.Some? && FirstAfter(s.log, PosKey(s.conn.currentPos.value)) == Front(s.served)
    ensures ServedNow(s).from == Front(s.served)
  {
    hide Sorted, FirstAfter, Gapless, Boundaries, EndsBatch, PosKey, Front;
    BoundedRead(s.log, s.capacity, s.waiting.value.start, s.waiting.value.size);
    hide BoundedFrom, BoundedTo;
  }

  lemma OtherStepsKeepServer(cfg: Config, f: FilterPattern, s: System, step: Step)
    requires SessionInv(s) && StoreInv(s) && ServerInv(f, s) && Disciplined(s, step)
    requires ServerSide(step) && !step.Serve?
    ensures ServerInv(f, Apply(cfg, s, step))
  {
    hide FirstAfter, BoundedFrom, BoundedTo, Failures, FitsAfter;
    if step.Put? && FitsAfter(s.log, step.events) {
      ContiguousAfterPut(s.log, step.events, s.served, f);
    }
  }

  /** What a Get or an ack of the client does at the server, apart from sending no batch. */
  lemma ClientFrameFacts(cfg: Config, conn: Conn, sessions: Sessions, watermark: Option<Key>, frame: Frame)
    requires ConnInv(conn, sessions) && conn.authenticated
    requires (frame.Get? && frame.fetchSize.Some?) || (frame.Ack? && frame.batchId.Some?)
    ensures
      match Handle(cfg, conn, sessions, watermark, frame)
      case Done(o) =>
        && o.open && o.conn.authenticated && o.conn.currentPos == conn.currentPos
        && FilterOf(o.sessions, o.conn.clientId) == FilterOf(sessions, conn.clientId)
        && (o.conn.lastAckPos != conn.lastAckPos ==>
              && frame.Ack? && frame.batchId.value == conn.lastGetBatchId
              && conn.lastGetEndPos.Some? && o.conn.lastAckPos == conn.lastGetEndPos)
      case Reading(_, _, _) => true
  {
    hide BelowWatermark;
  }

  /** Histories only grow while the connection lasts. */
  lemma StepExtends(cfg: Config, s: System, step: Step)
    requires step != Connect
    ensures
      var s' := Apply(cfg, s, step);
      s.log <= s'.log && s.out <= s'.out && s.served <= s'.served
  {
    hide Handle, GetOutcome, FitsAfter, BoundedFrom, BoundedTo, Watermark, Read, Window;
  }

  lemma ClientInvExtends(cfg: Config, f: FilterPattern, w: World, sys: System, toServer: seq<Frame>)
    requires ClientInv(cfg, f, w) && Contiguous(w.sys.log, w.sys.served, f)
    requires w.sys.log <= sys.log && w.sys.out <= sys.out && w.sys.served <= sys.served
    requires forall frame | frame in toServer :: frame in w.toServer
    requires sys.open && sys.conn.lastAckPos.Some? ==>
               || (w.sys.open && sys.conn.lastAckPos == w.sys.conn.lastAckPos)
               || AckedTaken(w.sys.log, w.sys.served, BatchesTaken(w.sys.out, w.taken), sys.conn.lastAckPos.value)
    ensures ClientInv(cfg, f, w.(sys := sys, toServer := toServer))
  {
    hide Entries, Decoded, Contiguous, Owed, OnWireAll, DataReplies, BatchesTaken, ClientFrame, AckedTaken;
    var n := BatchesTaken(w.sys.out, w.taken);
    var moreLog, moreOut := sys.log[|w.sys.log|..], sys.out[|w.sys.out|..];
    assert sys.log == w.sys.log + moreLog && sys.out == w.sys.out + moreOut;
    TakenIsPrefix(w.sys.out, moreOut, w.taken);
    assert sys.served[..n] == w.sys.served[..n];
    ContiguousPrefix(w.sys.log, w.sys.served, f, n);
    OwedStable(cfg, f, w.sys.log, moreLog, w.sys.served[..n]);
    EntriesExtend(w.sys.out, moreOut, w.taken, w.part);
    forall frame | ClientFrame(w.sys.served, n, frame) ensures ClientFrame(sys.served, n, frame) {
      FrameExtends(w.sys.served, sys.served, n, n, frame);
    }
    forall ack | AckedTaken(w.sys.log, w.sys.served, n, ack) ensures AckedTaken(sys.log, sys.served, n, ack) {
      AckedExtends(w.sys.log, sys.log, w.sys.served, sys.served, n, n, ack);
    }
    forall i | 0 <= i < |toServer| ensures ClientFrame(sys.served, n, toServer[i]) {
      assert toServer[i] in w.toServer;
      var j :| 0 <= j < |w.toServer| && w.toServer[j] == toServer[i];
    }
  }

  lemma EntriesExtend(out: seq<Reply>, more: seq<Reply>, taken: nat, part: nat)
    requires taken <= |out| && part <= |Entries(out, taken)|
    ensures part <= |Entries(out + more, taken)|
    ensures Entries(out + more, taken)[..part] == Entries(out, taken)[..part]
  {
  }

  lemma FrameExtends(served: seq<Served>, served': seq<Served>, n: nat, n': nat, frame: Frame)
    requires ClientFrame(served, n, frame) && served <= served' && n <= n'
    ensures ClientFrame(served', n', frame)
  {
    if frame.Ack? && frame.batchId.value != 0 {
      var k :| 0 <= k < n && k < |served| && served[k].batchId == frame.batchId.value;
      assert served'[k] == served[k];
    }
  }

  lemma AckedExtends(log: seq<CanalEvent>, log': seq<CanalEvent>, served: seq<Served>, served': seq<Served>, n: nat,
                     n': nat, ack: LogPosition)
    requires AckedTaken(log, served, n, ack) && log <= log' && served <= served' && n <= n'
    ensures AckedTaken(log', served', n', ack)
  {
    var k :| 0 <= k < n && k < |served| && 0 < served[k].to <= |log| && ack == PositionOf(log[served[k].to - 1]);
    assert served'[k] == served[k] && log'[served[k].to - 1] == log[served[k].to - 1];
  }

  /** The server accepts an ack from the client only for a batch that the client has taken. */
  lemma AcceptedAckWasTaken(cfg: Config, f: FilterPattern, s: System, n: nat, id: int)
    requires HistoryInv(cfg, s) && s.open && KnownId(s.served, n, id)
    requires id == s.conn.lastGetBatchId && s.conn.lastGetEndPos.Some?
    ensures AckedTaken(s.log, s.served, n, s.conn.lastGetEndPos.value)
  {
    hide Answers, DataReplies, EmptyWithoutId, Recorded;
    assert s.served != [] && id != 0;
    var last := |s.served| - 1;
    var k :| 0 <= k < n && k < |s.served| && s.served[k].batchId == id;
    assert s.served[k].batchId == s.served[last].batchId;
    assert k == last;
  }

  lemma AcceptKeepsServer(cfg: Config, f: FilterPattern, s: System, n: nat, frame: Frame)
    requires SessionInv(s) && HistoryInv(cfg, s) && ServerInv(f, s) && s.open && s.waiting.None?
    requires ClientFrame(s.served, n, frame)
    ensures
      var s' := Apply(cfg, s, Receive(frame));
      && ServerInv(f, s')
      && (s'.open && s'.conn.lastAckPos.Some? ==>
            || (s.open && s'.conn.lastAckPos == s.conn.lastAckPos)
            || AckedTaken(s.log, s.served, n, s'.conn.lastAckPos.value))
  {
    hide Handle, Watermark, Failures, Contiguous, DataReplies, KnownId, AckedTaken, HistoryInv, ConnInv;
    var mark := Watermark(s.log, s.capacity);
    HandledWithoutBatch(cfg, s.conn, s.sessions, mark, frame);
    ClientFrameFacts(cfg, s.conn, s.sessions, mark, frame);
    if Handle(cfg, s.conn, s.sessions, mark, frame).Done? {
      var o := Handle(cfg, s.conn, s.sessions, mark, frame).outcome;
      if o.conn.lastAckPos != s.conn.lastAckPos {
        AcceptedAckWasTaken(cfg, f, s, n, frame.batchId.value);
      }
    }
  }

  lemma AcceptKeepsWorld(cfg: Config, f: FilterPattern, w: World)
    requires WorldInv(cfg, f, w) && w.toServer != [] && w.sys.open && w.sys.waiting.None?
    ensures WorldInv(cfg, f, Next(cfg, w, Accept))
  {
    hide Apply, Sound, CoverInv, ServerInv, BatchesTaken, AckedTaken, ClientFrame, Owed, OnWireAll, Entries, Decoded;
    var frame, s, n := w.toServer[0], w.sys, BatchesTaken(w.sys.out, w.taken);
    var step := Receive(frame);
    assert ClientFrame(s.served, n, frame);
    SoundParts(cfg, s);
    StepKeepsSound(cfg, s, step);
    StepKeepsCover(cfg, s, step);
    StepExtends(cfg, s, step);
    AcceptKeepsServer(cfg, f, s, n, frame);
    ServerIsContiguous(f, s);
    ClientInvExtends(cfg, f, w, Apply(cfg, s, step), w.toServer[1..]);
  }

  lemma ServerIsContiguous(f: FilterPattern, s: System)
    requires ServerInv(f, s)
    ensures Contiguous(s.log, s.served, f)
  {
  }

  lemma ServerStepKeepsWorld(cfg: Config, f: FilterPattern, w: World, step: Step)
    requires WorldInv(cfg, f, w) && ServerSide(step) && Disciplined(w.sys, step)
    ensures WorldInv(cfg, f, Next(cfg, w, Server(step)))
  {
    hide Apply, Sound, CoverInv, ServerInv, ClientInv, Disciplined;
    var s := w.sys;
    SoundParts(cfg, s);
    StepKeepsSound(cfg, s, step);
    StepKeepsCover(cfg, s, step);
    ServerStepKeepsServer(cfg, f, s, step);
    StepExtends(cfg, s, step);
    StepKeepsAck(cfg, s, step);
    ServerIsContiguous(f, s);
    ClientInvExtends(cfg, f, w, Apply(cfg, s, step), w.toServer);
  }

  lemma ServerStepKeepsServer(cfg: Config, f: FilterPattern, s: System, step: Step)
    requires SessionInv(s) && StoreInv(s) && HistoryInv(cfg, s) && CoverInv(s) && ServerInv(f, s)
    requires ServerSide(step) && Disciplined(s, step)
    ensures ServerInv(f, Apply(cfg, s, step))
  {
    hide SessionInv, StoreInv, CoverInv, HistoryInv, ServerInv, ServeOutcome, CanServe;
    if !step.Serve? {
      OtherStepsKeepServer(cfg, f, s, step);
    } else if CanServe(s) {
      ServeIsContiguous(cfg, f, s);
    }
  }

  lemma StepKeepsAck(cfg: Config, s: System, step: Step)
    requires ServerSide(step)
    ensures Apply(cfg, s, step).conn.lastAckPos == s.conn.lastAckPos
    ensures Apply(cfg, s, step).open ==> s.open
  {
    hide EncodeEvents, ToSend, FitsAfter, BoundedFrom, BoundedTo, Read, Window;
  }

  // -- Taking a batch -------------------------------------------------------

  /** The next reply that carries a batch is the answer to the next batch served. */
  lemma NextAnswer(cfg: Config, s: System, taken: nat)
    requires HistoryInv(cfg, s) && taken < |s.out| && s.out[taken].Messages?
    ensures
      var n, reply := BatchesTaken(s.out, taken), s.out[taken];
      if reply.batchId == 0 then
        BatchesTaken(s.out, taken + 1) == n && reply.entries == []
      else
        && BatchesTaken(s.out, taken + 1) == n + 1 && n < |s.served|
        && Answer(cfg, s.log, s.served[n]) == Some(reply)
  {
    hide Answer, IdsGrow, RemembersLast, Recorded;
    var reply := s.out[taken];
    assert s.out[..taken + 1][..taken] == s.out[..taken];
    TakenIsPrefix(s.out, [], taken + 1);
    if reply.batchId != 0 {
      var n := BatchesTaken(s.out, taken);
      assert DataReplies(s.out[..taken + 1]) == DataReplies(s.out[..taken]) + [Some(reply)];
      assert DataReplies(s.out)[n] == Some(reply);
      assert Answers(cfg, s.log, s.served)[n] == Answer(cfg, s.log, s.served[n]);
    }
  }

  /** One more batch: what is owed grows by the events of that batch that pass. */
  lemma OwedWithNext(cfg: Config, f: FilterPattern, log: seq<CanalEvent>, served: seq<Served>, n: nat)
    requires Contiguous(log, served, f) && n < |served|
    ensures
      var b := served[n];
      && b.from < b.to <= |log| && b.filter == Some(f)
      && Owed(cfg, f, log, served[..n + 1]) == Owed(cfg, f, log, served[..n]) + Select(cfg.re, f, log[b.from..b.to])
  {
    hide Passes, Select, FirstAfter;
    var b := served[n];
    assert GroupEndsAt(log, b, f);
    ServedInOrder(log, served, f, 0, n);
    if n > 0 {
      ServedInOrder(log, served, f, 0, n - 1);
      var from, mid := served[0].from, served[n - 1].to;
      assert b.from == mid;
      assert served[..n + 1][0] == served[0] == served[..n][0];
      assert log[from..b.to] == log[from..mid] + log[mid..b.to];
      SelectConcat(cfg.re, f, log[from..mid], log[mid..b.to]);
    }
  }

  lemma ForwardKeepsClient(cfg: Config, f: FilterPattern, w: World)
    requires ClientInv(cfg, f, w) && w.phase == Awaiting && w.part < |Entries(w.sys.out, w.taken)|
    ensures ClientInv(cfg, f, Next(cfg, w, Forward))
  {
    hide Owed, OnWireAll, BatchesTaken, ClientFrame, AckedTaken, EntryBytesToEvent;
    var entries, part := Entries(w.sys.out, w.taken), w.part;
    assert entries[..part + 1] == entries[..part] + [entries[part]];
    assert Decoded(cfg.prost, entries[..part + 1]) ==
           Decoded(cfg.prost, entries[..part]) + [EntryBytesToEvent(cfg.prost, entries[part])];
  }

  lemma TakeKeepsClient(cfg: Config, f: FilterPattern, w: World)
    requires Lawful(cfg.prost) && WorldInv(cfg, f, w) && w.phase == Awaiting
    requires w.taken < |w.sys.out| && w.sys.out[w.taken].Messages? && w.part == |w.sys.out[w.taken].entries|
    ensures ClientInv(cfg, f, Next(cfg, w, Take))
  {
    hide Answer, Owed, OnWireAll, Contiguous, Sound, CoverInv, KnownId, AckedTaken, BatchesTaken, Decoded, Lawful,
      ServerInv, EntryBytesToEvent, HistoryInv, StoreInv, SessionInv, CursorInv, Apply;
    var s, n := w.sys, BatchesTaken(w.sys.out, w.taken);
    var reply := s.out[w.taken];
    SoundParts(cfg, s);
    NextAnswer(cfg, s, w.taken);
    ServerIsContiguous(f, s);
    assert reply.entries[..w.part] == reply.entries && Entries(s.out, w.taken) == reply.entries;
    var n' := BatchesTaken(s.out, w.taken + 1);
    if reply.batchId != 0 {
      TakenBatch(cfg, f, s, n, reply);
    } else {
      NothingTaken(cfg, OnWireAll(cfg.prost, Owed(cfg, f, s.log, s.served[..n])), s.served, n);
    }
    NothingTaken(cfg, w.forwarded, s.served, n);
    assert Entries(s.out, w.taken + 1)[..0] == [];
    forall i | 0 <= i < |w.toServer| ensures ClientFrame(s.served, n', w.toServer[i]) {
      FrameExtends(s.served, s.served, n, n', w.toServer[i]);
    }
    if s.open && s.conn.lastAckPos.Some? {
      AckedExtends(s.log, s.log, s.served, s.served, n, n', s.conn.lastAckPos.value);
    }
  }

  lemma TakenBatch(cfg: Config, f: FilterPattern, s: System, n: nat, reply: Reply)
    requires Lawful(cfg.prost) && Contiguous(s.log, s.served, f) && n < |s.served|
    requires Answer(cfg, s.log, s.served[n]) == Some(reply)
    ensures reply.Messages?
    ensures OnWireAll(cfg.prost, Owed(cfg, f, s.log, s.served[..n])) + Decoded(cfg.prost, reply.entries) ==
            OnWireAll(cfg.prost, Owed(cfg, f, s.log, s.served[..n + 1]))
    ensures KnownId(s.served, n + 1, reply.batchId)
  {
    hide Answer, Owed, OnWireAll, Contiguous, Select, EncodeEvents, Decoded, Lawful;
    var b := s.served[n];
    OwedWithNext(cfg, f, s.log, s.served, n);
    AnswerEntries(cfg, f, s.log, b, reply);
    var events := Select(cfg.re, f, s.log[b.from..b.to]);
    EncodedThenDecoded(cfg.prost, events);
    OnWireConcat(cfg.prost, Owed(cfg, f, s.log, s.served[..n]), events);
    assert s.served[n].batchId == reply.batchId;
  }

  lemma NothingTaken(cfg: Config, forwarded: seq<Result<CanalEvent, CanalError>>, served: seq<Served>, n: nat)
    ensures forwarded + Decoded(cfg.prost, []) == forwarded && KnownId(served, n, 0)
  {
  }

  lemma AnswerEntries(cfg: Config, f: FilterPattern, log: seq<CanalEvent>, b: Served, reply: Reply)
    requires Answer(cfg, log, b) == Some(reply) && b.filter == Some(f)
    ensures reply.Messages? && reply.batchId == b.batchId && b.from <= b.to <= |log|
    ensures EncodeEvents(cfg.prost, Select(cfg.re, f, log[b.from..b.to])) == Some(reply.entries)
  {
    hide Select, EncodeEvents;
  }

  lemma MoveKeepsWorld(cfg: Config, f: FilterPattern, w: World, move: Move)
    requires Lawful(cfg.prost) && WorldInv(cfg, f, w) && Fair(w, move)
    ensures WorldInv(cfg, f, Next(cfg, w, move))
  {
    hide Sound, CoverInv, ServerInv, Apply, Owed, OnWireAll, AckedTaken, KnownId, Lawful, Decoded;
    match move
    case Poll =>
    case Fail =>
    case Accept =>
      if w.toServer != [] && w.sys.open && w.sys.waiting.None? {
        AcceptKeepsWorld(cfg, f, w);
      }
    case Server(step) =>
      if ServerSide(step) {
        ServerStepKeepsWorld(cfg, f, w, step);
      }
    case Forward =>
      if w.phase == Awaiting && w.part < |Entries(w.sys.out, w.taken)| {
        ForwardKeepsClient(cfg, f, w);
      }
    case Take =>
      if w.phase == Awaiting && w.taken < |w.sys.out| && w.part >= |Entries(w.sys.out, w.taken)| {
        if w.sys.out[w.taken].Messages? {
          TakeKeepsClient(cfg, f, w);
        } else {
          assert w.sys.out[..w.taken + 1][..w.taken] == w.sys.out[..w.taken];
          assert Entries(w.sys.out, w.taken)[..0] == Entries(w.sys.out, w.taken + 1)[..0];
        }
      }
  }

  lemma {:induction false} PlayKeepsWorld(cfg: Config, f: FilterPattern, w: World, moves: seq<Move>)
    requires Lawful(cfg.prost) && WorldInv(cfg, f, w) && FairPlay(cfg, w, moves)
    ensures WorldInv(cfg, f, Play(cfg, w, moves))
    decreases |moves|
  {
    hide WorldInv, Next, Fair, Lawful;
    if moves != [] {
      MoveKeepsWorld(cfg, f, w, moves[0]);
      PlayKeepsWorld(cfg, f, Next(cfg, w, moves[0]), moves[1..]);
    }
  }

  // -- Safe plays are fair --------------------------------------------------

  lemma MoveKeepsChecked(cfg: Config, f: FilterPattern, w: World, move: Move)
    requires WorldInv(cfg, f, w) && Checked(w.sys)
    requires move.Server? && ServerSide(move.step) ==> Atomic(w.sys, move.step)
    ensures Checked(Next(cfg, w, move).sys)
  {
    hide WorldInv, Apply, Checked, Entries, EntryBytesToEvent, Sound, CoverInv, ServerInv, ClientInv, WaitsBelow,
      StrictlyAfter;
    WorldParts(cfg, f, w);
    if move.Server? && ServerSide(move.step) {
      StepKeepsChecked(cfg, w.sys, move.step);
    } else if move.Accept? && w.toServer != [] {
      NotARollback(cfg, f, w);
      StepKeepsChecked(cfg, w.sys, Receive(w.toServer[0]));
    }
  }

  lemma {:induction false} AtomicPlayIsPrudent(cfg: Config, f: FilterPattern, w: World, moves: seq<Move>)
    requires Lawful(cfg.prost) && WorldInv(cfg, f, w) && Checked(w.sys) && AtomicPlay(cfg, w, moves)
    ensures PrudentPlay(cfg, w, moves)
    decreases |moves|
  {
    hide WorldInv, Next, Lawful, Checked, Atomic, Prudent, ServerSide;
    if moves != [] {
      var move := moves[0];
      if move.Server? && ServerSide(move.step) {
        AtomicIsPrudent(w.sys, move.step);
      }
      MoveKeepsChecked(cfg, f, w, move);
      PrudentMoveIsFair(cfg, f, w, move);
      MoveKeepsWorld(cfg, f, w, move);
      AtomicPlayIsPrudent(cfg, f, Next(cfg, w, move), moves[1..]);
    }
  }

  lemma PrudentMoveIsFair(cfg: Config, f: FilterPattern, w: World, move: Move)
    requires WorldInv(cfg, f, w)
    requires move.Server? && ServerSide(move.step) ==> Prudent(w.sys, move.step)
    ensures Fair(w, move)
  {
    hide WorldInv, Sound, CoverInv, ServerInv, ClientInv, SessionInv, StoreInv, HistoryInv, CursorInv, Prudent,
      Disciplined;
    WorldParts(cfg, f, w);
    SoundParts(cfg, w.sys);
    if move.Server? && ServerSide(move.step) {
      if w.sys.open && w.sys.served != [] {
        CursorStandsAtEnd(cfg, f, w.sys);
      }
      PrudentIsDisciplined(cfg, w.sys, move.step);
    }
  }

  lemma {:induction false} PrudentPlayIsFair(cfg: Config, f: FilterPattern, w: World, moves: seq<Move>)
    requires Lawful(cfg.prost) && WorldInv(cfg, f, w) && PrudentPlay(cfg, w, moves)
    ensures FairPlay(cfg, w, moves)
    decreases |moves|
  {
    hide WorldInv, Next, Lawful, Prudent, Fair;
    if moves != [] {
      PrudentMoveIsFair(cfg, f, w, moves[0]);
      MoveKeepsWorld(cfg, f, w, moves[0]);
      PrudentPlayIsFair(cfg, f, Next(cfg, w, moves[0]), moves[1..]);
    }
  }

  /** However a play is safe, none of its reads skips anything. */
  lemma SafePlayIsFair(cfg: Config, f: FilterPattern, w: World, moves: seq<Move>)
    requires Lawful(cfg.prost) && WorldInv(cfg, f, w) && SafePlay(cfg, w, moves)
    ensures FairPlay(cfg, w, moves)
  {
    hide Lawful, WorldInv, Checked, AtomicPlay, PrudentPlay, FairPlay;
    if Checked(w.sys) && AtomicPlay(cfg, w, moves) {
      AtomicPlayIsPrudent(cfg, f, w, moves);
    }
    if PrudentPlay(cfg, w, moves) {
      PrudentPlayIsFair(cfg, f, w, moves);
    }
  }

  // -- End to end -----------------------------------------------------------

  /** A connection that is authenticated, has its filter, and has been served nothing. */
  predicate FreshSubscription(f: FilterPattern, sys: System) {
    && sys.open && sys.conn.authenticated && sys.waiting.None? && sys.served == []
    && FilterOf(sys.sessions, sys.conn.clientId) == Some(f)
  }

  /** What the client makes of the reply to its authentication, and of the reply to its subscription: of
      the latter it looks at the type only. */
  function ConnectOutcome(reply: Reply): Result<(), CanalError> {
    match reply
    case AckOk => Ok(())
    case AckErr(_) => Err(AuthFailed)
    case Messages(_, _) => Err(Protocol)
  }

  function SubscribeOutcome(reply: Reply): Result<(), CanalError> {
    if reply.Messages? then Err(Protocol) else Ok(())
  }

  function ClientIdOf(auth: AuthBody): string {
    if auth.clientId == "" then "anonymous" else auth.clientId
  }

  function FilterOfAuth(auth: AuthBody): FilterPattern {
    if auth.filter == "" then DEFAULT_FILTER else FilterPattern(auth.filter, "")
  }

  predicate AuthAcceptable(cfg: Config, auth: AuthBody) {
    && (cfg.token.Some? ==> auth.password == cfg.token.value)
    && (auth.filter != "" ==> Utf8Len(auth.filter) <= MAX_FILTER_PATTERN_LEN && cfg.re.valid(auth.filter))
  }

  predicate SubAcceptable(cfg: Config, auth: AuthBody, sub: SubBody) {
    sub.clientId == ClientIdOf(auth) && Utf8Len(sub.filter) <= MAX_FILTER_PATTERN_LEN && cfg.re.valid(sub.filter)
  }

  /** The client's handshake, from any state in which its connection is closed. Connecting succeeds if and
      only if the password and the filter are accepted. Subscribing then always succeeds, even when the
      server refuses the subscription; delivery starts at the start time or the default position, under
      the subscription's filter or, if that was refused, under the one of the authentication. */
  lemma HandshakeSubscribes(cfg: Config, s: System, auth: AuthBody, sub: SubBody)
    requires !s.open
    ensures
      var s2 := Apply(cfg, Apply(cfg, s, Connect), Receive(Auth(Some(auth))));
      var s3 := Apply(cfg, s2, Receive(Sub(Some(sub))));
      && |s2.out| == 1 && (ConnectOutcome(s2.out[0]).Ok? <==> AuthAcceptable(cfg, auth))
      && (AuthAcceptable(cfg, auth) ==>
            && |s3.out| == 2 && SubscribeOutcome(s3.out[1]).Ok?
            && CursorOf(s3.conn, s3.sessions) == StartOf(auth)
            && FreshSubscription(
                 if SubAcceptable(cfg, auth, sub) then FilterPattern(sub.filter, "") else FilterOfAuth(auth), s3))
    ensures
      var steps := [Connect, Receive(Auth(Some(auth))), Receive(Sub(Some(sub)))];
      && DisciplinedRun(cfg, s, steps)
      && Run(cfg, s, steps) ==
         Apply(cfg, Apply(cfg, Apply(cfg, s, Connect), Receive(Auth(Some(auth)))), Receive(Sub(Some(sub))))
  {
    hide Apply, Disciplined, AuthAcceptable, SubAcceptable, FreshSubscription, CursorOf, Utf8Len, ConnectOutcome;
    var steps := [Connect, Receive(Auth(Some(auth))), Receive(Sub(Some(sub)))];
    var s1 := Apply(cfg, s, Connect);
    var s2 := Apply(cfg, s1, steps[1]);
    var s3 := Apply(cfg, s2, steps[2]);
    assert steps[1..] == [steps[1], steps[2]] && steps[1..][1..] == [steps[2]] && [steps[2]][1..] == [];
    assert Run(cfg, s2, [steps[2]]) == Run(cfg, s3, []) == s3;
    assert DisciplinedRun(cfg, s3, []);
    assert DisciplinedRun(cfg, s2, [steps[2]]) by { HandshakeIsDisciplined(s2, auth, sub); }
    assert DisciplinedRun(cfg, s1, [steps[1], steps[2]]) by { HandshakeIsDisciplined(s1, auth, sub); }
    HandshakeIsDisciplined(s, auth, sub);
    Connected(cfg, s);
    AuthStarts(cfg, s1, auth);
    if AuthAcceptable(cfg, auth) {
      SubStarts(cfg, s2, auth, sub);
    }
  }

  lemma HandshakeIsDisciplined(s: System, auth: AuthBody, sub: SubBody)
    ensures Disciplined(s, Connect)
    ensures Disciplined(s, Receive(Auth(Some(auth)))) && Disciplined(s, Receive(Sub(Some(sub))))
  {
    hide SkipsUnsent, StrictlyAfter;
  }

  lemma Connected(cfg: Config, s: System)
    requires !s.open
    ensures Apply(cfg, s, Connect) == s.(open := true, conn := NEW_CONN, waiting := None, out := [], served := [])
  {
  }

  /** The state after an accepted authentication. */
  ghost predicate JustAuthenticated(auth: AuthBody, s: System) {
    && s.open && s.waiting.None? && s.served == [] && s.conn.authenticated
    && s.conn.clientId == Some(ClientIdOf(auth))
    && s.conn.currentPos == (if auth.startTimestamp > 0 then Some(StartOf(auth)) else None)
    && ClientIdOf(auth) in s.sessions
    && s.sessions[ClientIdOf(auth)].filter == FilterOfAuth(auth)
    && s.sessions[ClientIdOf(auth)].lastAck == None
  }

  lemma AuthStarts(cfg: Config, s: System, auth: AuthBody)
    requires s.open && s.conn == NEW_CONN && s.waiting.None? && s.served == []
    ensures
      var s' := Apply(cfg, s, Receive(Auth(Some(auth))));
      && |s'.out| == |s.out| + 1 && (ConnectOutcome(s'.out[|s.out|]).Ok? <==> AuthAcceptable(cfg, auth))
      && (AuthAcceptable(cfg, auth) ==> JustAuthenticated(auth, s'))
  {
    hide Utf8Len, Watermark;
  }

  lemma SubStarts(cfg: Config, s: System, auth: AuthBody, sub: SubBody)
    requires JustAuthenticated(auth, s)
    ensures
      var s' := Apply(cfg, s, Receive(Sub(Some(sub))));
      && |s'.out| == |s.out| + 1 && SubscribeOutcome(s'.out[|s.out|]).Ok?
      && CursorOf(s'.conn, s'.sessions) == StartOf(auth)
      && FreshSubscription(
           if SubAcceptable(cfg, auth, sub) then FilterPattern(sub.filter, "") else FilterOfAuth(auth), s')
  {
    hide Utf8Len, Watermark;
  }

  /** The client's loop about to start. */
  function Subscribed(sys: System): World {
    World(sys, [], Idle, |sys.out|, 0, [])
  }

  lemma SubscribedInv(cfg: Config, f: FilterPattern, sys: System)
    requires Sound(cfg, sys) && FreshSubscription(f, sys)
    ensures WorldInv(cfg, f, Subscribed(sys))
  {
    SoundParts(cfg, sys);
    NothingServedIsCovered(cfg, sys);
    hide Sound, SessionInv, StoreInv, CoverInv, FirstAfter;
    NothingServedNothingAcked(sys);
    assert sys.out[..|sys.out|] == sys.out;
  }

  /** The connection started to read from `start`, no earlier than when the log had `n` entries. */
  ghost predicate BeganAfter(s: System, start: LogPosition, n: nat) {
    StartedAt(s, start) && n <= |s.log| && (s.served != [] ==> n <= s.served[0].seen)
  }

  lemma StepKeepsBegan(cfg: Config, s: System, step: Step, start: LogPosition, n: nat)
    requires SessionInv(s) && StoreInv(s) && CursorInv(s) && BeganAfter(s, start, n)
    requires step != Connect && step != Receive(Rollback(true))
    ensures BeganAfter(Apply(cfg, s, step), start, n)
  {
    hide SessionInv, StoreInv, CursorInv, Apply, StartedAt;
    StepKeepsStart(cfg, s, step, start);
    StepExtends(cfg, s, step);
    if s.served == [] {
      FirstSeen(cfg, s, step);
    }
  }

  lemma FirstSeen(cfg: Config, s: System, step: Step)
    requires StoreInv(s) && s.served == [] && step != Connect
    ensures Apply(cfg, s, step).served != [] ==> Apply(cfg, s, step).served[0].seen == |s.log|
  {
    hide Handle, GetOutcome, FitsAfter, BoundedFrom, BoundedTo, Watermark, Read, Window, Sorted;
  }

  lemma {:induction false} PlayKeepsBegan(cfg: Config, f: FilterPattern, w: World, moves: seq<Move>,
                                          start: LogPosition, n: nat)
    requires Lawful(cfg.prost) && WorldInv(cfg, f, w) && FairPlay(cfg, w, moves) && BeganAfter(w.sys, start, n)
    ensures BeganAfter(Play(cfg, w, moves).sys, start, n)
    decreases |moves|
  {
    hide WorldInv, Next, Fair, Lawful, BeganAfter;
    if moves != [] {
      MoveKeepsWorld(cfg, f, w, moves[0]);
      MoveKeepsBegan(cfg, f, w, moves[0], start, n);
      PlayKeepsBegan(cfg, f, Next(cfg, w, moves[0]), moves[1..], start, n);
    }
  }

  lemma MoveKeepsBegan(cfg: Config, f: FilterPattern, w: World, move: Move, start: LogPosition, n: nat)
    requires WorldInv(cfg, f, w) && BeganAfter(w.sys, start, n)
    ensures BeganAfter(Next(cfg, w, move).sys, start, n)
  {
    hide WorldInv, Apply, BeganAfter, SessionInv, StoreInv, CursorInv, HistoryInv, Entries, EntryBytesToEvent, Sound,
      CoverInv, ServerInv, ClientInv;
    WorldParts(cfg, f, w);
    SoundParts(cfg, w.sys);
    if move.Server? && ServerSide(move.step) {
      StepKeepsBegan(cfg, w.sys, move.step, start, n);
    } else if move.Accept? && w.toServer != [] {
      NotARollback(cfg, f, w);
      StepKeepsBegan(cfg, w.sys, Receive(w.toServer[0]), start, n);
    }
  }

  lemma WorldParts(cfg: Config, f: FilterPattern, w: World)
    requires WorldInv(cfg, f, w)
    ensures Sound(cfg, w.sys) && CoverInv(w.sys) && ServerInv(f, w.sys) && ClientInv(cfg, f, w)
  {
    hide Sound, CoverInv, ServerInv, ClientInv;
  }

  lemma NotARollback(cfg: Config, f: FilterPattern, w: World)
    requires ClientInv(cfg, f, w) && w.toServer != []
    ensures w.toServer[0] != Rollback(true)
  {
    hide BatchesTaken, Owed, OnWireAll, Decoded, AckedTaken, KnownId;
    assert ClientFrame(w.sys.served, BatchesTaken(w.sys.out, w.taken), w.toServer[0]);
  }

  /** End-to-end delivery. A client that subscribes in any reachable state of the server, whatever went
      before, receives, in every safe interleaving of its loop with puts, other clients, empty answers and a
      lost connection, and however far it gets with its last batch, a prefix of the entries it is owed:
      those of one contiguous segment of the log that pass its filter, in order and once each, in their
      normal form.
      When no reply is left to deal with it has received all of them. The segment begins where the first
      read of the client's start cursor began, in the log as it was then: for a position, at the first
      entry behind it, or at the oldest one retained if that had been dropped; for a start time, at the
      first entry retained that was executed since. It ends exactly where the server's cursor stands. */
  lemma EndToEndDelivery(cfg: Config, capacity: nat, steps: seq<Step>, f: FilterPattern, moves: seq<Move>)
    requires Lawful(cfg.prost) && capacity > 0
    requires FreshSubscription(f, Run(cfg, Start(capacity), steps))
    requires SafePlay(cfg, Subscribed(Run(cfg, Start(capacity), steps)), moves)
    ensures
      var s0 := Run(cfg, Start(capacity), steps);
      var w := Play(cfg, Subscribed(s0), moves);
      var owed := OnWireAll(cfg.prost, Owed(cfg, f, w.sys.log, w.sys.served));
      && w.forwarded <= owed
      && (w.taken == |w.sys.out| ==> w.forwarded == owed)
      && (w.sys.served != [] ==>
            var first := w.sys.served[0];
            var base, end := first.from, w.sys.served[|w.sys.served| - 1].to;
            && first.start == CursorOf(s0.conn, s0.sessions) && |s0.log| <= first.seen
            && BeginsRight(w.sys.log, w.sys.capacity, first)
            && base < end <= |w.sys.log|
            && Owed(cfg, f, w.sys.log, w.sys.served) == Select(cfg.re, f, w.sys.log[base..end])
            && (w.sys.open ==>
                  w.sys.conn.currentPos.Some? && end == FirstAfter(w.sys.log, PosKey(w.sys.conn.currentPos.value))))
  {
    hide Run, FairPlay, SafePlay, Play, WorldInv, Lawful, Owed, OnWireAll, Select, CursorOf, BeginsRight,
      FirstAfter, Sound, CoverInv, FilterOf;
    var s0 := Run(cfg, Start(capacity), steps);
    StartIsSound(cfg, capacity);
    RunKeepsSound(cfg, Start(capacity), steps);
    SubscribedInv(cfg, f, s0);
    SafePlayIsFair(cfg, f, Subscribed(s0), moves);
    PlayKeepsWorld(cfg, f, Subscribed(s0), moves);
    PlayKeepsBegan(cfg, f, Subscribed(s0), moves, CursorOf(s0.conn, s0.sessions), |s0.log|);
    DeliveredSoFar(cfg, f, Play(cfg, Subscribed(s0), moves));
  }

  /** What the invariant says about delivery. */
  lemma DeliveredSoFar(cfg: Config, f: FilterPattern, w: World)
    requires Lawful(cfg.prost) && WorldInv(cfg, f, w)
    ensures
      var owed := OnWireAll(cfg.prost, Owed(cfg, f, w.sys.log, w.sys.served));
      && w.forwarded <= owed
      && (w.taken == |w.sys.out| ==> w.forwarded == owed)
      && (w.sys.served != [] ==>
            var base, end := w.sys.served[0].from, w.sys.served[|w.sys.served| - 1].to;
            && BeginsRight(w.sys.log, w.sys.capacity, w.sys.served[0])
            && base < end <= |w.sys.log|
            && Owed(cfg, f, w.sys.log, w.sys.served) == Select(cfg.re, f, w.sys.log[base..end])
            && (w.sys.open ==>
                  w.sys.conn.currentPos.Some? && end == FirstAfter(w.sys.log, PosKey(w.sys.conn.currentPos.value))))
  {
    hide WorldInv, Sound, SessionInv, StoreInv, HistoryInv, CoverInv, CursorInv, ServerInv, ClientInv, FirstAfter,
      Select, OnWireAll, BeginsRight, Lawful, Contiguous;
    WorldParts(cfg, f, w);
    SoundParts(cfg, w.sys);
    FirstBegins(cfg, w.sys);
    PartOfOwed(cfg, f, w);
    ServerIsContiguous(f, w.sys);
    if w.taken == |w.sys.out| {
      AllForwarded(cfg, f, w);
    }
    if w.sys.served != [] {
      ServedInOrder(w.sys.log, w.sys.served, f, 0, |w.sys.served| - 1);
      if w.sys.open {
        CursorStandsAtEnd(cfg, f, w.sys);
      }
    }
  }

  lemma CursorStandsAtEnd(cfg: Config, f: FilterPattern, s: System)
    requires HistoryInv(cfg, s) && ServerInv(f, s) && s.open && s.served != []
    ensures s.conn.currentPos.Some?
    ensures FirstAfter(s.log, PosKey(s.conn.currentPos.value)) == s.served[|s.served| - 1].to
  {
    hide FirstAfter, IdsGrow, EmptyWithoutId, DataReplies, Answers, Recorded;
    CursorAtLastEnd(f, s);
  }

  lemma AllForwarded(cfg: Config, f: FilterPattern, w: World)
    requires HistoryInv(cfg, w.sys) && ClientInv(cfg, f, w) && w.taken == |w.sys.out|
    ensures w.forwarded == OnWireAll(cfg.prost, Owed(cfg, f, w.sys.log, w.sys.served))
  {
    hide HistoryInv, OnWireAll, Owed, Decoded, BatchesTaken, ClientFrame, AckedTaken;
    var s := w.sys;
    AllTaken(cfg, s);
    assert s.served[..|s.served|] == s.served;
    NothingTaken(cfg, OnWireAll(cfg.prost, Owed(cfg, f, s.log, s.served)), s.served, |s.served|);
    assert Entries(s.out, w.taken)[..w.part] == [];
  }

  /** What has been forwarded, the part of the last batch included, is a prefix of what is owed. */
  lemma PartOfOwed(cfg: Config, f: FilterPattern, w: World)
    requires Lawful(cfg.prost) && WorldInv(cfg, f, w)
    ensures w.forwarded <= OnWireAll(cfg.prost, Owed(cfg, f, w.sys.log, w.sys.served))
    ensures OnWireAll(cfg.prost, Owed(cfg, f, w.sys.log, w.sys.served[..BatchesTaken(w.sys.out, w.taken)]))
         <= w.forwarded
  {
    hide Sound, CoverInv, ServerInv, Owed, OnWireAll, Decoded, BatchesTaken, ClientFrame, AckedTaken, Lawful, Answer;
    hide HistoryInv, SessionInv, StoreInv, CursorInv, Contiguous;
    var s, n := w.sys, BatchesTaken(w.sys.out, w.taken);
    ServerIsContiguous(f, s);
    SoundParts(cfg, s);
    var entries := Entries(s.out, w.taken);
    if w.part > 0 {
      NextAnswer(cfg, s, w.taken);
      hide ClientInv;
      TakenBatch(cfg, f, s, n, s.out[w.taken]);
      OwedGrows(cfg, f, s.log, s.served, n + 1);
      DecodedPrefix(cfg.prost, entries, w.part);
    } else {
      NothingTaken(cfg, OnWireAll(cfg.prost, Owed(cfg, f, s.log, s.served[..n])), s.served, n);
      assert entries[..0] == [];
      OwedGrows(cfg, f, s.log, s.served, n);
    }
  }

  lemma DecodedPrefix(p: Prost, entries: seq<seq<byte>>, n: nat)
    requires n <= |entries|
    ensures Decoded(p, entries[..n]) <= Decoded(p, entries)
  {
    hide EntryBytesToEvent;
  }

  lemma AllTaken(cfg: Config, s: System)
    requires HistoryInv(cfg, s)
    ensures BatchesTaken(s.out, |s.out|) == |s.served|
  {
    hide IdsGrow, EmptyWithoutId, RemembersLast, DataReplies, Recorded;
    assert s.out[..|s.out|] == s.out;
    AnswersLength(cfg, s.log, s.served);
  }

  lemma AnswersLength(cfg: Config, log: seq<CanalEvent>, served: seq<Served>)
    ensures |Answers(cfg, log, served)| == |served|
  {
  }

  /** What fewer batches owe is a prefix of what more batches owe. */
  lemma {:induction false} OwedGrows(cfg: Config, f: FilterPattern, log: seq<CanalEvent>, served: seq<Served>, n: nat)
    requires Contiguous(log, served, f) && n <= |served|
    ensures OnWireAll(cfg.prost, Owed(cfg, f, log, served[..n])) <= OnWireAll(cfg.prost, Owed(cfg, f, log, served))
    decreases |served| - n
  {
    hide Owed, Select, OnWireAll, Contiguous;
    if n < |served| {
      OwedWithNext(cfg, f, log, served, n);
      OnWireConcat(cfg.prost, Owed(cfg, f, log, served[..n]),
        Select(cfg.re, f, log[served[n].from..served[n].to]));
      OwedGrows(cfg, f, log, served, n + 1);
    } else {
      assert served[..n] == served;
    }
  }

  /** At least once: everything from where the client started up to its last accepted ack that passes its
      filter has been forwarded to the consumer, so an ack never confirms an event that a crash could
      lose. */
  lemma AckedWasForwarded(cfg: Config, capacity: nat, steps: seq<Step>, f: FilterPattern, moves: seq<Move>)
    requires Lawful(cfg.prost) && capacity > 0
    requires FreshSubscription(f, Run(cfg, Start(capacity), steps))
    requires SafePlay(cfg, Subscribed(Run(cfg, Start(capacity), steps)), moves)
    ensures
      var s0 := Run(cfg, Start(capacity), steps);
      var w := Play(cfg, Subscribed(s0), moves);
      w.sys.open && w.sys.conn.lastAckPos.Some? ==>
        && w.sys.served != []
        && var first, acked := w.sys.served[0], FirstAfter(w.sys.log, PosKey(w.sys.conn.lastAckPos.value));
        && first.start == CursorOf(s0.conn, s0.sessions) && |s0.log| <= first.seen
        && BeginsRight(w.sys.log, w.sys.capacity, first)
        && first.from < acked <= |w.sys.log|
        && OnWireAll(cfg.prost, Select(cfg.re, f, w.sys.log[first.from..acked])) <= w.forwarded
  {
    hide Run, FairPlay, SafePlay, Play, Sound, CoverInv, FirstAfter, Select, Lawful, OnWireAll, BatchesTaken,
      Owed, AckedTaken, ClientFrame, ServerInv, CursorOf, BeginsRight, FilterOf, Decoded;
    var s0 := Run(cfg, Start(capacity), steps);
    StartIsSound(cfg, capacity);
    RunKeepsSound(cfg, Start(capacity), steps);
    SubscribedInv(cfg, f, s0);
    SafePlayIsFair(cfg, f, Subscribed(s0), moves);
    PlayKeepsWorld(cfg, f, Subscribed(s0), moves);
    EndToEndDelivery(cfg, capacity, steps, f, moves);
    var w := Play(cfg, Subscribed(s0), moves);
    if w.sys.open && w.sys.conn.lastAckPos.Some? {
      PartOfOwed(cfg, f, w);
      ServerIsContiguous(f, w.sys);
      AckedPrefix(cfg, f, w.sys.log, w.sys.served, BatchesTaken(w.sys.out, w.taken), w.sys.conn.lastAckPos.value);
    }
  }

  lemma AckedPrefix(cfg: Config, f: FilterPattern, log: seq<CanalEvent>, served: seq<Served>, n: nat, ack: LogPosition)
    requires Contiguous(log, served, f) && n <= |served| && AckedTaken(log, served, n, ack)
    ensures served != []
    ensures
      var base, acked := served[0].from, FirstAfter(log, PosKey(ack));
      && base < acked <= |log|
      && OnWireAll(cfg.prost, Select(cfg.re, f, log[base..acked]))
         <= OnWireAll(cfg.prost, Owed(cfg, f, log, served[..n]))
  {
    hide FirstAfter, Select, OnWireAll, EventKey, PosKey, Contiguous, Owed;
    var k :| 0 <= k < n && k < |served| && 0 < served[k].to <= |log| && ack == PositionOf(log[served[k].to - 1]);
    OwedUpTo(cfg, f, log, served, k);
    ContiguousPrefix(log, served, f, n);
    OwedGrows(cfg, f, log, served[..n], k + 1);
    assert served[..n][..k + 1] == served[..k + 1];
  }

  lemma OwedUpTo(cfg: Config, f: FilterPattern, log: seq<CanalEvent>, served: seq<Served>, k: nat)
    requires Contiguous(log, served, f) && k < |served|
    ensures
      var base, end := served[0].from, served[k].to;
      && base < end <= |log|
      && Owed(cfg, f, log, served[..k + 1]) == Select(cfg.re, f, log[base..end])
      && FirstAfter(log, PosKey(PositionOf(log[end - 1]))) == end
  {
    hide FirstAfter, Select, BinlogSuffix;
    ServedInOrder(log, served, f, 0, k);
    assert GroupEndsAt(log, served[k], f);
  }

  // -- Progress -------------------------------------------------------------

  /** One round of the loop when the store answers with `k` entries: poll, read, forward, ack. */
  function Round(k: nat): seq<Move> {
    [Poll, Accept, Server(Serve)] + (Forwards(k) + [Take, Accept])
  }

  function Forwards(k: nat): seq<Move> {
    if k == 0 then [] else [Forward] + Forwards(k - 1)
  }

  /** Between two rounds. */
  ghost predicate Settled(cfg: Config, f: FilterPattern, w: World) {
    && WorldInv(cfg, f, w)
    && w.sys.open && w.sys.waiting.None?
    && w.toServer == [] && w.phase == Idle && w.taken == |w.sys.out| && w.part == 0
  }

  /** Where the next read would start. */
  function NextFrom(s: System): (n: nat)
    ensures Dropped(s.log, s.capacity) <= n <= |s.log|
  {
    BoundedFrom(s.log, s.capacity, CursorOf(s.conn, s.sessions))
  }

  /** Would the next Get be refused? */
  predicate Refused(s: System) {
    && HasOwnCursor(s.conn, s.sessions)
    && CursorOf(s.conn, s.sessions).timestamp.None?
    && BelowWatermark(CursorOf(s.conn, s.sessions), Watermark(s.log, s.capacity))
  }

  /** The Get of a round, as the handlers leave it. */
  lemma GetWaits(cfg: Config, f: FilterPattern, s: System)
    requires SessionInv(s) && StoreInv(s) && ServerInv(f, s) && s.open && s.waiting.None? && !Refused(s)
    ensures StoreInv(Apply(cfg, s, Receive(Get(Some(CLIENT_FETCH_SIZE)))))
    ensures Apply(cfg, s, Receive(Get(Some(CLIENT_FETCH_SIZE)))) ==
            s.(conn := s.conn.(unknownPackets := 0),
               waiting := Some(Wait(CursorOf(s.conn, s.sessions), CLIENT_FETCH_SIZE)))
  {
    hide Apply, Watermark, BelowWatermark, SessionInv, Contiguous, Sorted, HasOwnCursor, CursorOf;
    GetStep(cfg, s, CLIENT_FETCH_SIZE);
  }

  lemma {:induction false} ForwardsAll(cfg: Config, w: World, k: nat)
    requires w.phase == Awaiting && w.part + k <= |Entries(w.sys.out, w.taken)|
    ensures
      var w' := Play(cfg, w, Forwards(k));
      FairPlay(cfg, w, Forwards(k)) && w' == w.(part := w.part + k, forwarded := w'.forwarded)
    decreases k
  {
    hide EntryBytesToEvent, Apply;
    if k > 0 {
      var w1 := Next(cfg, w, Forward);
      assert Forwards(k)[0] == Forward && Forwards(k)[1..] == Forwards(k - 1);
      ForwardsAll(cfg, w1, k - 1);
    }
  }

  /** A round, move by move. */
  lemma PlayRound(cfg: Config, w: World, k: nat)
    ensures
      var w2 := Next(cfg, Next(cfg, w, Poll), Accept);
      var w3 := Next(cfg, w2, Server(Serve));
      var w4 := Play(cfg, w3, Forwards(k));
      && Play(cfg, w, Round(k)) == Next(cfg, Next(cfg, w4, Take), Accept)
      && (Fair(w2, Server(Serve)) && FairPlay(cfg, w3, Forwards(k)) ==> FairPlay(cfg, w, Round(k)))
  {
    hide Next, Forwards;
    var w1 := Next(cfg, w, Poll);
    var w2 := Next(cfg, w1, Accept);
    var w3 := Next(cfg, w2, Server(Serve));
    var w4 := Play(cfg, w3, Forwards(k));
    PlayConcat(cfg, w, [Poll, Accept, Server(Serve)], Forwards(k) + [Take, Accept]);
    PlayConcat(cfg, w3, Forwards(k), [Take, Accept]);
    assert [Poll, Accept, Server(Serve)][1..] == [Accept, Server(Serve)];
    assert [Accept, Server(Serve)][1..] == [Server(Serve)] && [Server(Serve)][1..] == [];
    assert [Take, Accept][1..] == [Accept] && [Accept][1..] == [];
    var w5 := Next(cfg, w4, Take);
    assert Play(cfg, w5, [Accept]) == Play(cfg, Next(cfg, w5, Accept), []);
    assert FairPlay(cfg, Next(cfg, w5, Accept), []) && FairPlay(cfg, w5, [Accept]) && FairPlay(cfg, w4, [Take, Accept]);
    assert Play(cfg, w2, [Server(Serve)]) == Play(cfg, w3, []) == w3;
    assert FairPlay(cfg, w3, []);
    assert Fair(w2, Server(Serve)) ==> FairPlay(cfg, w2, [Server(Serve)]);
    assert Fair(w2, Server(Serve)) ==> FairPlay(cfg, w1, [Accept, Server(Serve)]);
  }

  /** The world after one round. */
  lemma RoundMoves(cfg: Config, f: FilterPattern, w: World) returns (k: nat)
    requires Settled(cfg, f, w) && !Refused(w.sys) && NextFrom(w.sys) < |w.sys.log| && AllKnown(w.sys.log)
    ensures FairPlay(cfg, w, Round(k))
    ensures
      var s, w' := w.sys, Play(cfg, w, Round(k));
      var s' := w'.sys;
      && s'.log == s.log && s'.capacity == s.capacity && s'.open && s'.waiting.None?
      && w'.toServer == [] && w'.phase == Idle && w'.taken == |s'.out| && w'.part == 0
      && s.served <= s'.served && |s'.served| == |s.served| + 1
      && var b := s'.served[|s.served|];
      && b.from == NextFrom(s) && b.to == ReadEnd(s.log, b.from, CLIENT_FETCH_SIZE)
      && s'.conn.currentPos == s'.conn.lastAckPos == Some(PositionOf(s.log[b.to - 1]))
  {
    hide Settled, Next, Apply, ReadEnd, CanServe, NextFrom, Refused, SkipsUnsent, Play, FairPlay, AllKnown, Round,
      Forwards, SessionInv, StoreInv, HistoryInv, CoverInv, ServerInv, Sound;
    var s := w.sys;
    SettledServer(cfg, f, w);
    ServerRound(cfg, f, s);
    var w2 := Next(cfg, Next(cfg, w, Poll), Accept);
    PollAccepted(cfg, f, w);
    var w3 := Next(cfg, w2, Server(Serve));
    ServeMove(cfg, w2);
    k := |Entries(w3.sys.out, w3.taken)|;
    ForwardsAll(cfg, w3, k);
    TakeAccepted(cfg, Play(cfg, w3, Forwards(k)));
    PlayRound(cfg, w, k);
  }

  lemma PollAccepted(cfg: Config, f: FilterPattern, w: World)
    requires Settled(cfg, f, w)
    ensures
      Next(cfg, Next(cfg, w, Poll), Accept) ==
        w.(phase := Awaiting, sys := Apply(cfg, w.sys, Receive(Get(Some(CLIENT_FETCH_SIZE)))))
  {
    hide WorldInv, Apply;
    var get := Get(Some(CLIENT_FETCH_SIZE));
    assert w.toServer + [get] == [get] && [get][1..] == [];
  }

  lemma ServeMove(cfg: Config, w: World)
    ensures Next(cfg, w, Server(Serve)) == w.(sys := Apply(cfg, w.sys, Serve))
    ensures Fair(w, Server(Serve)) <==> !SkipsUnsent(w.sys)
  {
    hide Apply, SkipsUnsent;
  }

  lemma TakeAccepted(cfg: Config, w: World)
    requires w.phase == Awaiting && w.toServer == [] && w.sys.open && w.sys.waiting.None?
    requires w.taken < |w.sys.out| && w.sys.out[w.taken].Messages? && w.part == |Entries(w.sys.out, w.taken)|
    ensures
      Next(cfg, Next(cfg, w, Take), Accept) ==
        w.(taken := w.taken + 1, part := 0, phase := Idle,
           sys := Apply(cfg, w.sys, Receive(Ack(Some(w.sys.out[w.taken].batchId)))))
  {
    hide Apply;
    var ack := Ack(Some(w.sys.out[w.taken].batchId));
    assert w.toServer + [ack] == [ack] && [ack][1..] == [];
  }

  lemma SettledServer(cfg: Config, f: FilterPattern, w: World)
    requires Settled(cfg, f, w)
    ensures Sound(cfg, w.sys) && CoverInv(w.sys) && ServerInv(f, w.sys)
    ensures SessionInv(w.sys) && StoreInv(w.sys) && HistoryInv(cfg, w.sys)
    ensures w.sys.open && w.sys.waiting.None?
    ensures w.toServer == [] && w.phase == Idle && w.taken == |w.sys.out| && w.part == 0
  {
    hide WorldInv, CoverInv, ServerInv;
    WorldParts(cfg, f, w);
    SoundParts(cfg, w.sys);
  }

  /** The server's side of a round. */
  lemma ServerRound(cfg: Config, f: FilterPattern, s: System)
    requires SessionInv(s) && StoreInv(s) && HistoryInv(cfg, s) && CoverInv(s) && ServerInv(f, s)
    requires s.open && s.waiting.None? && !Refused(s) && NextFrom(s) < |s.log| && AllKnown(s.log)
    ensures
      var s1 := Apply(cfg, s, Receive(Get(Some(CLIENT_FETCH_SIZE))));
      var s2 := Apply(cfg, s1, Serve);
      var s3 := Apply(cfg, s2, Receive(Ack(Some(s2.conn.lastGetBatchId))));
      && s1.open && s1.waiting.Some? && s1.out == s.out && !SkipsUnsent(s1)
      && s2.open && s2.waiting.None? && |s2.out| == |s.out| + 1
      && s2.out[|s.out|].Messages? && s2.out[|s.out|].batchId == s2.conn.lastGetBatchId
      && s3.log == s.log && s3.capacity == s.capacity && s3.open && s3.waiting.None? && s3.out == s2.out
      && s.served <= s3.served && |s3.served| == |s.served| + 1
      && var b := s3.served[|s.served|];
      && b.from < b.to <= |s.log|
      && b.from == NextFrom(s) && b.to == ReadEnd(s.log, b.from, CLIENT_FETCH_SIZE)
      && s3.conn.currentPos == s3.conn.lastAckPos == Some(PositionOf(s.log[b.to - 1]))
  {
    hide SessionInv, StoreInv, ServerInv, CoverInv, HistoryInv, Apply, Watermark, BelowWatermark, Answer, ReadEnd,
      BoundedFrom, BoundedTo, AllKnown, Front, FilterOf, CursorOf, HasOwnCursor, EncodeEvents, Select;
    GetWaits(cfg, f, s);
    FilterIs(f, s);
    var s1 := Apply(cfg, s, Receive(Get(Some(CLIENT_FETCH_SIZE))));
    assert CanServe(s1);
    NotRefusedSkipsNothing(cfg, f, s);
    ServeStep(cfg, s1);
    var b := ServedNow(s1);
    ServedFrom(s1);
    KnownAnswers(cfg, f, s.log, b);
    AnswerEntries(cfg, f, s.log, b, Answer(cfg, s.log, b).value);
    AckAccepted(cfg, Apply(cfg, s1, Serve));
  }

  lemma FilterIs(f: FilterPattern, s: System)
    requires ServerInv(f, s) && s.open
    ensures FilterOf(s.sessions, s.conn.clientId) == Some(f) && s.conn.authenticated && s.conn.clientId.Some?
  {
    hide Contiguous;
  }

  /** A client that would not be refused would not skip anything either. */
  lemma NotRefusedSkipsNothing(cfg: Config, f: FilterPattern, s: System)
    requires StoreInv(s) && HistoryInv(cfg, s) && CoverInv(s) && ServerInv(f, s) && s.open && !Refused(s)
    ensures s.served != [] ==> NextFrom(s) == Front(s.served)
  {
    hide FirstAfter, Watermark, BelowWatermark, BoundedFrom, HistoryInv, StoreInv, Contiguous, Gapless, Boundaries,
      EndsBatch, Front;
    if s.served != [] {
      CursorStandsAtEnd(cfg, f, s);
      CursorIsPositional(s);
      ServerIsContiguous(f, s);
      FrontIsLastEnd(s.log, s.served, f);
      SortedStore(s);
      GapDetectionExact(s.log, s.capacity, s.conn.currentPos.value);
      BoundedRead(s.log, s.capacity, s.conn.currentPos.value, 1);
      hide Sorted;
    }
  }

  lemma CursorIsPositional(s: System)
    requires CoverInv(s) && s.open && s.served != [] && s.conn.currentPos.Some?
    ensures s.conn.currentPos.value.timestamp.None?
  {
    hide Gapless, Boundaries;
  }

  lemma {:induction false} PlayConcat(cfg: Config, w: World, a: seq<Move>, b: seq<Move>)
    ensures Play(cfg, w, a + b) == Play(cfg, Play(cfg, w, a), b)
    ensures FairPlay(cfg, w, a + b) <==> FairPlay(cfg, w, a) && FairPlay(cfg, Play(cfg, w, a), b)
    decreases |a|
  {
    hide Next, Fair;
    if a == [] {
      assert a + b == b;
    } else {
      assert (a + b)[0] == a[0] && (a + b)[1..] == a[1..] + b;
      PlayConcat(cfg, Next(cfg, w, a[0]), a[1..], b);
    }
  }

  /** A round moves the cursor strictly on, by a full batch unless less is left, and what has been
      read is forwarded and acked; the next Get is not refused either. */
  lemma RoundAdvances(cfg: Config, f: FilterPattern, w: World) returns (k: nat)
    requires Lawful(cfg.prost)
    requires Settled(cfg, f, w) && !Refused(w.sys) && NextFrom(w.sys) < |w.sys.log| && AllKnown(w.sys.log)
    ensures FairPlay(cfg, w, Round(k)) && Settled(cfg, f, Play(cfg, w, Round(k)))
    ensures
      var s, s' := w.sys, Play(cfg, w, Round(k)).sys;
      && s'.log == s.log && s.served <= s'.served && |s'.served| == |s.served| + 1
      && !Refused(s')
      && NextFrom(s') - NextFrom(s) >= Min(CLIENT_FETCH_SIZE, |s.log| - NextFrom(s))
      && s'.served[|s.served|].from == NextFrom(s) && s'.served[|s.served|].to == NextFrom(s')
      && s'.conn.lastAckPos == Some(PositionOf(s.log[NextFrom(s') - 1]))
  {
    hide WorldInv, Apply, Play, FairPlay, ReadEnd, Refused, NextFrom, AllKnown, Lawful, Round, Sound, CoverInv,
      ServerInv, HistoryInv, SessionInv;
    k := RoundMoves(cfg, f, w);
    RoundKeepsWorld(cfg, f, w, k);
    var s, s' := w.sys, Play(cfg, w, Round(k)).sys;
    SettledServer(cfg, f, Play(cfg, w, Round(k)));
    NextReadFollows(s', NextFrom(s), s'.served[|s.served|].to);
  }

  lemma RoundKeepsWorld(cfg: Config, f: FilterPattern, w: World, k: nat)
    requires Lawful(cfg.prost) && Settled(cfg, f, w) && FairPlay(cfg, w, Round(k))
    ensures WorldInv(cfg, f, Play(cfg, w, Round(k)))
  {
    hide WorldInv, Play, FairPlay, Round, Lawful;
    PlayKeepsWorld(cfg, f, w, Round(k));
  }

  /** After a batch the next read starts at its end, and is not refused. */
  lemma NextReadFollows(s: System, from: nat, to: nat)
    requires StoreInv(s) && Dropped(s.log, s.capacity) <= from < |s.log|
    requires to == ReadEnd(s.log, from, CLIENT_FETCH_SIZE)
    requires s.conn.currentPos == Some(PositionOf(s.log[to - 1]))
    ensures NextFrom(s) == to && !Refused(s) && to - from >= Min(CLIENT_FETCH_SIZE, |s.log| - from)
  {
    hide ReadEnd, FirstAfter, BoundedFrom, Sorted, Watermark, BelowWatermark;
    ReadEndsAtBoundary(s.log, from, CLIENT_FETCH_SIZE);
    var cursor := PositionOf(s.log[to - 1]);
    assert PosKey(cursor) == EventKey(s.log[to - 1]);
    GapDetectionExact(s.log, s.capacity, cursor);
    BoundedRead(s.log, s.capacity, cursor, CLIENT_FETCH_SIZE);
  }

  /** Progress: from any settled state in which the client would not be refused, and with no event of
      unknown type in the log, the loop can always catch up, one batch a round, until it has forwarded
      everything it is owed up to the end of the log and the server holds its ack for all of it. */
  lemma {:induction false} CatchesUp(cfg: Config, f: FilterPattern, w: World) returns (moves: seq<Move>)
    requires Lawful(cfg.prost)
    requires Settled(cfg, f, w) && !Refused(w.sys) && NextFrom(w.sys) < |w.sys.log| && AllKnown(w.sys.log)
    ensures FairPlay(cfg, w, moves)
    ensures
      var w' := Play(cfg, w, moves);
      var log, served := w.sys.log, w'.sys.served;
      && w'.sys.log == log
      && w.sys.served <= served && |w.sys.served| < |served| && served[|w.sys.served|].from == NextFrom(w.sys)
      && served[|served| - 1].to == |log|
      && w'.sys.conn.lastAckPos == Some(PositionOf(log[|log| - 1]))
      && w'.forwarded == OnWireAll(cfg.prost, Owed(cfg, f, log, served))
    decreases |w.sys.log| - NextFrom(w.sys)
  {
    hide AllKnown, Refused, NextFrom, Lawful, OnWireAll, Owed, Play, FairPlay, Settled, Round;
    var k := RoundAdvances(cfg, f, w);
    var w1 := Play(cfg, w, Round(k));
    if NextFrom(w1.sys) < |w.sys.log| {
      var rest := CatchesUp(cfg, f, w1);
      moves := Round(k) + rest;
      PlayConcat(cfg, w, Round(k), rest);
    } else {
      moves := Round(k);
      SettledForwardedAll(cfg, f, w1);
    }
  }

  lemma SettledForwardedAll(cfg: Config, f: FilterPattern, w: World)
    requires Settled(cfg, f, w)
    ensures w.forwarded == OnWireAll(cfg.prost, Owed(cfg, f, w.sys.log, w.sys.served))
  {
    hide WorldInv, Sound, CoverInv, ServerInv, ClientInv, SessionInv, StoreInv, HistoryInv, Owed, OnWireAll;
    WorldParts(cfg, f, w);
    SettledServer(cfg, f, w);
    AllForwarded(cfg, f, w);
  }

  // -- Progress under every schedule ----------------------------------------

  /** The reads of a schedule that are answered with a batch. */
  ghost function Reads(cfg: Config, w: World, moves: seq<Move>): nat
    decreases |moves|
  {
    if moves == [] then 0
    else
      (if moves[0] == Server(Serve) && CanServe(w.sys) && Apply(cfg, w.sys, Serve).open then 1 else 0)
      + Reads(cfg, Next(cfg, w, moves[0]), moves[1..])
  }

  lemma ReadsOfMove(cfg: Config, f: FilterPattern, w: World, move: Move)
    requires WorldInv(cfg, f, w)
    ensures
      var read := move == Server(Serve) && CanServe(w.sys) && Apply(cfg, w.sys, Serve).open;
      |Next(cfg, w, move).sys.served| == |w.sys.served| + if read then 1 else 0
  {
    hide WorldInv, Sound, CoverInv, ServerInv, ClientInv, EntryBytesToEvent, Entries, Handle, GetOutcome, FitsAfter,
      BoundedFrom, BoundedTo, Watermark, Read, Window, SessionInv, CursorInv, HistoryInv, Answer, ReadEnd;
    WorldParts(cfg, f, w);
    SoundParts(cfg, w.sys);
    if move == Server(Serve) && CanServe(w.sys) {
      ServeStep(cfg, w.sys);
    }
  }

  lemma {:induction false} ReadsAreServed(cfg: Config, f: FilterPattern, w: World, moves: seq<Move>)
    requires Lawful(cfg.prost) && WorldInv(cfg, f, w) && FairPlay(cfg, w, moves)
    ensures |Play(cfg, w, moves).sys.served| == |w.sys.served| + Reads(cfg, w, moves)
    decreases |moves|
  {
    hide WorldInv, Next, Fair, Lawful, CanServe, Apply;
    if moves != [] {
      MoveKeepsWorld(cfg, f, w, moves[0]);
      ReadsOfMove(cfg, f, w, moves[0]);
      ReadsAreServed(cfg, f, Next(cfg, w, moves[0]), moves[1..]);
    }
  }

  /** Where the reads have got to: the end of the last batch, or the oldest entry retained. */
  function Tip(s: System): nat {
    if s.served != [] then s.served[|s.served| - 1].to else Dropped(s.log, s.capacity)
  }

  /** Every batch is at least one entry further on. */
  lemma {:induction false} EachBatchAdvances(log: seq<CanalEvent>, served: seq<Served>, f: FilterPattern, j: nat,
                                             k: nat)
    requires Contiguous(log, served, f) && j <= k < |served|
    ensures served[k].to >= served[j].from + (k - j + 1)
    decreases k - j
  {
    assert GroupEndsAt(log, served[k], f);
    if j < k {
      EachBatchAdvances(log, served, f, j, k - 1);
    }
  }

  /** Progress under every schedule: however polls, reads, puts, other clients and timeouts interleave,
      as soon as the reads that were answered number at least the entries that were ahead, counted up to
      the end the log has by then, the client has been served up to that end; and when it has dealt with
      all replies it has forwarded everything it is owed up to there. */
  lemma EnoughReadsReachEnd(cfg: Config, f: FilterPattern, w: World, moves: seq<Move>)
    requires Lawful(cfg.prost) && WorldInv(cfg, f, w) && SafePlay(cfg, w, moves)
    requires 0 < Reads(cfg, w, moves)
    requires Reads(cfg, w, moves) >= |Play(cfg, w, moves).sys.log| - Tip(w.sys)
    ensures
      var w' := Play(cfg, w, moves);
      && w'.sys.served != [] && w'.sys.served[0].from <= Tip(w'.sys) == |w'.sys.log|
      && (w'.taken == |w'.sys.out| ==>
            w'.forwarded == OnWireAll(cfg.prost, Select(cfg.re, f, w'.sys.log[w'.sys.served[0].from..])))
  {
    hide WorldInv, Next, Fair, Lawful, Play, FairPlay, SafePlay, Reads, OnWireAll, Select, ServerInv, Sound, CoverInv,
      ClientInv, Contiguous, FirstAfter, BeginsRight;
    var w' := Play(cfg, w, moves);
    SafePlayIsFair(cfg, f, w, moves);
    PlayKeepsWorld(cfg, f, w, moves);
    ReadsAreServed(cfg, f, w, moves);
    PlayExtends(cfg, w, moves);
    WorldParts(cfg, f, w');
    ServerIsContiguous(f, w'.sys);
    DeliveredSoFar(cfg, f, w');
    var served, n := w'.sys.served, |w.sys.served|;
    EachBatchAdvances(w'.sys.log, served, f, n, |served| - 1);
    StartsAtTip(cfg, f, w, moves);
    ServedInOrder(w'.sys.log, served, f, 0, |served| - 1);
    assert w'.sys.log[served[0].from..|w'.sys.log|] == w'.sys.log[served[0].from..];
  }

  lemma {:induction false} PlayExtends(cfg: Config, w: World, moves: seq<Move>)
    ensures w.sys.log <= Play(cfg, w, moves).sys.log && w.sys.served <= Play(cfg, w, moves).sys.served
    decreases |moves|
  {
    hide Next;
    if moves != [] {
      MoveExtends(cfg, w, moves[0]);
      PlayExtends(cfg, Next(cfg, w, moves[0]), moves[1..]);
    }
  }

  lemma MoveExtends(cfg: Config, w: World, move: Move)
    ensures w.sys.log <= Next(cfg, w, move).sys.log && w.sys.served <= Next(cfg, w, move).sys.served
  {
    hide Apply, Entries, EntryBytesToEvent;
    if move.Server? && ServerSide(move.step) {
      StepExtends(cfg, w.sys, move.step);
    } else if move.Accept? && w.toServer != [] {
      StepExtends(cfg, w.sys, Receive(w.toServer[0]));
    }
  }

  /** The first batch of a schedule starts no earlier than where the reads had got to. */
  lemma StartsAtTip(cfg: Config, f: FilterPattern, w: World, moves: seq<Move>)
    requires Lawful(cfg.prost) && WorldInv(cfg, f, w) && FairPlay(cfg, w, moves)
    requires |w.sys.served| < |Play(cfg, w, moves).sys.served|
    ensures Play(cfg, w, moves).sys.served[|w.sys.served|].from >= Tip(w.sys)
  {
    hide WorldInv, Next, Fair, Lawful, Play, FairPlay, ServerInv, Sound, CoverInv, ClientInv, FirstAfter;
    var w', n := Play(cfg, w, moves), |w.sys.served|;
    PlayExtends(cfg, w, moves);
    PlayKeepsWorld(cfg, f, w, moves);
    WorldParts(cfg, f, w');
    if n > 0 {
      ServerIsContiguous(f, w'.sys);
      hide GroupEndsAt;
      assert w'.sys.served[n].from == w'.sys.served[n - 1].to;
    } else {
      BeganAtCursor(cfg, f, w);
      PlayKeepsBegan(cfg, f, w, moves, CursorOf(w.sys.conn, w.sys.sessions), |w.sys.log|);
      SoundParts(cfg, w'.sys);
      FirstBegins(cfg, w'.sys);
      PlaySameCapacity(cfg, w, moves);
    }
  }

  lemma BeganAtCursor(cfg: Config, f: FilterPattern, w: World)
    requires WorldInv(cfg, f, w) && w.sys.served == []
    ensures BeganAfter(w.sys, CursorOf(w.sys.conn, w.sys.sessions), |w.sys.log|)
  {
    hide Sound, CoverInv, ClientInv, CursorOf;
  }

  lemma {:induction false} PlaySameCapacity(cfg: Config, w: World, moves: seq<Move>)
    ensures Play(cfg, w, moves).sys.capacity == w.sys.capacity
    decreases |moves|
  {
    hide Next;
    if moves != [] {
      MoveSameCapacity(cfg, w, moves[0]);
      PlaySameCapacity(cfg, Next(cfg, w, moves[0]), moves[1..]);
    }
  }

  lemma MoveSameCapacity(cfg: Config, w: World, move: Move)
    ensures Next(cfg, w, move).sys.capacity == w.sys.capacity
  {
    hide Entries, EntryBytesToEvent, Handle, GetOutcome, FitsAfter, BoundedFrom, BoundedTo, Watermark, Read, Window;
  }

  // -- How the loop ends and goes on ----------------------------------------

  /** `later` is what is left of `queue`: packets have been taken off its front and none added. */
  ghost predicate OnlyTakenFrom<T>(queue: seq<T>, later: seq<T>) {
    |later| <= |queue| && later == queue[|queue| - |later|..]
  }

  /** The client has nothing more to say: it has stopped, or faces a reply that is not a batch. */
  predicate AtEnd(w: World) {
    w.phase == Stopped || (w.phase == Awaiting && w.taken < |w.sys.out| && !w.sys.out[w.taken].Messages?)
  }

  lemma MoveStaysAtEnd(cfg: Config, w: World, move: Move)
    requires AtEnd(w)
    ensures
      var w' := Next(cfg, w, move);
      && AtEnd(w') && (w.phase == Stopped ==> w'.phase == Stopped)
      && (move == Take || move == Fail ==> w'.phase == Stopped)
      && w'.forwarded == w.forwarded && OnlyTakenFrom(w.toServer, w'.toServer)
  {
    hide Apply, EntryBytesToEvent;
    if move.Server? && ServerSide(move.step) {
      StepExtends(cfg, w.sys, move.step);
    } else if move.Accept? && w.toServer != [] {
      StepExtends(cfg, w.sys, Receive(w.toServer[0]));
    }
  }

  /** A reply that is not a batch ends the loop, under every schedule: from the moment the client faces it,
      whether or not it has taken it yet, it sends no Get and no ack and forwards nothing, and once it has
      taken it, it has stopped for good. */
  lemma {:induction false} RefusalIsFinal(cfg: Config, w: World, moves: seq<Move>)
    requires AtEnd(w)
    ensures
      var w' := Play(cfg, w, moves);
      && w'.phase != Idle && w'.forwarded == w.forwarded && OnlyTakenFrom(w.toServer, w'.toServer)
      && (Take in moves || Fail in moves || w.phase == Stopped ==> w'.phase == Stopped)
    decreases |moves|
  {
    hide Next;
    if moves != [] {
      var w1 := Next(cfg, w, moves[0]);
      MoveStaysAtEnd(cfg, w, moves[0]);
      RefusalIsFinal(cfg, w1, moves[1..]);
      var later := Play(cfg, w, moves).toServer;
      assert later == w1.toServer[|w1.toServer| - |later|..] == w.toServer[|w.toServer| - |later|..];
    }
  }

  /** So does a failure of the client, wherever it is in a batch: nothing more is acked or forwarded. */
  lemma FailureIsFinal(cfg: Config, w: World, moves: seq<Move>)
    ensures
      var w' := Play(cfg, w, [Fail] + moves);
      w'.phase == Stopped && w'.forwarded == w.forwarded && OnlyTakenFrom(w.toServer, w'.toServer)
  {
    hide Next;
    var w1 := Next(cfg, w, Fail);
    assert w1 == w.(phase := Stopped) by { FailStops(cfg, w); }
    assert ([Fail] + moves)[1..] == moves;
    RefusalIsFinal(cfg, w1, moves);
  }

  lemma FailStops(cfg: Config, w: World)
    ensures Next(cfg, w, Fail) == w.(phase := Stopped)
  {
  }

  /** A batch does not end it: when all of its entries have been forwarded, it is acked by its id, and the
      client is ready for the next poll, which asks for 100 events. */
  lemma BatchGoesOn(cfg: Config, w: World)
    requires w.phase == Awaiting && w.part == 0 && w.taken < |w.sys.out| && w.sys.out[w.taken].Messages?
    ensures
      var reply := w.sys.out[w.taken];
      Play(cfg, w, Forwards(|reply.entries|) + ([Take] + [Poll])) ==
        w.(taken := w.taken + 1, phase := Awaiting, forwarded := w.forwarded + Decoded(cfg.prost, reply.entries),
           toServer := w.toServer + [Ack(Some(reply.batchId))] + [Get(Some(100))])
    ensures
      var reply := w.sys.out[w.taken];
      Play(cfg, w, Forwards(|reply.entries|) + [Take]).phase == Idle
  {
    hide Next, Forwards, EntryBytesToEvent;
    var entries := w.sys.out[w.taken].entries;
    assert entries[0..] == entries;
    ForwardsFrom(cfg, w);
    var w1 := Play(cfg, w, Forwards(|entries|));
    PlayConcat(cfg, w, Forwards(|entries|), [Take] + [Poll]);
    PlayConcat(cfg, w, Forwards(|entries|), [Take]);
    PlayConcat(cfg, w1, [Take], [Poll]);
    PlayOne(cfg, w1, Take);
    TakenAndPolled(cfg, w1);
    PlayOne(cfg, Next(cfg, w1, Take), Poll);
  }

  lemma TakenAndPolled(cfg: Config, w: World)
    requires w.phase == Awaiting && w.taken < |w.sys.out| && w.sys.out[w.taken].Messages?
    requires w.part == |w.sys.out[w.taken].entries|
    ensures
      var w1 := Next(cfg, w, Take);
      && w1.phase == Idle
      && Next(cfg, w1, Poll) ==
         w.(taken := w.taken + 1, part := 0, phase := Awaiting,
            toServer := w.toServer + [Ack(Some(w.sys.out[w.taken].batchId))] + [Get(Some(100))])
  {
  }

  lemma PlayOne(cfg: Config, w: World, move: Move)
    ensures Play(cfg, w, [move]) == Next(cfg, w, move) && Play(cfg, w, []) == w
  {
    hide Next;
    assert [move][1..] == [];
  }

  /** Forwarding the rest of a batch, entry by entry. */
  lemma {:induction false} ForwardsFrom(cfg: Config, w: World)
    requires w.phase == Awaiting && w.part <= |Entries(w.sys.out, w.taken)|
    ensures
      var entries := Entries(w.sys.out, w.taken);
      Play(cfg, w, Forwards(|entries| - w.part)) ==
        w.(part := |entries|, forwarded := w.forwarded + Decoded(cfg.prost, entries[w.part..]))
    decreases |Entries(w.sys.out, w.taken)| - w.part
  {
    hide EntryBytesToEvent, Apply;
    var entries, k := Entries(w.sys.out, w.taken), |Entries(w.sys.out, w.taken)| - w.part;
    if k > 0 {
      var w1 := Next(cfg, w, Forward);
      assert Forwards(k)[0] == Forward && Forwards(k)[1..] == Forwards(k - 1);
      ForwardsFrom(cfg, w1);
      assert Decoded(cfg.prost, entries[w.part..]) ==
             [EntryBytesToEvent(cfg.prost, entries[w.part])] + Decoded(cfg.prost, entries[w.part + 1..]);
    }
  }
}
