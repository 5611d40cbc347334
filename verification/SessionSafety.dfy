/** What acks, rollbacks and reads mean for delivery, over every run of the session machine: nothing
    a cursor has passed was left unsent. */
module SessionSafety {
  import opened CanalTypes
  import opened JournalOrder
  import opened EventLog
  import opened Conversion
  import opened Session
  import opened SessionRuns

  // -- History of a connection ----------------------------------------------

  /** The reply that answers a served batch: the entries of the events that pass the filter. */
  function Answer(cfg: Config, log: seq<CanalEvent>, b: Served): Option<Reply> {
    if !(b.from <= b.to <= |log|) then None
    else
      var entries := EncodeEvents(cfg.prost, ToSend(cfg.re, b.filter, log[b.from..b.to]));
      if entries.None? then None else Some(Messages(b.batchId, entries.value))
  }

  predicate AllKnown(log: seq<CanalEvent>) {
    forall i | 0 <= i < |log| :: !log[i].entryType.Unknown?
  }

  lemma {:induction false} KnownEncodes(p: Prost, events: seq<CanalEvent>)
    requires AllKnown(events)
    ensures EncodeEvents(p, events).Some?
  {
    if events != [] {
      KnownEncodes(p, events[1..]);
    }
  }

  lemma KnownAnswers(cfg: Config, f: FilterPattern, log: seq<CanalEvent>, b: Served)
    requires AllKnown(log) && b.from <= b.to <= |log| && b.filter == Some(f)
    ensures Answer(cfg, log, b).Some?
  {
    hide EncodeEvents, Passes;
    var events := log[b.from..b.to];
    var kept := Select(cfg.re, f, events);
    forall i | 0 <= i < |kept| ensures !kept[i].entryType.Unknown? {
      SelectMembers(cfg.re, f, events, kept[i]);
    }
    KnownEncodes(cfg.prost, kept);
  }

  /** What a reply holds: the encodings, in order, of the events of the batch whose schema and table, joined
      by a dot, are matched by the client's pattern, if it compiles, and not by its black list, if it has
      one that compiles; of all of them if the client has no session. */
  lemma AnswerKeeps(cfg: Config, log: seq<CanalEvent>, b: Served)
    requires b.from <= b.to <= |log| && Answer(cfg, log, b).Some?
    ensures
      var reply := Answer(cfg, log, b).value;
      && reply.Messages? && reply.batchId == b.batchId
      && (b.filter.None? ==> Some(reply.entries) == EncodeEvents(cfg.prost, log[b.from..b.to]))
      && (b.filter.Some? ==>
            var re, f := cfg.re, b.filter.value;
            Some(reply.entries) ==
            EncodeEvents(cfg.prost,
              Keep((e: CanalEvent) =>
                     && (re.valid(f.pattern) ==> re.isMatch(f.pattern, e.schemaName + "." + e.tableName))
                     && !(f.blackList != "" && re.valid(f.blackList)
                          && re.isMatch(f.blackList, e.schemaName + "." + e.tableName)),
                   log[b.from..b.to])))
  {
    if b.filter.Some? {
      SelectKeeps(cfg.re, b.filter.value, log[b.from..b.to]);
    }
    hide EncodeEvents, Select, Passes;
  }

  function Answers(cfg: Config, log: seq<CanalEvent>, served: seq<Served>): seq<Option<Reply>> {
    seq(|served|, k requires 0 <= k < |served| => Answer(cfg, log, served[k]))
  }

  /** The replies that carry a batch; an empty answer has batch id 0. */
  function DataReplies(out: seq<Reply>): seq<Option<Reply>> {
    if out == [] then []
    else
      var last := out[|out| - 1];
      DataReplies(out[..|out| - 1]) + if last.Messages? && last.batchId != 0 then [Some(last)] else []
  }

  lemma {:induction false} DataRepliesConcat(a: seq<Reply>, b: seq<Reply>)
    ensures DataReplies(a + b) == DataReplies(a) + DataReplies(b)
  {
    if b == [] {
      assert a + b == a;
    } else {
      assert (a + b)[..|a + b| - 1] == a + b[..|b| - 1];
      DataRepliesConcat(a, b[..|b| - 1]);
    }
  }

  /** The store's order and its counter: id 0 goes to the first put, so no batch that is read has it. */
  ghost predicate StoreInv(s: System) {
    && s.capacity > 0
    && Sorted(s.log)
    && (s.log == [] <==> s.nextId == 0)
  }

  /** Batch ids grow along a connection, each batch was read where its cursor stood in the log of its
      time, the connection remembers the last batch and its end, and the batches sent are the answers to
      the batches served, in order and once each. */
  ghost predicate HistoryInv(cfg: Config, s: System) {
    && IdsGrow(s.served, s.nextId, |s.log|)
    && Recorded(s.log, s.capacity, s.served)
    && DataReplies(s.out) == Answers(cfg, s.log, s.served)
    && EmptyWithoutId(s.out)
    && (s.open ==> RemembersLast(s.conn, s.log, s.served))
  }

  predicate EmptyWithoutId(out: seq<Reply>) {
    forall m | 0 <= m < |out| && out[m].Messages? && out[m].batchId == 0 :: out[m].entries == []
  }

  ghost predicate IdsGrow(served: seq<Served>, nextId: nat, length: nat) {
    && (forall k | 0 <= k < |served| ::
          0 < served[k].batchId < nextId && served[k].from < served[k].to <= length)
    && (forall j, k | 0 <= j < k < |served| :: served[j].batchId < served[k].batchId)
  }

  ghost predicate Recorded(log: seq<CanalEvent>, capacity: nat, served: seq<Served>) {
    forall k | 0 <= k < |served| :: ReadAsRecorded(log, capacity, served[k])
  }

  /** The batch starts where a read of the log, as it was then, starts for its cursor. */
  predicate ReadAsRecorded(log: seq<CanalEvent>, capacity: nat, b: Served) {
    && b.to <= b.seen <= |log|
    && b.from == BoundedFrom(log[..b.seen], capacity, b.start)
  }

  predicate RemembersLast(conn: Conn, log: seq<CanalEvent>, served: seq<Served>) {
    if served == [] then conn.lastGetEndPos == None && conn.lastGetBatchId == 0
    else
      var b := served[|served| - 1];
      && 0 < b.to <= |log|
      && conn.lastGetBatchId == b.batchId && conn.lastGetEndPos == Some(PositionOf(log[b.to - 1]))
  }

  lemma AnswersStable(cfg: Config, log: seq<CanalEvent>, more: seq<CanalEvent>, served: seq<Served>)
    requires forall k | 0 <= k < |served| :: served[k].from < served[k].to <= |log|
    ensures Answers(cfg, log + more, served) == Answers(cfg, log, served)
  {
    hide EncodeEvents, ToSend;
    forall k | 0 <= k < |served|
      ensures Answer(cfg, log + more, served[k]) == Answer(cfg, log, served[k])
    {
      var b := served[k];
      assert (log + more)[b.from..b.to] == log[b.from..b.to];
    }
  }

  /** A frame that is handled at once sends no batch and leaves the last batch as it was, except that
      a new connection starts without one. */
  lemma HandledWithoutBatch(cfg: Config, conn: Conn, sessions: Sessions, watermark: Option<Key>, frame: Frame)
    ensures
      match Handle(cfg, conn, sessions, watermark, frame)
      case Done(o) =>
        && DataReplies(o.replies) == [] && (forall r | r in o.replies :: !r.Messages?)
        && o.conn.lastGetBatchId == conn.lastGetBatchId && o.conn.lastGetEndPos == conn.lastGetEndPos
      case Reading(conn', _, _) =>
        conn' == conn.(unknownPackets := 0)
  {
    hide Utf8Len, ValidFilter, BelowWatermark;
    match Handle(cfg, conn, sessions, watermark, frame) {
      case Done(o) =>
        assert o.replies == [] || (|o.replies| == 1 && !o.replies[0].Messages?);
        assert o.replies != [] ==> DataReplies(o.replies[..0]) == [];
      case Reading(_, _, _) =>
    }
  }

  /** What a read of the store answers and remembers, in terms of the log. */
  lemma ServeFacts(cfg: Config, s: System)
    requires StoreInv(s) && CanServe(s)
    ensures
      var b, o := ServedNow(s), ServeOutcome(cfg, s);
      && b.from < b.to <= |s.log| && 0 < b.batchId
      && b.to == ReadEnd(s.log, b.from, s.waiting.value.size)
      && o.open == Answer(cfg, s.log, b).Some?
      && (o.open ==> o.replies == [Answer(cfg, s.log, b).value])
      && (!o.open ==> o.replies == [])
      && o.sessions == s.sessions
      && o.conn == s.conn.(currentPos := Some(PositionOf(s.log[b.to - 1])), lastGetBatchId := b.batchId,
                           lastGetEndPos := Some(PositionOf(s.log[b.to - 1])))
  {
    hide EncodeEvents, ToSend, BoundedFrom, BoundedTo, Read, Window, Sorted, ReadEnd;
    var w := s.waiting.value;
    BoundedRead(s.log, s.capacity, w.start, w.size);
    var b := ServedNow(s);
    assert Read(Window(s.log, s.capacity), w.start, w.size) == s.log[b.from..b.to];
    assert s.log[b.from..b.to][b.to - b.from - 1] == s.log[b.to - 1];
  }

  lemma ServeApplied(cfg: Config, s: System)
    requires CanServe(s)
    ensures s.open && s.waiting.Some? && ServedNow(s).batchId == s.nextId
    ensures
      var o := ServeOutcome(cfg, s);
      Apply(cfg, s, Serve) ==
        After(s, o).(nextId := s.nextId + 1, served := if o.open then s.served + [ServedNow(s)] else s.served)
  {
    hide ServeOutcome, BoundedFrom, BoundedTo;
  }

  /** The state after a read, field by field. */
  lemma ServeStep(cfg: Config, s: System)
    requires StoreInv(s) && CanServe(s)
    ensures
      var s', b := Apply(cfg, s, Serve), ServedNow(s);
      var answer := Answer(cfg, s.log, b);
      && b.from < b.to <= |s.log| && b.batchId == s.nextId > 0
      && b.to == ReadEnd(s.log, b.from, s.waiting.value.size)
      && s' == s.(nextId := s.nextId + 1, waiting := None, open := answer.Some?,
                  conn := s.conn.(currentPos := Some(PositionOf(s.log[b.to - 1])), lastGetBatchId := b.batchId,
                                  lastGetEndPos := Some(PositionOf(s.log[b.to - 1]))),
                  out := if answer.Some? then s.out + [answer.value] else s.out,
                  served := if answer.Some? then s.served + [b] else s.served)
  {
    hide Apply, CanServe, ServedNow, ServeOutcome, Answer, ReadEnd, BoundedFrom, BoundedTo, StoreInv;
    ServeFacts(cfg, s);
    ServeApplied(cfg, s);
    assert s.out + [] == s.out;
  }

  lemma StepKeepsHistory(cfg: Config, s: System, step: Step)
    requires StoreInv(s) && HistoryInv(cfg, s)
    ensures StoreInv(Apply(cfg, s, step)) && HistoryInv(cfg, Apply(cfg, s, step))
  {
    hide Handle, GetOutcome, Answer, Answers, DataReplies, EmptyWithoutId, RemembersLast, Watermark, BoundedFrom,
      BoundedTo, Read, Window, FitsAfter, Sorted, Recorded;
    var s' := Apply(cfg, s, step);
    if step.Put? {
      if s' != s {
        RecordedLater(s.log, step.events, s.capacity, s.served);
        SortedAppend(s.log, step.events);
        AnswersStable(cfg, s.log, step.events, s.served);
        RemembersLater(s.conn, s.log, step.events, s.served);
      }
    } else if step.Receive? && s.open && s.waiting.None? {
      HandledWithoutBatch(cfg, s.conn, s.sessions, Watermark(s.log, s.capacity), step.frame);
      match Handle(cfg, s.conn, s.sessions, Watermark(s.log, s.capacity), step.frame) {
        case Done(o) =>
          NoBatchSent(s.out, o.replies);
          RemembersSame(s.conn, o.conn, s.log, s.served);
        case Reading(conn, _, _) =>
          RemembersSame(s.conn, conn, s.log, s.served);
      }
    } else if step.Serve? && CanServe(s) {
      ServeKeepsHistory(cfg, s);
    } else if step.TimeOut? && s.open && s.waiting.Some? {
      TimeOutAnswersNothing(cfg, s);
    } else if step.Connect? {
      NothingServedYet(cfg, s.log, s.capacity);
    }
  }

  lemma RecordedLater(log: seq<CanalEvent>, events: seq<CanalEvent>, capacity: nat, served: seq<Served>)
    requires Recorded(log, capacity, served)
    ensures Recorded(log + events, capacity, served)
  {
    hide BoundedFrom;
    forall k | 0 <= k < |served| ensures ReadAsRecorded(log + events, capacity, served[k]) {
      assert ReadAsRecorded(log, capacity, served[k]);
      assert (log + events)[..served[k].seen] == log[..served[k].seen];
    }
  }

  lemma RecordedWithMore(s: System)
    requires Recorded(s.log, s.capacity, s.served) && CanServe(s)
    ensures Recorded(s.log, s.capacity, s.served + [ServedNow(s)])
  {
    hide BoundedFrom, BoundedTo;
    assert s.log[..|s.log|] == s.log;
    assert ReadAsRecorded(s.log, s.capacity, ServedNow(s));
  }

  lemma RemembersLater(conn: Conn, log: seq<CanalEvent>, events: seq<CanalEvent>, served: seq<Served>)
    ensures RemembersLast(conn, log, served) ==> RemembersLast(conn, log + events, served)
  {
  }

  lemma RemembersSame(conn: Conn, conn': Conn, log: seq<CanalEvent>, served: seq<Served>)
    requires conn'.lastGetBatchId == conn.lastGetBatchId && conn'.lastGetEndPos == conn.lastGetEndPos
    ensures RemembersLast(conn', log, served) == RemembersLast(conn, log, served)
  {
  }

  lemma NoBatchSent(out: seq<Reply>, replies: seq<Reply>)
    requires DataReplies(replies) == [] && EmptyWithoutId(out) && forall r | r in replies :: !r.Messages?
    ensures DataReplies(out + replies) == DataReplies(out) && EmptyWithoutId(out + replies)
  {
    DataRepliesConcat(out, replies);
    assert forall m | |out| <= m < |out + replies| :: (out + replies)[m] in replies;
  }

  lemma NothingServedYet(cfg: Config, log: seq<CanalEvent>, capacity: nat)
    ensures DataReplies([]) == Answers(cfg, log, []) == [] && EmptyWithoutId([])
    ensures RemembersLast(NEW_CONN, log, []) && Recorded(log, capacity, [])
  {
  }

  lemma TimeOutAnswersNothing(cfg: Config, s: System)
    ensures GetOutcome(cfg, s.conn, s.sessions, None) == Outcome(s.conn, s.sessions, [Messages(0, [])], true)
    ensures DataReplies(s.out + [Messages(0, [])]) == DataReplies(s.out)
    ensures EmptyWithoutId(s.out) ==> EmptyWithoutId(s.out + [Messages(0, [])])
  {
    assert (s.out + [Messages(0, [])])[..|s.out|] == s.out;
  }

  lemma ServeKeepsHistory(cfg: Config, s: System)
    requires StoreInv(s) && HistoryInv(cfg, s) && CanServe(s)
    ensures HistoryInv(cfg, Apply(cfg, s, Serve))
  {
    hide Answer, Answers, DataReplies, ServedNow, CanServe, StoreInv, ReadEnd, IdsGrow, RemembersLast, Apply, Recorded;
    ServeStep(cfg, s);
    RecordedWithMore(s);
    var b := ServedNow(s);
    IdsLater(s.served, b, s.nextId, |s.log|);
    LastServed(s.conn, s.log, s.served, b);
    if Answer(cfg, s.log, b).Some? {
      SentReply(cfg, s, b);
    }
  }

  lemma IdsLater(served: seq<Served>, b: Served, nextId: nat, length: nat)
    requires IdsGrow(served, nextId, length)
    requires b.batchId == nextId > 0 && b.from < b.to <= length
    ensures IdsGrow(served, nextId + 1, length) && IdsGrow(served + [b], nextId + 1, length)
  {
  }

  lemma LastServed(conn: Conn, log: seq<CanalEvent>, served: seq<Served>, b: Served)
    requires b.from < b.to <= |log|
    ensures RemembersLast(conn.(currentPos := Some(PositionOf(log[b.to - 1])), lastGetBatchId := b.batchId,
                                lastGetEndPos := Some(PositionOf(log[b.to - 1]))), log, served + [b])
  {
  }

  lemma SentReply(cfg: Config, s: System, b: Served)
    requires Answer(cfg, s.log, b).Some? && b.batchId > 0
    requires DataReplies(s.out) == Answers(cfg, s.log, s.served)
    requires EmptyWithoutId(s.out)
    ensures DataReplies(s.out + [Answer(cfg, s.log, b).value]) == Answers(cfg, s.log, s.served + [b])
    ensures EmptyWithoutId(s.out + [Answer(cfg, s.log, b).value])
  {
    var reply := Answer(cfg, s.log, b).value;
    assert reply.Messages? && reply.batchId == b.batchId;
    hide Answer;
    assert (s.out + [reply])[..|s.out|] == s.out;
    assert Answers(cfg, s.log, s.served + [b]) == Answers(cfg, s.log, s.served) + [Answer(cfg, s.log, b)];
  }

  lemma {:induction false} RunKeepsHistory(cfg: Config, s: System, steps: seq<Step>)
    requires StoreInv(s) && HistoryInv(cfg, s)
    ensures StoreInv(Run(cfg, s, steps)) && HistoryInv(cfg, Run(cfg, s, steps))
    decreases |steps|
  {
    if steps != [] {
      StepKeepsHistory(cfg, s, steps[0]);
      hide StoreInv, HistoryInv, Apply;
      RunKeepsHistory(cfg, Apply(cfg, s, steps[0]), steps[1..]);
    }
  }

  /** Batch ids identify batches, in every reachable state: they are positive and grow, so no batch
      has the id 0 of an empty answer; and an ack changes something if and only if it names the batch
      that was sent last, whose end it then records. */
  lemma BatchIdsIdentify(cfg: Config, capacity: nat, steps: seq<Step>, batchId: int)
    requires capacity > 0
    ensures
      var s := Run(cfg, Start(capacity), steps);
      && (forall k | 0 <= k < |s.served| :: s.served[k].batchId > 0 && s.served[k].from < s.served[k].to <= |s.log|)
      && (forall j, k | 0 <= j < k < |s.served| :: s.served[j].batchId < s.served[k].batchId)
      && DataReplies(s.out) == Answers(cfg, s.log, s.served)
      && (s.open && s.conn.clientId.Some? ==>
            var o := AckOutcome(s.conn, s.sessions, batchId);
            if s.served != [] && batchId == s.served[|s.served| - 1].batchId then
              var end := PositionOf(s.log[s.served[|s.served| - 1].to - 1]);
              && o.conn == s.conn.(lastAckPos := Some(end))
              && (s.conn.clientId.value in s.sessions ==> AckOf(o.sessions, s.conn.clientId.value) == Some(end))
            else
              o == Outcome(s.conn, s.sessions, [], true))
  {
    hide Run, StoreInv, Answers, DataReplies, Recorded, EmptyWithoutId, RemembersLast;
    StartIsSound(cfg, capacity);
    SoundParts(cfg, Start(capacity));
    RunKeepsHistory(cfg, Start(capacity), steps);
    var s := Run(cfg, Start(capacity), steps);
    if s.open && s.conn.clientId.Some? {
      AckNamesLast(s.conn, s.sessions, s.log, s.served, batchId);
    }
  }

  lemma AckNamesLast(conn: Conn, sessions: Sessions, log: seq<CanalEvent>, served: seq<Served>, batchId: int)
    requires RemembersLast(conn, log, served) && conn.clientId.Some?
    ensures
      var o := AckOutcome(conn, sessions, batchId);
      if served != [] && batchId == served[|served| - 1].batchId then
        && 0 < served[|served| - 1].to <= |log|
        && var end := PositionOf(log[served[|served| - 1].to - 1]);
        && o.conn == conn.(lastAckPos := Some(end))
        && (conn.clientId.value in sessions ==> AckOf(o.sessions, conn.clientId.value) == Some(end))
      else
        o == Outcome(conn, sessions, [], true)
  {
  }

  // -- Cursors --------------------------------------------------------------

  /** Is the position the end of a batch that was served on the connection? */
  ghost predicate EndsBatch(log: seq<CanalEvent>, served: seq<Served>, p: LogPosition) {
    exists k :: 0 <= k < |served| && 0 < served[k].to <= |log| && p == PositionOf(log[served[k].to - 1])
  }

  /** In every run: a cursor of the connection is the end of a batch it was served; before the first
      batch it is the default start or a start time; the ack stored for the client is its own. */
  ghost predicate CursorInv(s: System) {
    && (s.open ==>
          && (s.conn.currentPos.Some? ==>
                if s.conn.currentPos.value.timestamp.Some? then s.served == []
                else EndsBatch(s.log, s.served, s.conn.currentPos.value))
          && (s.conn.lastGetEndPos.Some? ==> EndsBatch(s.log, s.served, s.conn.lastGetEndPos.value))
          && (s.conn.lastAckPos.Some? ==> EndsBatch(s.log, s.served, s.conn.lastAckPos.value))
          && (StoredAck(s.conn, s.sessions).Some? ==> StoredAck(s.conn, s.sessions) == s.conn.lastAckPos)
          && (s.waiting.Some? ==> s.waiting.value.start == CursorOf(s.conn, s.sessions))
          && (!s.conn.authenticated ==> s.served == []))
    && (s.served != [] ==> s.served[0].start == DEFAULT_START || s.served[0].start.timestamp.Some?)
  }

  lemma EndsLater(log: seq<CanalEvent>, events: seq<CanalEvent>, served: seq<Served>, more: seq<Served>, p: LogPosition)
    requires EndsBatch(log, served, p)
    ensures EndsBatch(log + events, served + more, p)
  {
    var k :| 0 <= k < |served| && 0 < served[k].to <= |log| && p == PositionOf(log[served[k].to - 1]);
    assert (served + more)[k] == served[k] && (log + events)[served[k].to - 1] == log[served[k].to - 1];
  }

  lemma EndOfNewBatch(log: seq<CanalEvent>, served: seq<Served>, b: Served)
    requires b.from < b.to <= |log|
    ensures EndsBatch(log, served + [b], PositionOf(log[b.to - 1]))
  {
    assert (served + [b])[|served|] == b;
  }

  /** A frame only moves cursors to where another cursor already is; a start time is taken only by a
      connection that has been served nothing. */
  lemma HandleMovesCursors(cfg: Config, conn: Conn, sessions: Sessions, watermark: Option<Key>, frame: Frame)
    requires ConnInv(conn, sessions) && Handle(cfg, conn, sessions, watermark, frame).Done?
    ensures
      var o := Handle(cfg, conn, sessions, watermark, frame).outcome;
      && o.conn.lastGetEndPos == conn.lastGetEndPos
      && (|| o.conn.currentPos == conn.currentPos
          || (frame == Rollback(true) && o.conn.currentPos == conn.lastAckPos)
          || (!conn.authenticated && o.conn.currentPos.Some? && o.conn.currentPos.value.timestamp.Some?))
      && (o.conn.lastAckPos == conn.lastAckPos
          || (frame.Ack? && o.conn.lastAckPos == conn.lastGetEndPos && conn.lastGetEndPos.Some?))
      && (|| StoredAck(o.conn, o.sessions) == None
          || StoredAck(o.conn, o.sessions) == o.conn.lastAckPos
          || (StoredAck(o.conn, o.sessions) == StoredAck(conn, sessions) && o.conn.lastAckPos == conn.lastAckPos))
      && (conn.authenticated ==> o.conn.authenticated)
  {
    hide Utf8Len, ValidFilter, BelowWatermark;
  }

  lemma ReadsFromCursor(cfg: Config, conn: Conn, sessions: Sessions, watermark: Option<Key>, frame: Frame)
    requires Handle(cfg, conn, sessions, watermark, frame).Reading?
    ensures Handle(cfg, conn, sessions, watermark, frame).start == CursorOf(conn, sessions)
  {
    hide AuthOutcome, SubOutcome, BelowWatermark;
  }

  lemma ReceiveKeepsCursors(cfg: Config, s: System, frame: Frame)
    requires SessionInv(s) && CursorInv(s)
    ensures CursorInv(Apply(cfg, s, Receive(frame)))
  {
    if s.open && s.waiting.None? {
      var w := Watermark(s.log, s.capacity);
      HandlePermitted(cfg, s.conn, s.sessions, w, frame);
      if Handle(cfg, s.conn, s.sessions, w, frame).Done? {
        HandleMovesCursors(cfg, s.conn, s.sessions, w, frame);
        hide CursorInv, Handle, Failures, Watermark, Permitted;
        OutcomeKeepsCursors(s, Handle(cfg, s.conn, s.sessions, w, frame).outcome);
      } else {
        ReadsFromCursor(cfg, s.conn, s.sessions, w, frame);
        hide EndsBatch, Handle, Failures, Watermark;
      }
    }
  }

  lemma OutcomeKeepsCursors(s: System, o: Outcome)
    requires SessionInv(s) && CursorInv(s) && s.open
    requires o.conn.lastGetEndPos == s.conn.lastGetEndPos
    requires || o.conn.currentPos == s.conn.currentPos
             || o.conn.currentPos == s.conn.lastAckPos
             || (!s.conn.authenticated && o.conn.currentPos.Some? && o.conn.currentPos.value.timestamp.Some?)
    requires o.conn.lastAckPos == s.conn.lastAckPos || o.conn.lastAckPos == s.conn.lastGetEndPos
    requires || StoredAck(o.conn, o.sessions) == None
             || StoredAck(o.conn, o.sessions) == o.conn.lastAckPos
             || (StoredAck(o.conn, o.sessions) == StoredAck(s.conn, s.sessions)
                 && o.conn.lastAckPos == s.conn.lastAckPos)
    requires s.conn.authenticated ==> o.conn.authenticated
    ensures CursorInv(After(s, o))
  {
    NothingServedNothingAcked(s);
    hide EndsBatch, StoredAck, Failures, ConnInv, CursorOf;
  }

  lemma NothingServedNothingAcked(s: System)
    requires CursorInv(s) && s.open
    ensures s.served == [] ==>
              s.conn.lastGetEndPos == s.conn.lastAckPos == None && StoredAck(s.conn, s.sessions) == None
    ensures forall p | EndsBatch(s.log, s.served, p) :: p.timestamp.None?
  {
  }

  lemma ServeKeepsCursors(cfg: Config, s: System)
    requires SessionInv(s) && StoreInv(s) && CursorInv(s) && CanServe(s)
    ensures CursorInv(Apply(cfg, s, Serve))
  {
    hide Answer, ReadEnd, Apply, SessionInv, StoreInv, CursorInv, CanServe, ServedNow;
    ServeStep(cfg, s);
    var s' := Apply(cfg, s, Serve);
    if s'.open {
      ServeApplied(cfg, s);
      ServedFrom(s);
      SessionHas(s);
      MoreServed(s, s', ServedNow(s));
    } else {
      StillStarted(s, s');
    }
  }

  lemma SessionHas(s: System)
    requires SessionInv(s) && s.open && s.waiting.Some?
    ensures s.conn.authenticated
  {
    hide Failures, ConnInv;
  }

  lemma StillStarted(s: System, s': System)
    requires CursorInv(s) && !s'.open && s'.served == s.served
    ensures CursorInv(s')
  {
    hide EndsBatch;
  }

  lemma MoreServed(s: System, s': System, b: Served)
    requires CursorInv(s) && s.open && s.waiting.Some? && s.conn.authenticated && b.from < b.to <= |s.log|
    requires b.start == s.waiting.value.start
    requires s'.log == s.log && s'.served == s.served + [b] && s'.sessions == s.sessions && s'.waiting.None?
    requires s'.conn == s.conn.(currentPos := Some(PositionOf(s.log[b.to - 1])), lastGetBatchId := b.batchId,
                                lastGetEndPos := Some(PositionOf(s.log[b.to - 1])))
    ensures CursorInv(s')
  {
    NothingServedNothingAcked(s);
    EndOfNewBatch(s.log, s.served, b);
    hide EndsBatch;
    if s.conn.lastAckPos.Some? {
      EndsLater(s.log, [], s.served, [b], s.conn.lastAckPos.value);
      assert s.log + [] == s.log;
    }
    assert StoredAck(s'.conn, s'.sessions) == StoredAck(s.conn, s.sessions);
    assert s.served != [] ==> s'.served[0] == s.served[0];
  }

  lemma StepKeepsCursors(cfg: Config, s: System, step: Step)
    requires SessionInv(s) && StoreInv(s) && CursorInv(s)
    ensures CursorInv(Apply(cfg, s, step))
  {
    hide Handle, ServeOutcome, EndsBatch, FitsAfter, Sorted, Failures, BoundedFrom;
    if step.Put? {
      forall p | EndsBatch(s.log, s.served, p) ensures EndsBatch(s.log + step.events, s.served, p) {
        EndsLater(s.log, step.events, s.served, [], p);
        assert s.served + [] == s.served;
      }
    } else if step.Receive? {
      ReceiveKeepsCursors(cfg, s, step.frame);
    } else if step.Serve? && CanServe(s) {
      ServeKeepsCursors(cfg, s);
    }
  }

  /** The invariants of every run, whatever the timing. */
  ghost predicate Sound(cfg: Config, s: System) {
    SessionInv(s) && StoreInv(s) && HistoryInv(cfg, s) && CursorInv(s)
  }

  lemma SoundParts(cfg: Config, s: System)
    requires Sound(cfg, s)
    ensures SessionInv(s) && StoreInv(s) && HistoryInv(cfg, s) && CursorInv(s)
  {
  }

  lemma StepKeepsSound(cfg: Config, s: System, step: Step)
    requires Sound(cfg, s)
    ensures Sound(cfg, Apply(cfg, s, step))
  {
    hide SessionInv, StoreInv, HistoryInv, CursorInv, Apply;
    StepKeepsSession(cfg, s, step);
    StepKeepsHistory(cfg, s, step);
    StepKeepsCursors(cfg, s, step);
  }

  lemma {:induction false} RunKeepsSound(cfg: Config, s: System, steps: seq<Step>)
    requires Sound(cfg, s)
    ensures Sound(cfg, Run(cfg, s, steps))
    decreases |steps|
  {
    hide Sound, Apply;
    if steps != [] {
      StepKeepsSound(cfg, s, steps[0]);
      RunKeepsSound(cfg, Apply(cfg, s, steps[0]), steps[1..]);
    }
  }

  lemma StartIsSound(cfg: Config, capacity: nat)
    requires capacity > 0
    ensures Sound(cfg, Start(capacity))
  {
    NothingServedYet(cfg, [], capacity);
  }

  // -- Where a connection starts --------------------------------------------

  /** The cursor that a connection has when it has just been authenticated. */
  function StartOf(auth: AuthBody): LogPosition {
    if auth.startTimestamp > 0 then LogPosition("", 0, Some(auth.startTimestamp), None, None) else DEFAULT_START
  }

  /** Nothing served yet and the cursor still at the start, or a first batch that was read from there. */
  ghost predicate StartedAt(s: System, start: LogPosition) {
    if s.served != [] then s.served[0].start == start
    else s.open ==> s.conn.authenticated && CursorOf(s.conn, s.sessions) == start
  }

  lemma StepKeepsStart(cfg: Config, s: System, step: Step, start: LogPosition)
    requires SessionInv(s) && StoreInv(s) && CursorInv(s) && StartedAt(s, start)
    requires step != Connect && (step == Receive(Rollback(true)) ==> start == DEFAULT_START || s.served != [])
    ensures StartedAt(Apply(cfg, s, step), start)
    ensures s.served != [] ==> Apply(cfg, s, step).served != []
  {
    hide Handle, ServeOutcome, EndsBatch, FitsAfter, Sorted, Failures, BoundedFrom, BoundedTo, Answer, ReadEnd;
    if step.Serve? && CanServe(s) {
      ServeStep(cfg, s);
    } else if step.Receive? && s.open && s.waiting.None? && s.served == [] {
      NothingServedNothingAcked(s);
      var w := Watermark(s.log, s.capacity);
      HandlePermitted(cfg, s.conn, s.sessions, w, step.frame);
      if Handle(cfg, s.conn, s.sessions, w, step.frame).Done? {
        HandleMovesCursors(cfg, s.conn, s.sessions, w, step.frame);
      }
    }
  }

  /** A connection starts where its authentication says: the first batch is read from the start time, or
      from the default position, and stays the first one until the next connection. Only a rollback
      before the first batch makes a difference, for a client with a start time: see
      `RollbackResetsStart`. */
  lemma {:induction false} ConnectionStart(cfg: Config, s: System, steps: seq<Step>, start: LogPosition)
    requires Sound(cfg, s) && StartedAt(s, start)
    requires Connect !in steps
    requires start == DEFAULT_START || s.served != [] || Receive(Rollback(true)) !in steps
    ensures StartedAt(Run(cfg, s, steps), start)
    decreases |steps|
  {
    if steps != [] {
      StepKeepsStart(cfg, s, steps[0], start);
      StepKeepsSound(cfg, s, steps[0]);
      hide Sound, StartedAt, Apply;
      ConnectionStart(cfg, Apply(cfg, s, steps[0]), steps[1..], start);
    }
  }

  /** A rollback before the first batch resets a start time: from then on the start is the default
      position, for `ConnectionStart` to carry on. */
  lemma RollbackResetsStart(cfg: Config, s: System)
    requires SessionInv(s) && CursorInv(s) && s.open && s.waiting.None? && s.conn.authenticated && s.served == []
    ensures StartedAt(Apply(cfg, s, Receive(Rollback(true))), DEFAULT_START)
  {
    hide Apply, EndsBatch;
    RollbackStep(cfg, s);
    NothingServedNothingAcked(s);
  }

  lemma AuthStartsAt(cfg: Config, s: System, auth: AuthBody)
    requires SessionInv(s) && s.open && !s.conn.authenticated && s.served == []
    requires Apply(cfg, s, Receive(Auth(Some(auth)))).open
    requires Apply(cfg, s, Receive(Auth(Some(auth)))).conn.authenticated
    ensures StartedAt(Apply(cfg, s, Receive(Auth(Some(auth)))), StartOf(auth))
  {
    hide Watermark, Utf8Len, ValidFilter, Failures;
  }

  /** The first entry that a batch covers, when the batch was read from `b.start`. For a positional
      start, it is the first entry behind the start, or the oldest retained at the time if that one had
      been dropped. For a start time, it is the first entry retained at the time that was executed
      then or later. */
  lemma BatchBegins(log: seq<CanalEvent>, capacity: nat, b: Served)
    requires Sorted(log) && ReadAsRecorded(log, capacity, b) && b.from < b.to
    ensures Dropped(log[..b.seen], capacity) <= b.from < |log|
    ensures b.start.timestamp.None? ==>
              && b.from == Max(FirstAfter(log, PosKey(b.start)), Dropped(log[..b.seen], capacity))
              && b.from <= Max(FirstAfter(log, PosKey(b.start)), Dropped(log, capacity))
    ensures b.start.timestamp.Some? ==>
              && log[b.from].executeTime >= b.start.timestamp.value
              && forall i | Dropped(log[..b.seen], capacity) <= i < b.from ::
                   log[i].executeTime < b.start.timestamp.value
  {
    hide FirstAfter, FirstSince, BoundedFrom, EventKey, PosKey;
    if b.start.timestamp.None? {
      BatchBeginsBehind(log, capacity, b);
    } else {
      BatchBeginsSince(log, capacity, b);
    }
  }

  lemma BatchBeginsBehind(log: seq<CanalEvent>, capacity: nat, b: Served)
    requires Sorted(log) && ReadAsRecorded(log, capacity, b) && b.from < b.to && b.start.timestamp.None?
    ensures Dropped(log[..b.seen], capacity) <= b.from < |log|
    ensures b.from == Max(FirstAfter(log, PosKey(b.start)), Dropped(log[..b.seen], capacity))
  {
    hide EventKey, PosKey, FirstAfter;
    PrefixSorted(log, b.seen);
    BoundedRead(log[..b.seen], capacity, b.start, 1);
    hide Sorted, BoundedFrom;
    FirstAfterOfPrefix(log, b.seen, PosKey(b.start), b.from);
  }

  lemma BatchBeginsSince(log: seq<CanalEvent>, capacity: nat, b: Served)
    requires ReadAsRecorded(log, capacity, b) && b.from < b.to && b.start.timestamp.Some?
    ensures Dropped(log[..b.seen], capacity) <= b.from < |log|
    ensures log[b.from].executeTime >= b.start.timestamp.value
    ensures forall i | Dropped(log[..b.seen], capacity) <= i < b.from :: log[i].executeTime < b.start.timestamp.value
  {
    var d, w := Dropped(log[..b.seen], capacity), Window(log[..b.seen], capacity);
    assert forall j | d <= j < b.seen :: w[j - d] == log[j];
    forall j | d <= j < b.from ensures log[j].executeTime < b.start.timestamp.value {
      assert w[j - d] == log[j];
    }
  }

  lemma PrefixSorted(log: seq<CanalEvent>, n: nat)
    requires Sorted(log) && n <= |log|
    ensures Sorted(log[..n])
  {
    hide AtMost, EventKey;
  }

  lemma FirstAfterOfPrefix(log: seq<CanalEvent>, n: nat, k: Key, i: nat)
    requires Sorted(log) && n <= |log| && FirstAfter(log[..n], k) <= i < n
    ensures FirstAfter(log, k) == FirstAfter(log[..n], k)
  {
    hide EventKey;
    var f := FirstAfter(log[..n], k);
    forall j | 0 <= j < f ensures AtMost(EventKey(log[j]), k) {
      assert log[..n][j] == log[j];
    }
    assert log[..n][f] == log[f];
    FirstAfterUnique(log, k, f);
  }

  /** A client without a start time starts in front of everything: the default position is offset 4 of
      the first binlog file, and no event ends there or before, so the first entry it is served is the
      oldest one retained. That holds if and only if the log does not begin at or before that offset. */
  lemma DefaultStartIsFirst(log: seq<CanalEvent>)
    ensures PosKey(DEFAULT_START) == Key(1, 4)
    ensures FirstAfter(log, PosKey(DEFAULT_START)) == 0 <==> log == [] || Before(Key(1, 4), EventKey(log[0]))
  {
    assert DEFAULT_START.journalName == "mysql-bin" + "." + Zeros(5) + Decimal(1);
    SuffixOfRotatedFile("mysql-bin", 5, 1);
    hide BinlogSuffix, EventKey;
  }

  // -- Coverage -------------------------------------------------------------

  /** Does some batch served on the connection contain the entry? */
  ghost predicate Hit(served: seq<Served>, i: nat) {
    exists k :: 0 <= k < |served| && served[k].from <= i < served[k].to
  }

  /** The furthest that the connection has been served. */
  function Front(served: seq<Served>): nat {
    if served == [] then 0 else Max(Front(served[..|served| - 1]), served[|served| - 1].to)
  }

  lemma FrontMore(served: seq<Served>, b: Served)
    ensures Front(served + [b]) == Max(Front(served), b.to)
  {
    assert (served + [b])[..|served|] == served;
  }

  lemma {:induction false} FrontIsFurthest(served: seq<Served>, k: nat)
    requires k < |served|
    ensures served[k].to <= Front(served)
  {
    if k < |served| - 1 {
      FrontIsFurthest(served[..|served| - 1], k);
    }
  }

  /** Nothing between the first entry served and the furthest was left out. */
  ghost predicate Gapless(served: seq<Served>) {
    served != [] ==> forall i | served[0].from <= i < Front(served) :: Hit(served, i)
  }

  /** Every batch ends at the end of a position group. */
  ghost predicate Boundaries(log: seq<CanalEvent>, served: seq<Served>) {
    forall k | 0 <= k < |served| ::
      served[k].from < served[k].to <= |log| && FirstAfter(log, EventKey(log[served[k].to - 1])) == served[k].to
  }

  /** Every entry from the first one served up to the cursor is in a batch that was served. */
  ghost predicate Reached(log: seq<CanalEvent>, served: seq<Served>, p: LogPosition) {
    && p.timestamp.None? && served != []
    && forall i | served[0].from <= i < FirstAfter(log, PosKey(p)) :: Hit(served, i)
  }

  ghost predicate CoverInv(s: System) {
    && CursorInv(s)
    && Gapless(s.served)
    && Boundaries(s.log, s.served)
  }

  /** A read that starts further on than anything served so far: what lies between is skipped. */
  predicate SkipsUnsent(s: System) {
    && CanServe(s)
    && s.served != []
    && Front(s.served) < BoundedFrom(s.log, s.capacity, s.waiting.value.start)
  }

  /** The conditions under which delivery is lossless. A put does not continue the position group at
      the tail, and a read does not start further on than what has been served. Rollbacks and acks may
      come at any time. */
  predicate Disciplined(s: System, step: Step) {
    match step
    case Put(events) => StrictlyAfter(s.log, events)
    case Serve => !SkipsUnsent(s)
    case _ => true
  }

  ghost predicate DisciplinedRun(cfg: Config, s: System, steps: seq<Step>)
    decreases |steps|
  {
    steps != [] ==> Disciplined(s, steps[0]) && DisciplinedRun(cfg, Apply(cfg, s, steps[0]), steps[1..])
  }

  lemma HitMore(served: seq<Served>, b: Served, i: nat)
    ensures Hit(served + [b], i) <==> Hit(served, i) || b.from <= i < b.to
  {
    var all := served + [b];
    if Hit(served, i) {
      var k :| 0 <= k < |served| && served[k].from <= i < served[k].to;
      assert all[k] == served[k];
    }
    if b.from <= i < b.to {
      assert all[|served|] == b;
    }
  }

  lemma NotHitBeyond(served: seq<Served>, i: nat)
    requires Front(served) <= i
    ensures !Hit(served, i)
  {
    forall k | 0 <= k < |served| ensures served[k].to <= i {
      FrontIsFurthest(served, k);
    }
  }

  /** One more batch leaves nothing out if and only if it starts no further on than the front. */
  lemma GaplessMoreIff(served: seq<Served>, b: Served)
    requires Gapless(served) && b.from < b.to && served != [] && served[0].from < served[0].to
    ensures Gapless(served + [b]) <==> b.from <= Front(served)
  {
    hide Hit, Front;
    FrontMore(served, b);
    FrontIsFurthest(served, 0);
    var all, front := served + [b], Front(served);
    assert all[0] == served[0];
    HitMore(served, b, front);
    NotHitBeyond(served, front);
    if b.from <= front {
      forall i | all[0].from <= i < Front(all) ensures Hit(all, i) {
        HitMore(served, b, i);
      }
    }
  }

  lemma GaplessFirst(b: Served)
    requires b.from < b.to
    ensures Gapless([] + [b]) && Gapless([])
  {
    FrontMore([], b);
    forall i | b.from <= i < b.to ensures Hit([] + [b], i) {
      HitMore([], b, i);
    }
  }

  lemma BoundariesAfterPut(log: seq<CanalEvent>, events: seq<CanalEvent>, served: seq<Served>)
    requires Sorted(log) && Boundaries(log, served) && StrictlyAfter(log, events)
    ensures Boundaries(log + events, served)
  {
    hide EventKey, FirstAfter, StrictlyAfter;
    forall k | 0 <= k < |served|
      ensures
        && served[k].from < served[k].to <= |log + events|
        && FirstAfter(log + events, EventKey((log + events)[served[k].to - 1])) == served[k].to
    {
      var last := log[served[k].to - 1];
      assert (log + events)[served[k].to - 1] == last;
      assert AtMost(EventKey(last), EventKey(log[|log| - 1]));
      CursorStable(log, events, EventKey(last));
    }
  }

  lemma BoundariesWithMore(log: seq<CanalEvent>, served: seq<Served>, b: Served)
    requires Boundaries(log, served)
    requires b.from < b.to <= |log| && FirstAfter(log, EventKey(log[b.to - 1])) == b.to
    ensures Boundaries(log, served + [b])
  {
    hide FirstAfter, EventKey;
  }

  /** A read keeps coverage, whatever cursor it is for, if and only if it does not skip. */
  lemma ServeKeepsCoverIff(cfg: Config, s: System)
    requires SessionInv(s) && StoreInv(s) && CoverInv(s) && CanServe(s)
    requires Apply(cfg, s, Serve).open
    ensures CoverInv(Apply(cfg, s, Serve)) <==> !SkipsUnsent(s)
  {
    hide Answer, ServedNow, BoundedFrom, ReadEnd, Apply, Failures, Sorted, CursorInv, Gapless, Front, FirstAfter;
    var b := ServedNow(s);
    ServeStep(cfg, s);
    ServeKeepsCursors(cfg, s);
    ServedFrom(s);
    ReadEndsAtBoundary(s.log, b.from, s.waiting.value.size);
    BoundariesWithMore(s.log, s.served, b);
    if s.served == [] {
      GaplessFirst(b);
    } else {
      GaplessMoreIff(s.served, b);
    }
  }

  lemma ServedFrom(s: System)
    requires CanServe(s)
    ensures ServedNow(s).from == BoundedFrom(s.log, s.capacity, s.waiting.value.start)
    ensures ServedNow(s).filter == FilterOf(s.sessions, s.conn.clientId)
    ensures ServedNow(s).start == s.waiting.value.start
  {
  }

  lemma ServeKeepsCover(cfg: Config, s: System)
    requires SessionInv(s) && StoreInv(s) && CoverInv(s) && CanServe(s) && !SkipsUnsent(s)
    ensures CoverInv(Apply(cfg, s, Serve))
  {
    hide Answer, ServedNow, ReadEnd, Apply, CursorInv, Gapless, Boundaries, SkipsUnsent, SessionInv, StoreInv, CanServe;
    ServeKeepsCursors(cfg, s);
    ServeStep(cfg, s);
    if Apply(cfg, s, Serve).open {
      ServeKeepsCoverIff(cfg, s);
    }
  }

  lemma StepKeepsCover(cfg: Config, s: System, step: Step)
    requires SessionInv(s) && StoreInv(s) && CoverInv(s) && Disciplined(s, step)
    ensures CoverInv(Apply(cfg, s, step))
  {
    hide Handle, ServeOutcome, BoundedFrom, BoundedTo, StrictlyAfter, FitsAfter, Sorted, Failures, CursorInv, Gapless,
      Boundaries, SkipsUnsent, GetOutcome;
    StepKeepsCursors(cfg, s, step);
    if step.Put? {
      BoundariesAfterPut(s.log, step.events, s.served);
    } else if step.Serve? && CanServe(s) {
      ServeKeepsCover(cfg, s);
    } else if step.Connect? {
      NothingCovered(s.log);
    }
  }

  lemma NothingCovered(log: seq<CanalEvent>)
    ensures Gapless([]) && Boundaries(log, [])
  {
  }

  lemma {:induction false} RunKeepsCover(cfg: Config, s: System, steps: seq<Step>)
    requires Sound(cfg, s) && CoverInv(s) && DisciplinedRun(cfg, s, steps)
    ensures Sound(cfg, Run(cfg, s, steps)) && CoverInv(Run(cfg, s, steps))
    decreases |steps|
  {
    if steps != [] {
      StepKeepsSound(cfg, s, steps[0]);
      StepKeepsCover(cfg, s, steps[0]);
      hide Sound, CoverInv, Apply, Disciplined;
      RunKeepsCover(cfg, Apply(cfg, s, steps[0]), steps[1..]);
    }
  }

  lemma ReachableCover(cfg: Config, capacity: nat, steps: seq<Step>)
    requires capacity > 0 && DisciplinedRun(cfg, Start(capacity), steps)
    ensures
      var s := Run(cfg, Start(capacity), steps);
      Sound(cfg, s) && SessionInv(s) && StoreInv(s) && HistoryInv(cfg, s) && CoverInv(s)
  {
    StartIsSound(cfg, capacity);
    NothingCovered([]);
    RunKeepsCover(cfg, Start(capacity), steps);
  }

  // -- What coverage means for the client -----------------------------------

  /** The entry was in a batch that was served, and if it passes that batch's filter, its encoding is
      in the reply that was sent for it. */
  ghost predicate Sent(cfg: Config, s: System, i: nat) {
    exists k ::
      && 0 <= k < |s.served| && s.served[k].from <= i < s.served[k].to <= |s.log|
      && var reply := Answer(cfg, s.log, s.served[k]);
         reply.Some? && reply.value.Messages? && reply.value in s.out
         && (s.log[i] in ToSend(cfg.re, s.served[k].filter, [s.log[i]]) ==>
               EventToEntry(cfg.prost, s.log[i]).Ok?
               && cfg.prost.encodeEntry(EventToEntry(cfg.prost, s.log[i]).value) in reply.value.entries)
  }

  lemma SentIsHit(cfg: Config, s: System, i: nat)
    requires Sent(cfg, s, i)
    ensures Hit(s.served, i)
  {
    hide Answer, ToSend, EventToEntry;
  }

  lemma {:induction false} DataRepliesInOut(out: seq<Reply>, r: Option<Reply>)
    requires r in DataReplies(out)
    ensures r.Some? && r.value.Messages? && r.value in out
  {
    var front := out[..|out| - 1];
    if r in DataReplies(front) {
      DataRepliesInOut(front, r);
    }
  }

  lemma {:induction false} EncodedMember(p: Prost, events: seq<CanalEvent>, e: CanalEvent)
    requires EncodeEvents(p, events).Some? && e in events
    ensures EventToEntry(p, e).Ok?
    ensures p.encodeEntry(EventToEntry(p, e).value) in EncodeEvents(p, events).value
  {
    hide EventToEntry;
    if e != events[0] {
      EncodedMember(p, events[1..], e);
    }
  }

  lemma SentMember(re: Regexes, filter: Option<FilterPattern>, events: seq<CanalEvent>, e: CanalEvent)
    requires e in events && e in ToSend(re, filter, [e])
    ensures e in ToSend(re, filter, events)
  {
    if filter.Some? {
      SelectMembers(re, filter.value, [e], e);
      SelectMembers(re, filter.value, events, e);
    }
  }

  lemma HitIsSent(cfg: Config, s: System, i: nat)
    requires HistoryInv(cfg, s) && Hit(s.served, i)
    ensures Sent(cfg, s, i)
  {
    hide Recorded, RemembersLast, EmptyWithoutId;
    var k :| 0 <= k < |s.served| && s.served[k].from <= i < s.served[k].to;
    var b := s.served[k];
    var reply := Answer(cfg, s.log, b);
    assert Answers(cfg, s.log, s.served)[k] == reply;
    DataRepliesInOut(s.out, reply);
    var e, events := s.log[i], s.log[b.from..b.to];
    assert events[i - b.from] == e;
    if e in ToSend(cfg.re, b.filter, [e]) {
      SentMember(cfg.re, b.filter, events, e);
      EncodedMember(cfg.prost, ToSend(cfg.re, b.filter, events), e);
    }
    hide EncodeEvents, ToSend, EventToEntry, DataReplies, Answers;
  }

  predicate IsCursor(s: System, p: LogPosition) {
    || s.conn.currentPos == Some(p)
    || s.conn.lastGetEndPos == Some(p)
    || s.conn.lastAckPos == Some(p)
    || StoredAck(s.conn, s.sessions) == Some(p)
  }

  lemma CursorEndsBatch(s: System, p: LogPosition)
    requires CursorInv(s) && s.open && IsCursor(s, p) && p.timestamp.None?
    ensures EndsBatch(s.log, s.served, p)
  {
    hide EndsBatch;
  }

  /** A cursor of a covered connection is at the end of a batch, no further than the front. */
  lemma CursorReached(s: System, p: LogPosition)
    requires CoverInv(s) && EndsBatch(s.log, s.served, p)
    ensures p.timestamp.None? && FirstAfter(s.log, PosKey(p)) <= Front(s.served)
    ensures Reached(s.log, s.served, p)
  {
    hide CursorInv, Hit, FirstAfter, BinlogSuffix;
    var k :| 0 <= k < |s.served| && 0 < s.served[k].to <= |s.log| && p == PositionOf(s.log[s.served[k].to - 1]);
    FrontIsFurthest(s.served, k);
  }

  /** Where a batch begins, read off the log: see `BatchBegins`. */
  ghost predicate BeginsRight(log: seq<CanalEvent>, capacity: nat, b: Served) {
    && b.seen <= |log| && Dropped(log[..b.seen], capacity) <= b.from < b.seen
    && (match b.start.timestamp
        case None =>
          b.from == Max(FirstAfter(log, PosKey(b.start)), Dropped(log[..b.seen], capacity))
        case Some(t) =>
          && log[b.from].executeTime >= t
          && forall i | Dropped(log[..b.seen], capacity) <= i < b.from :: log[i].executeTime < t)
  }

  lemma FirstBegins(cfg: Config, s: System)
    requires StoreInv(s) && HistoryInv(cfg, s)
    ensures s.served != [] ==> BeginsRight(s.log, s.capacity, s.served[0])
  {
    hide Sorted, DataReplies, Answers, EmptyWithoutId, RemembersLast, BoundedFrom, FirstAfter;
    if s.served != [] {
      var b := s.served[0];
      assert ReadAsRecorded(s.log, s.capacity, b);
      BatchBegins(s.log, s.capacity, b);
    }
  }

  /** The state after a Get, a rollback or an accepted ack. */
  lemma GetStep(cfg: Config, s: System, n: i32)
    requires SessionInv(s) && s.open && s.waiting.None? && s.conn.authenticated
    ensures
      var conn := s.conn.(unknownPackets := 0);
      var start := CursorOf(s.conn, s.sessions);
      Apply(cfg, s, Receive(Get(Some(n)))) ==
        if
          && HasOwnCursor(s.conn, s.sessions)
          && start.timestamp.None?
          && BelowWatermark(start, Watermark(s.log, s.capacity))
        then s.(conn := conn, out := s.out + [AckErr(BelowEvictionWatermark)])
        else s.(conn := conn, waiting := Some(Wait(start, FetchSize(n))))
  {
    hide Watermark, BelowWatermark, Failures;
  }

  lemma RollbackStep(cfg: Config, s: System)
    requires s.open && s.waiting.None? && s.conn.authenticated
    ensures Apply(cfg, s, Receive(Rollback(true))) ==
            s.(conn := s.conn.(unknownPackets := 0, currentPos := s.conn.lastAckPos))
  {
    hide Watermark;
    assert s.out + [] == s.out;
  }

  lemma AckAccepted(cfg: Config, s: System)
    requires s.open && s.waiting.None? && s.conn.authenticated && s.conn.clientId.Some?
    requires s.conn.lastGetEndPos.Some?
    ensures Apply(cfg, s, Receive(Ack(Some(s.conn.lastGetBatchId)))) ==
            s.(conn := s.conn.(unknownPackets := 0, lastAckPos := s.conn.lastGetEndPos),
               sessions := WithAck(s.sessions, s.conn.clientId.value, s.conn.lastGetEndPos.value))
  {
    hide Watermark;
    assert s.out + [] == s.out;
  }

  /** The state after a rollback and a Get. */
  lemma RollbackThenGet(cfg: Config, s: System, n: i32)
    requires SessionInv(s) && s.open && s.waiting.None? && s.conn.authenticated
    ensures
      var conn := s.conn.(unknownPackets := 0, currentPos := s.conn.lastAckPos);
      var start := CursorOf(conn, s.sessions);
      var s' := Apply(cfg, Apply(cfg, s, Receive(Rollback(true))), Receive(Get(Some(n))));
      if
        && HasOwnCursor(conn, s.sessions)
        && start.timestamp.None?
        && BelowWatermark(start, Watermark(s.log, s.capacity))
      then
        s' == s.(conn := conn, out := s.out + [AckErr(BelowEvictionWatermark)])
      else
        s' == s.(conn := conn, waiting := Some(Wait(start, FetchSize(n))))
  {
    hide Watermark, BelowWatermark, Failures, CursorOf, HasOwnCursor;
    RollbackStep(cfg, s);
    StepKeepsSession(cfg, s, Receive(Rollback(true)));
    hide Apply, SessionInv;
    GetStep(cfg, Apply(cfg, s, Receive(Rollback(true))), n);
  }

  /** A Get after a rollback resumes exactly behind the last ack, in every run: it is refused if and only
      if entries behind that ack have been dropped, and a read that follows at once, when there is
      something to read, starts with the first entry behind the ack. */
  lemma RollbackResumesAtAck(cfg: Config, capacity: nat, steps: seq<Step>, n: i32)
    requires capacity > 0
    ensures
      var s := Run(cfg, Start(capacity), steps);
      s.open && s.waiting.None? && s.conn.lastAckPos.Some? ==>
        var ack := s.conn.lastAckPos.value;
        var s' := Apply(cfg, Apply(cfg, s, Receive(Rollback(true))), Receive(Get(Some(n))));
        var behind := FirstAfter(s.log, PosKey(ack));
        if behind < Dropped(s.log, s.capacity) then
          s'.waiting == None && s'.out == s.out + [AckErr(BelowEvictionWatermark)]
        else
          && s'.waiting == Some(Wait(ack, FetchSize(n))) && s'.out == s.out
          && (CanServe(s') <==> behind < |s.log|)
          && (CanServe(s') ==> ServedNow(s').from == behind)
  {
    StartIsSound(cfg, capacity);
    RunKeepsSound(cfg, Start(capacity), steps);
    hide Run, HistoryInv, Apply;
    var s := Run(cfg, Start(capacity), steps);
    if s.open && s.waiting.None? && s.conn.lastAckPos.Some? {
      var ack := s.conn.lastAckPos.value;
      AckedIsAuthenticated(s);
      RollbackThenGet(cfg, s, n);
      GapDetectionExact(s.log, s.capacity, ack);
      BoundedRead(s.log, s.capacity, ack, FetchSize(n));
      hide SessionInv, StoreInv, CursorInv, Watermark, BelowWatermark, FirstAfter, BoundedFrom, BoundedTo;
    }
  }

  lemma AckedIsAuthenticated(s: System)
    requires CursorInv(s) && s.open && s.conn.lastAckPos.Some?
    ensures s.conn.authenticated && s.conn.lastAckPos.value.timestamp.None?
  {
  }

  // -- The stored ack -------------------------------------------------------

  /** In every run, the ack stored for a client is the one its own connection has accepted last, if any:
      none is inherited from an earlier connection. */
  lemma StoredAckIsOwn(cfg: Config, capacity: nat, steps: seq<Step>)
    requires capacity > 0
    ensures
      var s := Run(cfg, Start(capacity), steps);
      s.open && StoredAck(s.conn, s.sessions).Some? ==> StoredAck(s.conn, s.sessions) == s.conn.lastAckPos
  {
    StartIsSound(cfg, capacity);
    RunKeepsSound(cfg, Start(capacity), steps);
    hide Run, HistoryInv, SessionInv, StoreInv;
  }

  ghost predicate AckedRollbacks(cfg: Config, s: System, steps: seq<Step>)
    decreases |steps|
  {
    steps != [] ==>
      && (steps[0] == Receive(Rollback(true)) ==> s.conn.lastAckPos.Some?)
      && AckedRollbacks(cfg, Apply(cfg, s, steps[0]), steps[1..])
  }

  ghost predicate CursorOnceServed(s: System) {
    s.open && s.served != [] ==> s.conn.currentPos.Some?
  }

  lemma StepKeepsCursor(cfg: Config, s: System, step: Step)
    requires SessionInv(s) && StoreInv(s) && CursorOnceServed(s)
    requires step == Receive(Rollback(true)) ==> s.served == [] || s.conn.lastAckPos.Some?
    ensures CursorOnceServed(Apply(cfg, s, step))
  {
    hide Handle, ServeOutcome, FitsAfter, Sorted, Failures, BoundedFrom, BoundedTo, Answer, ReadEnd;
    if step.Serve? && CanServe(s) {
      ServeStep(cfg, s);
    } else if step.Receive? && s.open && s.waiting.None? {
      var w := Watermark(s.log, s.capacity);
      HandlePermitted(cfg, s.conn, s.sessions, w, step.frame);
      if Handle(cfg, s.conn, s.sessions, w, step.frame).Done? {
        HandleMovesCursors(cfg, s.conn, s.sessions, w, step.frame);
      }
    }
  }

  lemma {:induction false} RunKeepsCursor(cfg: Config, s: System, steps: seq<Step>)
    requires Sound(cfg, s) && CursorOnceServed(s) && AckedRollbacks(cfg, s, steps)
    ensures CursorOnceServed(Run(cfg, s, steps))
    decreases |steps|
  {
    if steps != [] {
      StepKeepsCursor(cfg, s, steps[0]);
      StepKeepsSound(cfg, s, steps[0]);
      hide Sound, CursorOnceServed, Apply;
      RunKeepsCursor(cfg, Apply(cfg, s, steps[0]), steps[1..]);
    }
  }

  /** It is never what a Get starts from as long as rollbacks follow accepted acks. */
  lemma StoredAckUnused(cfg: Config, capacity: nat, steps: seq<Step>)
    requires capacity > 0 && AckedRollbacks(cfg, Start(capacity), steps)
    ensures
      var s := Run(cfg, Start(capacity), steps);
      s.open && s.conn.currentPos.None? ==> StoredAck(s.conn, s.sessions).None?
  {
    StartIsSound(cfg, capacity);
    RunKeepsCursor(cfg, Start(capacity), steps);
    RunKeepsSound(cfg, Start(capacity), steps);
    hide AckedRollbacks, Run, HistoryInv, SessionInv, StoreInv;
  }

  /** Where a Get starts: at the connection's cursor, else at the stored ack, and only without either at the
      default position. A start time and the default position are never refused. */
  lemma GetStartsFrom(cfg: Config, s: System, n: i32)
    requires SessionInv(s) && s.open && s.waiting.None? && s.conn.authenticated
    ensures
      var s', watermark := Apply(cfg, s, Receive(Get(Some(n)))), Watermark(s.log, s.capacity);
      var own := if s.conn.currentPos.Some? then s.conn.currentPos else s.sessions[s.conn.clientId.value].lastAck;
      if own.None? then
        s'.out == s.out
        && s'.waiting == Some(Wait(LogPosition("mysql-bin.000001", 4, None, None, None), FetchSize(n)))
      else if own.value.timestamp.None? && watermark.Some? && Before(PosKey(own.value), watermark.value) then
        s'.out == s.out + [AckErr(BelowEvictionWatermark)] && s'.waiting == None
      else
        s'.out == s.out && s'.waiting == Some(Wait(own.value, FetchSize(n)))
  {
    GetStep(cfg, s, n);
    hide Apply, Watermark, Failures, BinlogSuffix, PosKey;
  }

  /** The one use of the stored ack: when a rollback came before the first accepted ack, the ack of the batch
      sent last is where the next Get starts, although the connection has no cursor. */
  lemma LateAckIsStart(cfg: Config, s: System, n: i32)
    requires SessionInv(s) && s.open && s.waiting.None? && s.conn.authenticated
    requires s.conn.lastAckPos.None? && s.conn.lastGetEndPos.Some?
    ensures
      var s1 := Apply(cfg, s, Receive(Rollback(true)));
      var s2 := Apply(cfg, s1, Receive(Ack(Some(s.conn.lastGetBatchId))));
      var s3 := Apply(cfg, s2, Receive(Get(Some(n))));
      var acked, watermark := s.conn.lastGetEndPos.value, Watermark(s.log, s.capacity);
      && s1.conn.currentPos == None && s3.conn.currentPos == None && s3.conn.lastAckPos == Some(acked)
      && if acked.timestamp.None? && watermark.Some? && Before(PosKey(acked), watermark.value) then
           s3.out == s.out + [AckErr(BelowEvictionWatermark)] && s3.waiting == None
         else
           s3.out == s.out && s3.waiting == Some(Wait(acked, FetchSize(n)))
  {
    var s1 := Apply(cfg, s, Receive(Rollback(true)));
    RollbackStep(cfg, s);
    AckAccepted(cfg, s1);
    var s2 := Apply(cfg, s1, Receive(Ack(Some(s.conn.lastGetBatchId))));
    GetStartsFrom(cfg, s2, n);
    GetStep(cfg, s2, n);
    hide Apply, Watermark, Failures, BinlogSuffix, PosKey, FetchSize;
  }

  /** Nor does it survive a reconnection: whatever was stored, a client that authenticates starts from
      its start time or from the default position, and no watermark makes the server refuse it. */
  lemma ReconnectForgetsAck(cfg: Config, capacity: nat, steps: seq<Step>, auth: AuthBody, n: i32)
    ensures
      var s := Run(cfg, Start(capacity), steps);
      var s1 := Apply(cfg, s, Receive(Auth(Some(auth))));
      s.open && !s.conn.authenticated && s1.open && s1.conn.authenticated ==>
        Apply(cfg, s1, Receive(Get(Some(n)))).waiting == Some(Wait(StartOf(auth), FetchSize(n)))
  {
    RunKeepsSession(cfg, Start(capacity), steps);
    hide Run, Apply, SessionInv, Watermark, BelowWatermark;
    var s := Run(cfg, Start(capacity), steps);
    var s1 := Apply(cfg, s, Receive(Auth(Some(auth))));
    if s.open && !s.conn.authenticated && s1.open && s1.conn.authenticated {
      AuthForgetsAck(cfg, s, auth);
      StepKeepsSession(cfg, s, Receive(Auth(Some(auth))));
      GetStep(cfg, s1, n);
    }
  }

  lemma AuthForgetsAck(cfg: Config, s: System, auth: AuthBody)
    requires SessionInv(s) && s.open && !s.conn.authenticated
    ensures
      var s1 := Apply(cfg, s, Receive(Auth(Some(auth))));
      s1.open && s1.conn.authenticated ==>
        && s1.waiting.None? && StoredAck(s1.conn, s1.sessions) == None
        && s1.conn.currentPos == if auth.startTimestamp > 0 then Some(StartOf(auth)) else None
  {
    hide Watermark, Utf8Len, ValidFilter, Failures;
  }

  // -- Exactly when coverage is lost ----------------------------------------

  /** The cursor of a client that has not gone back: it stands at the furthest entry served. */
  ghost predicate AtFront(s: System, p: LogPosition) {
    p.timestamp.None? && s.served != [] && FirstAfter(s.log, PosKey(p)) == Front(s.served)
  }

  /** A put under a caught-up reader: what it has reached stays covered if and only if the put does not
      continue the position group at the tail. */
  lemma PutKeepsCoverageIff(s: System, p: LogPosition, events: seq<CanalEvent>)
    requires StoreInv(s) && CoverInv(s) && AtFront(s, p) && s.log != []
    requires PosKey(p) == EventKey(s.log[|s.log| - 1])
    requires events != [] && FitsAfter(s.log, events)
    ensures Reached(s.log + events, s.served, p) <==> StrictlyAfter(s.log, events)
  {
    hide Hit, BinlogSuffix, CursorInv, Front;
    FirstAfterUnique(s.log, PosKey(p), |s.log|);
    CaughtUpReaderSeesPut(s.log, events);
    NotHitBeyond(s.served, |s.log|);
    FrontIsFurthest(s.served, 0);
  }

  /** A read keeps coverage if and only if it starts no further on than what has been served. Where it
      starts is known beforehand: behind its cursor, or at the oldest entry retained. */
  lemma ServeKeepsCoverageIff(cfg: Config, s: System)
    requires SessionInv(s) && StoreInv(s) && CoverInv(s) && CanServe(s) && s.served != []
    requires Apply(cfg, s, Serve).open
    ensures s.waiting.value.start.timestamp.None?
    ensures
      var start := s.waiting.value.start;
      CoverInv(Apply(cfg, s, Serve)) <==>
      Max(FirstAfter(s.log, PosKey(start)), Dropped(s.log, s.capacity)) <= Front(s.served)
  {
    hide Apply, CoverInv, FirstAfter, Sorted, EndsBatch, Front;
    WaitsPositionally(s);
    ServeKeepsCoverIff(cfg, s);
    BoundedRead(s.log, s.capacity, s.waiting.value.start, s.waiting.value.size);
  }

  lemma WaitsPositionally(s: System)
    requires CoverInv(s) && s.open && s.waiting.Some? && s.served != []
    ensures s.waiting.value.start.timestamp.None?
  {
    hide Gapless, Boundaries;
  }

  /** For the client's own cursor at the front this is the comparison with the watermark, if it were made
      at the time of the read: coverage is kept if and only if the watermark has not overtaken the cursor
      by then, whatever the check found when the Get came in. */
  lemma FrontReadKeepsCoverageIff(cfg: Config, s: System)
    requires SessionInv(s) && StoreInv(s) && CoverInv(s) && CanServe(s)
    requires s.conn.currentPos.Some? && AtFront(s, s.conn.currentPos.value)
    requires Apply(cfg, s, Serve).open
    ensures CoverInv(Apply(cfg, s, Serve)) <==>
            !BelowWatermark(s.conn.currentPos.value, Watermark(s.log, s.capacity))
  {
    hide Apply, FirstAfter, Sorted, EndsBatch, Front, Gapless, Boundaries;
    ServeKeepsCoverageIff(cfg, s);
    GapDetectionExact(s.log, s.capacity, s.conn.currentPos.value);
  }

  /** A read that skips leaves the entry at the front behind the new cursor, unsent. */
  lemma SkipMisses(cfg: Config, s: System)
    requires SessionInv(s) && StoreInv(s) && CoverInv(s) && SkipsUnsent(s) && Apply(cfg, s, Serve).open
    ensures
      var t, i := Apply(cfg, s, Serve), Front(s.served);
      && t.conn.currentPos.Some? && t.served != []
      && t.served[0].from <= i < FirstAfter(t.log, PosKey(t.conn.currentPos.value))
      && !Sent(cfg, t, i)
      && !Reached(t.log, t.served, t.conn.currentPos.value)
  {
    hide Answer, ServedNow, BoundedFrom, ReadEnd, Apply, FirstAfter, CursorInv, Gapless, SessionInv, StoreInv, Sent;
    ServeStep(cfg, s);
    ServedFrom(s);
    var b, i, t := ServedNow(s), Front(s.served), Apply(cfg, s, Serve);
    BatchEndsBoundary(s, b);
    hide SkipsUnsent, CoverInv;
    NotHitBeyond(s.served, i);
    HitMore(s.served, b, i);
    FrontIsFurthest(s.served, 0);
    assert t.served[0] == s.served[0] && !Hit(t.served, i);
    hide Hit, Front;
    PositionKey(s.log[b.to - 1]);
    if Sent(cfg, t, i) {
      SentIsHit(cfg, t, i);
    }
  }

  lemma BatchEndsBoundary(s: System, b: Served)
    requires StoreInv(s) && CoverInv(s) && s.served != []
    requires s.waiting.Some? && b.from < |s.log| && b.to == ReadEnd(s.log, b.from, s.waiting.value.size)
    ensures FirstAfter(s.log, EventKey(s.log[b.to - 1])) == b.to
    ensures s.served[0].from < s.served[0].to
  {
    hide ReadEnd, FirstAfter, CursorInv, Gapless;
    ReadEndsAtBoundary(s.log, b.from, s.waiting.value.size);
  }

  lemma PositionKey(e: CanalEvent)
    ensures PosKey(PositionOf(e)) == EventKey(e)
  {
  }

  /** A rollback before any ack makes the server forget the cursor, and the next Get starts from the
      default position and is not refused, even if without the rollback it would be. When it is read,
      nothing is skipped if and only if neither the default position nor the oldest entry retained lies
      beyond the client's old cursor. */
  lemma UnackedRollbackIff(cfg: Config, s: System, n: i32)
    requires SessionInv(s) && StoreInv(s) && CoverInv(s) && s.open && s.waiting.None? && s.conn.authenticated
    requires s.conn.lastAckPos.None?
    requires s.conn.currentPos.Some? && AtFront(s, s.conn.currentPos.value)
    ensures BelowWatermark(s.conn.currentPos.value, Watermark(s.log, s.capacity)) ==>
              Apply(cfg, s, Receive(Get(Some(n)))).out == s.out + [AckErr(BelowEvictionWatermark)]
    ensures
      var p := s.conn.currentPos.value;
      var s' := Apply(cfg, Apply(cfg, s, Receive(Rollback(true))), Receive(Get(Some(n))));
      && s'.waiting == Some(Wait(DEFAULT_START, FetchSize(n))) && s'.out == s.out
      && (CanServe(s') && Apply(cfg, s', Serve).open ==>
            var t := Apply(cfg, s', Serve);
            && t.conn.currentPos.Some?
            && (Reached(t.log, t.served, t.conn.currentPos.value) <==>
                Max(FirstAfter(s.log, PosKey(DEFAULT_START)), Dropped(s.log, s.capacity)) <=
                FirstAfter(s.log, PosKey(p))))
  {
    hide Apply, Watermark, BelowWatermark, FirstAfter, BoundedTo, BoundedFrom, SessionInv, StoreInv, CoverInv, Front,
      EventKey, PosKey;
    RollbackThenGet(cfg, s, n);
    GetStep(cfg, s, n);
    NothingStored(s);
    var s1 := Apply(cfg, s, Receive(Rollback(true)));
    var s' := Apply(cfg, s1, Receive(Get(Some(n))));
    RollbackStep(cfg, s);
    StepKeepsSession(cfg, s, Receive(Rollback(true)));
    StepKeepsSession(cfg, s1, Receive(Get(Some(n))));
    RollbackKeepsStore(cfg, s);
    GetKeepsCover(cfg, s1, n);
    if CanServe(s') && Apply(cfg, s', Serve).open {
      DefaultReadReachesIff(cfg, s');
    }
  }

  lemma RollbackKeepsStore(cfg: Config, s: System)
    requires SessionInv(s) && StoreInv(s) && CoverInv(s)
    ensures
      var s' := Apply(cfg, s, Receive(Rollback(true)));
      StoreInv(s') && CoverInv(s')
  {
    StepKeepsCover(cfg, s, Receive(Rollback(true)));
    hide Handle, CoverInv, Sorted;
  }

  lemma NothingStored(s: System)
    requires CoverInv(s) && s.open
    ensures s.conn.lastAckPos.None? ==> StoredAck(s.conn, s.sessions).None?
  {
    hide Gapless, Boundaries, EndsBatch;
  }

  lemma GetKeepsCover(cfg: Config, s: System, n: i32)
    requires SessionInv(s) && StoreInv(s) && CoverInv(s)
    ensures CoverInv(Apply(cfg, s, Receive(Get(Some(n))))) && StoreInv(Apply(cfg, s, Receive(Get(Some(n)))))
  {
    StepKeepsCover(cfg, s, Receive(Get(Some(n))));
    hide Handle, CoverInv, Sorted;
  }

  lemma DefaultReadReachesIff(cfg: Config, s: System)
    requires SessionInv(s) && StoreInv(s) && CoverInv(s) && CanServe(s) && s.served != []
    requires s.waiting.value.start == DEFAULT_START && Apply(cfg, s, Serve).open
    ensures
      var t := Apply(cfg, s, Serve);
      && t.conn.currentPos.Some?
      && (Reached(t.log, t.served, t.conn.currentPos.value) <==>
          Max(FirstAfter(s.log, PosKey(DEFAULT_START)), Dropped(s.log, s.capacity)) <= Front(s.served))
  {
    hide Apply, FirstAfter, Sorted, CursorInv, Gapless, Boundaries, Front, Answer, ReadEnd, BoundedTo, Hit, PosKey;
    BoundedRead(s.log, s.capacity, DEFAULT_START, s.waiting.value.size);
    ServeStep(cfg, s);
    if SkipsUnsent(s) {
      SkipMisses(cfg, s);
    } else {
      ServeKeepsCover(cfg, s);
      var t := Apply(cfg, s, Serve);
      EndOfNewBatch(s.log, s.served, ServedNow(s));
      CursorReached(t, t.conn.currentPos.value);
    }
  }

  // -- Acks that move back --------------------------------------------------

  /** An ack can move back. A client that rolls back, then acks the batch it was sent before the
      rollback, and then reads and acks again, ends with an earlier ack than it had if and only if the
      last entry within the size it asks for, counted from behind the older ack, comes before the end of
      the batch it acked first: coverage is kept, monotonicity is not. */
  lemma AckMovesBackIff(cfg: Config, s: System, n: i32)
    requires Sound(cfg, s) && s.open && s.waiting.None? && s.conn.lastAckPos.Some?
    ensures
      var s1 := Apply(cfg, s, Receive(Rollback(true)));
      var s2 := Apply(cfg, s1, Receive(Ack(Some(s1.conn.lastGetBatchId))));
      var s3 := Apply(cfg, s2, Receive(Get(Some(n))));
      var from := FirstAfter(s.log, PosKey(s.conn.lastAckPos.value));
      && s2.conn.lastAckPos == s.conn.lastGetEndPos && s2.conn.lastAckPos.Some?
      && (CanServe(s3) <==> Dropped(s.log, s.capacity) <= from < |s.log|)
      && (CanServe(s3) && Apply(cfg, s3, Serve).open ==>
            var s4 := Apply(cfg, s3, Serve);
            var s5 := Apply(cfg, s4, Receive(Ack(Some(s4.conn.lastGetBatchId))));
            && s5.conn.lastAckPos.Some?
            && var first, again := PosKey(s2.conn.lastAckPos.value), PosKey(s5.conn.lastAckPos.value);
               Before(again, first) <==>
               Before(EventKey(s.log[Min(from + FetchSize(n), |s.log|) - 1]), first))
  {
    hide Apply, Watermark, BelowWatermark, Failures, Answer, ServedNow, ReadEnd, FirstAfter, EventKey, PosKey,
      BoundedFrom, Sound, SessionInv, StoreInv, CursorInv, HistoryInv;
    var ack := s.conn.lastAckPos.value;
    SoundParts(cfg, s);
    SortedStore(s);
    hide Sorted;
    AckedIsAuthenticated(s);
    AckedWasServed(cfg, s);
    RollbackStep(cfg, s);
    var s1 := Apply(cfg, s, Receive(Rollback(true)));
    StepKeepsSession(cfg, s, Receive(Rollback(true)));
    AckAccepted(cfg, s1);
    var s2 := Apply(cfg, s1, Receive(Ack(Some(s1.conn.lastGetBatchId))));
    StepKeepsSession(cfg, s1, Receive(Ack(Some(s1.conn.lastGetBatchId))));
    GetStep(cfg, s2, n);
    var s3 := Apply(cfg, s2, Receive(Get(Some(n))));
    GapDetectionExact(s.log, s.capacity, ack);
    BoundedRead(s.log, s.capacity, ack, FetchSize(n));
    if CanServe(s3) && Apply(cfg, s3, Serve).open {
      SameStore(s, s3);
      ServeStep(cfg, s3);
      AckAccepted(cfg, Apply(cfg, s3, Serve));
      ServedFrom(s3);
      KeyAtReadEnd(s.log, ServedNow(s3).from, FetchSize(n));
      PositionKey(s.log[ServedNow(s3).to - 1]);
    }
  }

  lemma SameStore(s: System, s': System)
    requires StoreInv(s) && s'.log == s.log && s'.capacity == s.capacity && s'.nextId == s.nextId
    ensures StoreInv(s')
  {
    hide Sorted;
  }

  lemma AckedWasServed(cfg: Config, s: System)
    requires CursorInv(s) && HistoryInv(cfg, s) && s.open && s.conn.lastAckPos.Some?
    ensures s.served != [] && s.conn.lastGetEndPos.Some?
    ensures s.conn.clientId.Some? <== SessionInv(s)
  {
    hide IdsGrow, EmptyWithoutId, DataReplies, Answers, Recorded, Failures;
  }

  /** The key at the end of a batch is the key at the end of its base slice. */
  lemma KeyAtReadEnd(log: seq<CanalEvent>, from: nat, size: nat)
    requires from < |log|
    ensures EventKey(log[ReadEnd(log, from, size) - 1]) == EventKey(log[Min(from + Max(size, 1), |log|) - 1])
  {
    hide EventKey;
  }

  /** Without a rollback the read cursor stands at the last batch, no ack beyond it. */
  ghost predicate ForwardInv(s: System) {
    s.open ==>
      && (s.served != [] ==> s.conn.currentPos == s.conn.lastGetEndPos && s.conn.currentPos.Some?)
      && (s.conn.lastAckPos.Some? ==>
            && s.conn.lastGetEndPos.Some?
            && AtMost(PosKey(s.conn.lastAckPos.value), PosKey(s.conn.lastGetEndPos.value)))
  }

  ghost predicate AckNotEarlier(s: System, s': System) {
    s.open && s'.open && s.conn.lastAckPos.Some? ==>
      && s'.conn.lastAckPos.Some?
      && AtMost(PosKey(s.conn.lastAckPos.value), PosKey(s'.conn.lastAckPos.value))
  }

  lemma StepMovesForward(cfg: Config, s: System, step: Step)
    requires SessionInv(s) && StoreInv(s) && CursorInv(s) && ForwardInv(s)
    requires step != Receive(Rollback(true))
    ensures ForwardInv(Apply(cfg, s, step))
    ensures step != Connect ==> AckNotEarlier(s, Apply(cfg, s, step))
    ensures step != Connect && Apply(cfg, s, step).open ==> s.open
  {
    hide Handle, ServeOutcome, FitsAfter, Sorted, Failures, BoundedFrom, BoundedTo, Answer, ReadEnd, FirstAfter,
      PosKey, EndsBatch, GetOutcome;
    if step.Serve? && CanServe(s) {
      ServeStep(cfg, s);
      NothingServedNothingAcked(s);
      if s.served != [] {
        WaitsAtCursor(s);
        ReadGoesForward(s, s.conn.currentPos.value);
      }
    } else if step.Receive? && s.open && s.waiting.None? {
      var w := Watermark(s.log, s.capacity);
      HandlePermitted(cfg, s.conn, s.sessions, w, step.frame);
      if Handle(cfg, s.conn, s.sessions, w, step.frame).Done? {
        HandleMovesCursors(cfg, s.conn, s.sessions, w, step.frame);
        NothingServedNothingAcked(s);
        hide Watermark, Permitted;
      }
    } else if step.TimeOut? {
      TimeOutAnswersNothing(cfg, s);
    }
  }

  /** A batch ends behind the cursor it was read for. */
  lemma ReadGoesForward(s: System, p: LogPosition)
    requires StoreInv(s) && CanServe(s) && s.waiting.value.start == p && p.timestamp.None?
    ensures
      var b := ServedNow(s);
      b.from < b.to <= |s.log| && Before(PosKey(p), PosKey(PositionOf(s.log[b.to - 1])))
  {
    hide EventKey, PosKey, StoreInv, BoundedFrom, BoundedTo, ReadEnd;
    var b := ServedNow(s);
    SortedStore(s);
    BoundedRead(s.log, s.capacity, p, s.waiting.value.size);
    PositionKey(s.log[b.to - 1]);
    hide Sorted;
    BehindCursor(s.log, PosKey(p), b.to - 1);
  }

  lemma WaitsAtCursor(s: System)
    requires CursorInv(s) && s.open && s.waiting.Some? && s.served != [] && s.conn.currentPos.Some?
    ensures s.waiting.value.start == s.conn.currentPos.value && s.conn.currentPos.value.timestamp.None?
  {
    hide EndsBatch;
  }

  lemma SortedStore(s: System)
    requires StoreInv(s)
    ensures Sorted(s.log) && s.capacity > 0
  {
  }

  lemma BehindCursor(log: seq<CanalEvent>, k: Key, i: nat)
    requires Sorted(log) && FirstAfter(log, k) <= i < |log|
    ensures Before(k, EventKey(log[i]))
  {
    hide EventKey;
    var f := FirstAfter(log, k);
    assert f < i ==> AtMost(EventKey(log[f]), EventKey(log[i]));
  }

  lemma {:induction false} RunMovesForward(cfg: Config, s: System, steps: seq<Step>)
    requires Sound(cfg, s) && ForwardInv(s) && Receive(Rollback(true)) !in steps
    ensures ForwardInv(Run(cfg, s, steps)) && Sound(cfg, Run(cfg, s, steps))
    ensures Connect !in steps ==> AckNotEarlier(s, Run(cfg, s, steps)) && (Run(cfg, s, steps).open ==> s.open)
    decreases |steps|
  {
    hide PosKey;
    if steps != [] {
      StepMovesForward(cfg, s, steps[0]);
      StepKeepsSound(cfg, s, steps[0]);
      hide Sound, ForwardInv, Apply;
      RunMovesForward(cfg, Apply(cfg, s, steps[0]), steps[1..]);
    }
  }

  /** Only rollbacks let acks move back: in every run without one, an accepted ack is never before an
      earlier one of the same connection. */
  lemma AcksMoveForward(cfg: Config, capacity: nat, before: seq<Step>, after: seq<Step>)
    requires capacity > 0 && Receive(Rollback(true)) !in before + after && Connect !in after
    ensures AckNotEarlier(Run(cfg, Start(capacity), before), Run(cfg, Run(cfg, Start(capacity), before), after))
  {
    hide AckNotEarlier, Run, Sound;
    StartIsSound(cfg, capacity);
    assert forall step | step in before || step in after :: step in before + after;
    RunMovesForward(cfg, Start(capacity), before);
    RunMovesForward(cfg, Run(cfg, Start(capacity), before), after);
  }

  // -- The discipline in the server's own terms -----------------------------

  /** The comparison that `handle_get` makes with the watermark, made for the Get that waits: its own
      positional cursor is below. */
  predicate WaitsBelow(s: System, watermark: Option<Key>) {
    && s.open && s.waiting.Some?
    && HasOwnCursor(s.conn, s.sessions)
    && s.waiting.value.start.timestamp.None?
    && BelowWatermark(s.waiting.value.start, watermark)
  }

  /** The server's check still holds at the time of the read, and rollbacks follow accepted acks. */
  predicate Prudent(s: System, step: Step) {
    match step
    case Put(events) => StrictlyAfter(s.log, events)
    case Serve => !WaitsBelow(s, Watermark(s.log, s.capacity))
    case Receive(Rollback(decodes)) => decodes && s.served != [] ==> s.conn.lastAckPos.Some?
    case _ => true
  }

  /** The check and the read are as good as one step: no put overtakes the cursor of a Get that waits.
      Nothing is asked of the read itself. */
  predicate Atomic(s: System, step: Step) {
    match step
    case Put(events) => StrictlyAfter(s.log, events) && !WaitsBelow(s, Watermark(s.log + events, s.capacity))
    case Receive(Rollback(decodes)) => decodes && s.served != [] ==> s.conn.lastAckPos.Some?
    case _ => true
  }

  ghost predicate PrudentRun(cfg: Config, s: System, steps: seq<Step>)
    decreases |steps|
  {
    steps != [] ==> Prudent(s, steps[0]) && PrudentRun(cfg, Apply(cfg, s, steps[0]), steps[1..])
  }

  ghost predicate AtomicRun(cfg: Config, s: System, steps: seq<Step>)
    decreases |steps|
  {
    steps != [] ==> Atomic(s, steps[0]) && AtomicRun(cfg, Apply(cfg, s, steps[0]), steps[1..])
  }

  /** What the server's check leaves behind: no Get waits for a cursor that has lost entries. */
  predicate Checked(s: System) {
    !WaitsBelow(s, Watermark(s.log, s.capacity))
  }

  /** Safe in any of three senses: the watermark check and the read are one step; or the watermark has not
      overtaken the cursor at the read; or, rollbacks being free, no read starts beyond what was served. */
  ghost predicate SafeRun(cfg: Config, s: System, steps: seq<Step>) {
    (Checked(s) && AtomicRun(cfg, s, steps)) || PrudentRun(cfg, s, steps) || DisciplinedRun(cfg, s, steps)
  }

  /** The server lets a Get wait only if its cursor is not below the watermark. */
  lemma GetIsChecked(cfg: Config, conn: Conn, sessions: Sessions, watermark: Option<Key>, frame: Frame)
    requires Handle(cfg, conn, sessions, watermark, frame).Reading?
    ensures
      var h := Handle(cfg, conn, sessions, watermark, frame);
      HasOwnCursor(h.conn, sessions) && h.start.timestamp.None? ==> !BelowWatermark(h.start, watermark)
  {
    hide AuthOutcome, SubOutcome, BelowWatermark;
  }

  /** A Get that is read at once is read prudently. */
  lemma GetThenServeIsPrudent(cfg: Config, s: System, n: i32)
    requires s.open && s.waiting.None?
    ensures Prudent(Apply(cfg, s, Receive(Get(Some(n)))), Serve)
  {
    var mark := Watermark(s.log, s.capacity);
    if Handle(cfg, s.conn, s.sessions, mark, Get(Some(n))).Reading? {
      GetIsChecked(cfg, s.conn, s.sessions, mark, Get(Some(n)));
    }
    hide Handle, Watermark, BelowWatermark, HasOwnCursor;
  }

  lemma StepKeepsChecked(cfg: Config, s: System, step: Step)
    requires Checked(s) && Atomic(s, step)
    ensures Checked(Apply(cfg, s, step))
  {
    var mark := Watermark(s.log, s.capacity);
    if step.Receive? && Handle(cfg, s.conn, s.sessions, mark, step.frame).Reading? {
      GetIsChecked(cfg, s.conn, s.sessions, mark, step.frame);
    }
    hide Handle, ServeOutcome, GetOutcome, Watermark, BelowWatermark, FitsAfter, StrictlyAfter, BoundedFrom, BoundedTo;
    if step.OtherSessions? && s.open && LeavesOwnSession(s, step.sessions) {
      SameOwnCursor(s, step.sessions);
    }
  }

  lemma SameOwnCursor(s: System, sessions: Sessions)
    requires s.open && LeavesOwnSession(s, sessions)
    ensures HasOwnCursor(s.conn, sessions) == HasOwnCursor(s.conn, s.sessions)
  {
  }

  /** A read for a cursor that is not below the watermark skips nothing. */
  lemma PrudentIsDisciplined(cfg: Config, s: System, step: Step)
    requires StoreInv(s) && CoverInv(s) && CursorOnceServed(s) && Prudent(s, step)
    ensures Disciplined(s, step)
  {
    hide StoreInv, CursorInv, Gapless, Boundaries, EndsBatch, FirstAfter, Watermark, BelowWatermark, BoundedFrom, Front,
      StrictlyAfter;
    if step.Serve? && CanServe(s) && s.served != [] {
      var p := s.conn.currentPos.value;
      WaitsAtCursor(s);
      SortedStore(s);
      GapDetectionExact(s.log, s.capacity, p);
      BoundedRead(s.log, s.capacity, p, s.waiting.value.size);
      hide Sorted;
      CursorEndsBatch(s, p);
      CursorReached(s, p);
    }
  }

  lemma AtomicIsPrudent(s: System, step: Step)
    requires Checked(s) && Atomic(s, step)
    ensures Prudent(s, step)
  {
    hide WaitsBelow, StrictlyAfter, Watermark;
  }

  lemma {:induction false} AtomicRunIsPrudent(cfg: Config, s: System, steps: seq<Step>)
    requires Checked(s) && AtomicRun(cfg, s, steps)
    ensures PrudentRun(cfg, s, steps)
    decreases |steps|
  {
    if steps != [] {
      hide Checked, Atomic, Prudent, Apply;
      AtomicIsPrudent(s, steps[0]);
      StepKeepsChecked(cfg, s, steps[0]);
      AtomicRunIsPrudent(cfg, Apply(cfg, s, steps[0]), steps[1..]);
    }
  }

  lemma {:induction false} PrudentRunIsDisciplined(cfg: Config, s: System, steps: seq<Step>)
    requires Sound(cfg, s) && CoverInv(s) && CursorOnceServed(s) && PrudentRun(cfg, s, steps)
    ensures DisciplinedRun(cfg, s, steps)
    decreases |steps|
  {
    if steps != [] {
      SoundParts(cfg, s);
      hide Sound, CoverInv, CursorOnceServed, Disciplined, Apply, SessionInv, StoreInv, HistoryInv, CursorInv;
      PrudentIsDisciplined(cfg, s, steps[0]);
      StepKeepsCursor(cfg, s, steps[0]);
      StepKeepsSound(cfg, s, steps[0]);
      StepKeepsCover(cfg, s, steps[0]);
      PrudentRunIsDisciplined(cfg, Apply(cfg, s, steps[0]), steps[1..]);
    }
  }

  /** A connection that has been served nothing meets every condition. */
  lemma NothingServedIsCovered(cfg: Config, s: System)
    requires Sound(cfg, s) && s.served == []
    ensures CoverInv(s) && CursorOnceServed(s) && Checked(s)
  {
    SoundParts(cfg, s);
    NothingCovered(s.log);
    hide Sound, SessionInv, StoreInv, HistoryInv, Gapless, Boundaries, Watermark, BelowWatermark;
    if s.open {
      NothingServedNothingAcked(s);
    }
  }

  lemma SafeRunIsDisciplined(cfg: Config, s: System, steps: seq<Step>)
    requires Sound(cfg, s) && s.served == [] && SafeRun(cfg, s, steps)
    ensures DisciplinedRun(cfg, s, steps)
  {
    hide Sound, CoverInv, CursorOnceServed, Checked, AtomicRun, PrudentRun, DisciplinedRun;
    NothingServedIsCovered(cfg, s);
    if Checked(s) && AtomicRun(cfg, s, steps) {
      AtomicRunIsPrudent(cfg, s, steps);
    }
    if PrudentRun(cfg, s, steps) {
      PrudentRunIsDisciplined(cfg, s, steps);
    }
  }

  /** Ack and rollback safety, with puts, other clients, reconnections, acks and rollbacks interleaved: no
      cursor, neither the read cursor nor an ack, stands past an entry that was not sent. The run has to be
      safe only since the connection began; what came before, on any connection, does not matter. What
      counts as unsent begins where the connection began to read: at the first entry behind the default
      position or the oldest one then retained, or at the first one retained that was executed since the
      start time. */
  lemma AckRollbackSafety(cfg: Config, capacity: nat, before: seq<Step>, after: seq<Step>, p: LogPosition, i: nat)
    requires capacity > 0 && Run(cfg, Start(capacity), before).served == []
    requires SafeRun(cfg, Run(cfg, Start(capacity), before), after)
    ensures
      var s := Run(cfg, Run(cfg, Start(capacity), before), after);
      s.open && IsCursor(s, p) && p.timestamp.None? ==>
        && s.served != []
        && BeginsRight(s.log, s.capacity, s.served[0])
        && (s.served[0].start == DEFAULT_START || s.served[0].start.timestamp.Some?)
        && (s.served[0].from <= i < FirstAfter(s.log, PosKey(p)) ==> Sent(cfg, s, i))
  {
    hide SafeRun, DisciplinedRun, Run, Sound, CoverInv, Sent, FirstAfter, EndsBatch, BeginsRight, IsCursor;
    StartIsSound(cfg, capacity);
    RunKeepsSound(cfg, Start(capacity), before);
    var s0 := Run(cfg, Start(capacity), before);
    SafeRunIsDisciplined(cfg, s0, after);
    NothingServedIsCovered(cfg, s0);
    RunKeepsCover(cfg, s0, after);
    CoveredIsSent(cfg, Run(cfg, s0, after), p, i);
  }

  lemma CoveredIsSent(cfg: Config, s: System, p: LogPosition, i: nat)
    requires Sound(cfg, s) && CoverInv(s)
    ensures
      s.open && IsCursor(s, p) && p.timestamp.None? ==>
        && s.served != []
        && BeginsRight(s.log, s.capacity, s.served[0])
        && (s.served[0].start == DEFAULT_START || s.served[0].start.timestamp.Some?)
        && (s.served[0].from <= i < FirstAfter(s.log, PosKey(p)) ==> Sent(cfg, s, i))
  {
    SoundParts(cfg, s);
    hide Sound, SessionInv, Sent, FirstAfter, EndsBatch, BeginsRight, Hit, Boundaries, Gapless, IsCursor;
    if s.open && IsCursor(s, p) && p.timestamp.None? {
      CursorEndsBatch(s, p);
      CursorReached(s, p);
      FirstBegins(cfg, s);
      hide HistoryInv, StoreInv;
      if s.served[0].from <= i < FirstAfter(s.log, PosKey(p)) {
        HitIsSent(cfg, s, i);
      }
    }
  }
}
