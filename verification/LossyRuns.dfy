/** Runs from the start of the server, with concrete events, in which a client is never sent an entry
    that its cursor has passed: one for each way of leaving the discipline under which delivery is
    lossless. */
module LossyRuns {
  import opened CanalTypes
  import opened JournalOrder
  import opened EventLog
  import opened Conversion
  import opened Session
  import opened SessionRuns
  import opened SessionSafety

  /** The event at an offset of the n-th binlog file. */
  function Sample(n: u64, position: u64): CanalEvent {
    CanalEvent("mysql-bin" + "." + Zeros(5) + Decimal(n), position, 1, 1, Xid, "", "", None, None, None, [])
  }

  lemma SampleKey(n: u64, position: u64)
    ensures EventKey(Sample(n, position)) == Key(n, position)
    ensures !Sample(n, position).entryType.Unknown? && Sample(n, position).executeTime == 1
  {
    SuffixOfRotatedFile("mysql-bin", 5, n);
    hide BinlogSuffix, Zeros, Decimal;
  }

  /** A client with the default filter and, if positive, a start time. */
  function Client(startTimestamp: i64): AuthBody {
    AuthBody([], "client", "example", "", startTimestamp)
  }

  /** The cursor has passed entry `i`, which no batch of the connection contained. */
  ghost predicate Loses(cfg: Config, s: System, i: nat) {
    && s.open && s.conn.currentPos.Some? && s.served != []
    && s.served[0].from <= i < FirstAfter(s.log, PosKey(s.conn.currentPos.value))
    && !Sent(cfg, s, i)
  }

  /** The run up to the first put. */
  function Opening(startTimestamp: i64, events: seq<CanalEvent>): seq<Step> {
    [Connect, Receive(Auth(Some(Client(startTimestamp)))), Put(events)]
  }

  ghost predicate Ready(cfg: Config, s: System) {
    && Sound(cfg, s) && CoverInv(s)
    && s.open && s.waiting.None? && s.conn.authenticated
    && FilterOf(s.sessions, s.conn.clientId).Some?
    && AllKnown(s.log)
  }

  lemma Opened(cfg: Config, capacity: nat, startTimestamp: i64, events: seq<CanalEvent>)
    requires cfg.token.None? && capacity > 0 && events != [] && Sorted(events)
    requires AllKnown(events)
    ensures
      var s := Run(cfg, Start(capacity), Opening(startTimestamp, events));
      && Ready(cfg, s) && s.log == events && s.capacity == capacity && s.served == []
      && s.conn.lastAckPos == None
      && s.conn.currentPos == if startTimestamp > 0 then Some(StartOf(Client(startTimestamp))) else None
  {
    var s0 := Start(capacity);
    var s1 := Apply(cfg, s0, Connect);
    var s2 := Apply(cfg, s1, Receive(Auth(Some(Client(startTimestamp)))));
    var s3 := Apply(cfg, s2, Put(events));
    var steps := Opening(startTimestamp, events);
    AuthAccepted(cfg, s1, startTimestamp);
    FirstPut(cfg, s2, events);
    assert DisciplinedRun(cfg, s0, steps) && Run(cfg, s0, steps) == s3 by {
      hide Apply;
      assert steps[1..] == [steps[1], steps[2]] && steps[1..][1..] == [steps[2]] && [steps[2]][1..] == [];
      assert DisciplinedRun(cfg, s3, []) && Run(cfg, s3, []) == s3;
      assert DisciplinedRun(cfg, s2, [steps[2]]) && Run(cfg, s2, [steps[2]]) == s3;
      assert DisciplinedRun(cfg, s1, [steps[1], steps[2]]) && Run(cfg, s1, [steps[1], steps[2]]) == s3;
    }
    ReachableCover(cfg, capacity, steps);
    hide Apply, Run, DisciplinedRun, Sound, CoverInv;
  }

  lemma AuthAccepted(cfg: Config, s: System, startTimestamp: i64)
    requires cfg.token.None? && s.open && s.conn == NEW_CONN && s.waiting.None?
    ensures
      var s' := Apply(cfg, s, Receive(Auth(Some(Client(startTimestamp)))));
      && s'.open && s'.waiting.None? && s'.conn.authenticated && FilterOf(s'.sessions, s'.conn.clientId).Some?
      && s'.log == s.log && s'.capacity == s.capacity && s'.served == s.served && s'.conn.lastAckPos == None
      && s'.conn.currentPos == if startTimestamp > 0 then Some(StartOf(Client(startTimestamp))) else None
  {
    hide Watermark, Utf8Len, ValidFilter;
  }

  lemma FirstPut(cfg: Config, s: System, events: seq<CanalEvent>)
    requires s.log == [] && events != [] && Sorted(events)
    ensures Apply(cfg, s, Put(events)) == s.(log := events, nextId := s.nextId + 1) && StrictlyAfter(s.log, events)
  {
    hide Sorted;
    assert [] + events == events;
  }

  lemma NextPut(cfg: Config, s: System, events: seq<CanalEvent>)
    requires Sound(cfg, s) && CoverInv(s) && events != [] && FitsAfter(s.log, events)
    ensures Apply(cfg, s, Put(events)) == s.(log := s.log + events, nextId := s.nextId + 1)
    ensures Sound(cfg, Apply(cfg, s, Put(events)))
    ensures StrictlyAfter(s.log, events) ==> CoverInv(Apply(cfg, s, Put(events)))
  {
    hide Sorted, SessionInv, HistoryInv, FitsAfter, CoverInv, StrictlyAfter;
    StepKeepsSound(cfg, s, Put(events));
    if StrictlyAfter(s.log, events) {
      StepKeepsCover(cfg, s, Put(events));
    }
  }

  /** A Get that is answered at once, with the entries of the log from `i` on. */
  lemma Answered(cfg: Config, s: System, n: i32, i: nat)
    requires Ready(cfg, s) && i == BoundedFrom(s.log, s.capacity, CursorOf(s.conn, s.sessions)) < |s.log|
    requires HasOwnCursor(s.conn, s.sessions) && CursorOf(s.conn, s.sessions).timestamp.None? ==>
               !BelowWatermark(CursorOf(s.conn, s.sessions), Watermark(s.log, s.capacity))
    requires s.served != [] ==> i <= Front(s.served)
    ensures
      var s2 := Apply(cfg, Apply(cfg, s, Receive(Get(Some(n)))), Serve);
      && Ready(cfg, s2) && s2.log == s.log && s2.capacity == s.capacity && s2.conn.lastAckPos == s.conn.lastAckPos
      && |s2.served| == |s.served| + 1 && s2.served[..|s.served|] == s.served
      && var b := s2.served[|s.served|];
         b.from == i < b.to <= |s.log| && b.to == ReadEnd(s.log, i, FetchSize(n))
         && s2.conn.currentPos == Some(PositionOf(s.log[b.to - 1]))
  {
    hide Ready, Sound, CoverInv, Apply, BelowWatermark, Watermark, BoundedFrom, BoundedTo, Answer, ReadEnd, Front,
      FilterOf, CursorOf, HasOwnCursor, AllKnown, SessionInv, StoreInv, HistoryInv, CursorInv;
    var s1 := Apply(cfg, s, Receive(Get(Some(n))));
    ReadyParts(cfg, s);
    GetStep(cfg, s, n);
    StepKeepsSound(cfg, s, Receive(Get(Some(n))));
    StepKeepsCover(cfg, s, Receive(Get(Some(n))));
    SoundParts(cfg, s1);
    ServeStep(cfg, s1);
    StepKeepsSound(cfg, s1, Serve);
    StepKeepsCover(cfg, s1, Serve);
    ServedFrom(s1);
    var b := ServedNow(s1);
    SameFilter(s, s1);
    KnownAnswers(cfg, b.filter.value, s.log, b);
    var s2 := Apply(cfg, s1, Serve);
    SameFilter(s1, s2);
    NowReady(cfg, s2);
  }

  lemma NowReady(cfg: Config, s: System)
    requires Sound(cfg, s) && CoverInv(s) && s.open && s.waiting.None? && s.conn.authenticated && AllKnown(s.log)
    requires FilterOf(s.sessions, s.conn.clientId).Some?
    ensures Ready(cfg, s)
  {
    hide Sound, CoverInv, FilterOf, AllKnown;
  }

  lemma ReadyParts(cfg: Config, s: System)
    requires Ready(cfg, s)
    ensures Sound(cfg, s) && SessionInv(s) && StoreInv(s) && HistoryInv(cfg, s) && CursorInv(s) && CoverInv(s)
    ensures s.open && s.waiting.None? && s.conn.authenticated && AllKnown(s.log)
    ensures FilterOf(s.sessions, s.conn.clientId).Some?
  {
    hide CoverInv, SessionInv, StoreInv, HistoryInv, CursorInv;
  }

  /** A read that skips loses the entry at the front. */
  lemma SkipLoses(cfg: Config, s: System)
    requires Sound(cfg, s) && CoverInv(s) && SkipsUnsent(s) && AllKnown(s.log)
    requires FilterOf(s.sessions, s.conn.clientId).Some?
    ensures Loses(cfg, Apply(cfg, s, Serve), Front(s.served))
    ensures Apply(cfg, s, Serve).log == s.log && Apply(cfg, s, Serve).capacity == s.capacity
  {
    hide Sound, CoverInv, Apply, BoundedFrom, BoundedTo, Answer, ReadEnd, Front, FilterOf, FirstAfter, Sent, AllKnown;
    SoundParts(cfg, s);
    ServeStep(cfg, s);
    ServedFrom(s);
    var b := ServedNow(s);
    KnownAnswers(cfg, b.filter.value, s.log, b);
    SkipMisses(cfg, s);
  }

  /** Where a read of a short log starts. */
  lemma StartsBehind(log: seq<CanalEvent>, capacity: nat, start: LogPosition, i: nat)
    requires Sorted(log) && i < |log| && start.timestamp.None?
    requires forall j | 0 <= j < i :: AtMost(EventKey(log[j]), PosKey(start))
    requires Before(PosKey(start), EventKey(log[i]))
    ensures FirstAfter(log, PosKey(start)) == i
    ensures BoundedFrom(log, capacity, start) == Max(i, Dropped(log, capacity))
  {
    hide EventKey, PosKey;
    FirstAfterUnique(log, PosKey(start), i);
    BoundedRead(log, capacity, start, 1);
  }

  const FIRST := Sample(1, 100)
  const SECOND := Sample(1, 200)
  const THIRD := Sample(1, 300)

  lemma Keys()
    ensures EventKey(FIRST) == Key(1, 100) && EventKey(SECOND) == Key(1, 200) && EventKey(THIRD) == Key(1, 300)
    ensures PosKey(DEFAULT_START) == Key(1, 4)
    ensures AllKnown([FIRST]) && AllKnown([FIRST, FIRST]) && AllKnown([FIRST, SECOND, THIRD])
    ensures Sorted([FIRST]) && Sorted([FIRST, SECOND, THIRD])
    ensures FitsAfter([FIRST], [FIRST]) && FitsAfter([FIRST], [SECOND, THIRD])
    ensures StrictlyAfter([FIRST], [SECOND, THIRD]) && !StrictlyAfter([FIRST], [FIRST])
  {
    SampleKey(1, 100);
    SampleKey(1, 200);
    SampleKey(1, 300);
    DefaultStartIsFirst([]);
    hide EventKey, PosKey, Sample;
  }

  /** The client reads the only event there is. */
  lemma FirstRead(cfg: Config, capacity: nat)
    requires cfg.token.None? && capacity > 0
    ensures
      var s := Run(cfg, Start(capacity), Opening(0, [FIRST]) + [Receive(Get(Some(1))), Serve]);
      && Ready(cfg, s) && s.log == [FIRST] && s.capacity == capacity && s.conn.lastAckPos == None
      && |s.served| == 1 && s.served[0].from == 0 && s.served[0].to == 1
      && s.conn.currentPos == Some(PositionOf(FIRST))
  {
    hide Run, Apply, Ready, FirstAfter, Sorted, EventKey, PosKey, BoundedFrom, ReadEnd, Watermark;
    Keys();
    Opened(cfg, capacity, 0, [FIRST]);
    var s0 := Run(cfg, Start(capacity), Opening(0, [FIRST]));
    RunConcat(cfg, Start(capacity), Opening(0, [FIRST]), [Receive(Get(Some(1))), Serve]);
    RunTwo(cfg, s0, Receive(Get(Some(1))), Serve);
    FreshCursor(cfg, s0);
    StartsBehind([FIRST], capacity, DEFAULT_START, 0);
    Answered(cfg, s0, 1, 0);
  }

  lemma FreshCursor(cfg: Config, s: System)
    requires Ready(cfg, s) && s.conn.lastAckPos == None
    ensures StoredAck(s.conn, s.sessions) == None
    ensures s.conn.currentPos.None? ==>
              !HasOwnCursor(s.conn, s.sessions) && CursorOf(s.conn, s.sessions) == DEFAULT_START
  {
    ReadyParts(cfg, s);
    hide Ready, EndsBatch;
  }

  lemma RunTwo(cfg: Config, s: System, a: Step, b: Step)
    ensures Run(cfg, s, [a, b]) == Apply(cfg, Apply(cfg, s, a), b)
  {
    hide Apply;
    assert [a, b] == [a] + [b];
    RunConcat(cfg, s, [a], [b]);
    RunOne(cfg, s, a);
    RunOne(cfg, Apply(cfg, s, a), b);
  }

  lemma OnlyFirstHit(served: seq<Served>)
    requires |served| == 1 && served[0].from == 0 && served[0].to == 1
    ensures Front(served) == 1 && !Hit(served, 1)
  {
    assert served == [] + [served[0]];
    FrontMore([], served[0]);
  }

  /** A put that continues the position group at the tail, under a client that has read the first part:
      the second part is lost. */
  lemma PutLosesEntry(cfg: Config, capacity: nat)
    requires cfg.token.None? && capacity > 0
    ensures
      Loses(cfg, Run(cfg, Start(capacity),
        Opening(0, [FIRST]) + [Receive(Get(Some(1))), Serve] + [Put([FIRST])]), 1)
  {
    hide Run, Apply, Sorted, EventKey, PosKey, Sent, CoverInv, Sound;
    Keys();
    FirstRead(cfg, capacity);
    var steps := Opening(0, [FIRST]) + [Receive(Get(Some(1))), Serve];
    var s := Run(cfg, Start(capacity), steps);
    RunConcat(cfg, Start(capacity), steps, [Put([FIRST])]);
    RunOne(cfg, s, Put([FIRST]));
    NextPut(cfg, s, [FIRST]);
    var t := Apply(cfg, s, Put([FIRST]));
    PositionKey(FIRST);
    FirstAfterUnique(t.log, EventKey(FIRST), 2);
    OnlyFirstHit(t.served);
    if Sent(cfg, t, 1) {
      SentIsHit(cfg, t, 1);
    }
  }

  lemma RunOne(cfg: Config, s: System, a: Step)
    ensures Run(cfg, s, [a]) == Apply(cfg, s, a)
  {
    hide Apply;
    assert [a][1..] == [];
  }

  /** A Get whose cursor the watermark overtakes while it waits: the check had found nothing, the put is
      in order, and the read skips an entry that has been dropped. */
  lemma OvertakenReadLosesEntry(cfg: Config)
    requires cfg.token.None?
    ensures
      Loses(cfg, Run(cfg, Start(1),
        Opening(0, [FIRST]) + [Receive(Get(Some(1))), Serve]
        + ([Receive(Get(Some(1)))] + [Put([SECOND, THIRD]), Serve])), 1)
  {
    hide Run, Apply, Sorted, EventKey, PosKey, CoverInv, Sound, FilterOf, StrictlyAfter, FitsAfter, BoundedFrom,
      BoundedTo, Front, FirstAfter, Loses, AllKnown, Sample, Opening;
    Keys();
    FirstRead(cfg, 1);
    var steps := Opening(0, [FIRST]) + [Receive(Get(Some(1))), Serve];
    var s := Run(cfg, Start(1), steps);
    var get := Receive(Get(Some(1)));
    RunConcat(cfg, Start(1), steps, [get] + [Put([SECOND, THIRD]), Serve]);
    RunConcat(cfg, s, [get], [Put([SECOND, THIRD]), Serve]);
    RunOne(cfg, s, get);
    var s1 := Apply(cfg, s, get);
    RunTwo(cfg, s1, Put([SECOND, THIRD]), Serve);
    ReadyParts(cfg, s);
    GetStep(cfg, s, 1);
    StepKeepsSound(cfg, s, get);
    StepKeepsCover(cfg, s, get);
    NextPut(cfg, s1, [SECOND, THIRD]);
    var t := Apply(cfg, s1, Put([SECOND, THIRD]));
    assert t.log == [FIRST, SECOND, THIRD];
    PositionKey(FIRST);
    StartsBehind(t.log, 1, PositionOf(FIRST), 1);
    OnlyFirstHit(t.served);
    SkipLoses(cfg, t);
  }

  /** A rollback before any ack, after the client's cursor has fallen behind: the next Get is treated as
      that of a fresh client, and the read skips the entry that has been dropped. */
  lemma UnackedRollbackLosesEntry(cfg: Config)
    requires cfg.token.None?
    ensures
      Loses(cfg, Run(cfg, Start(1),
        Opening(0, [FIRST]) + [Receive(Get(Some(1))), Serve]
        + ([Put([SECOND, THIRD])] + ([Receive(Rollback(true))] + [Receive(Get(Some(1))), Serve]))), 1)
  {
    hide Run, Apply, Sorted, EventKey, PosKey, CoverInv, Sound, FilterOf, StrictlyAfter, FitsAfter, BoundedFrom,
      BoundedTo, Front, FirstAfter, Loses, AllKnown, Sample, Opening;
    Keys();
    FirstRead(cfg, 1);
    var steps := Opening(0, [FIRST]) + [Receive(Get(Some(1))), Serve];
    var s := Run(cfg, Start(1), steps);
    var rest := [Receive(Rollback(true))] + [Receive(Get(Some(1))), Serve];
    RunConcat(cfg, Start(1), steps, [Put([SECOND, THIRD])] + rest);
    RunConcat(cfg, s, [Put([SECOND, THIRD])], rest);
    RunOne(cfg, s, Put([SECOND, THIRD]));
    NextPut(cfg, s, [SECOND, THIRD]);
    var s1 := Apply(cfg, s, Put([SECOND, THIRD]));
    assert s1.log == [FIRST, SECOND, THIRD];
    StartsBehind(s1.log, 1, DEFAULT_START, 0);
    OnlyFirstHit(s1.served);
    RollbackLoses(cfg, s1);
  }

  /** The rollback and the read after it, in a state from which that read skips. */
  lemma RollbackLoses(cfg: Config, s: System)
    requires Ready(cfg, s) && s.conn.lastAckPos == None && s.served != []
    requires Front(s.served) < BoundedFrom(s.log, s.capacity, DEFAULT_START) < |s.log|
    ensures
      var t := Run(cfg, s, [Receive(Rollback(true))] + [Receive(Get(Some(1))), Serve]);
      Loses(cfg, t, Front(s.served)) && t.log == s.log && t.capacity == s.capacity
  {
    hide Run, Apply, Sound, CoverInv, FilterOf, BoundedFrom, BoundedTo, Front, Loses, AllKnown;
    var back, get := Receive(Rollback(true)), Receive(Get(Some(1)));
    RunConcat(cfg, s, [back], [get, Serve]);
    RunOne(cfg, s, back);
    RunTwo(cfg, Apply(cfg, s, back), get, Serve);
    ReadyParts(cfg, s);
    RollbackStep(cfg, s);
    FreshCursor(cfg, s);
    StepKeepsSound(cfg, s, back);
    StepKeepsCover(cfg, s, back);
    var s1 := Apply(cfg, s, back);
    SoundParts(cfg, s1);
    SameFilter(s, s1);
    GetStep(cfg, s1, 1);
    StepKeepsSound(cfg, s1, get);
    StepKeepsCover(cfg, s1, get);
    SkipLoses(cfg, Apply(cfg, s1, get));
  }

  lemma SameFilter(s: System, t: System)
    requires t.sessions == s.sessions && t.conn.clientId == s.conn.clientId
    ensures FilterOf(t.sessions, t.conn.clientId) == FilterOf(s.sessions, s.conn.clientId)
  {
  }

  const EARLY := Sample(0, 100)
  const LATER := Sample(0, 200)

  lemma EarlyKeys()
    ensures EventKey(EARLY) == Key(0, 100) && EventKey(LATER) == Key(0, 200)
    ensures Sorted([EARLY, LATER, FIRST]) && AllKnown([EARLY, LATER, FIRST])
    ensures EARLY.executeTime == 1
  {
    Keys();
    SampleKey(0, 100);
    SampleKey(0, 200);
    hide EventKey, Sample;
  }

  /** Nothing need have been dropped for that: a client that began at a start time in an earlier file than
      the default position rolls back before any ack, and the next read starts at the default position. */
  lemma DefaultBeyondCursorLosesEntry(cfg: Config, capacity: nat)
    requires cfg.token.None? && capacity >= 3
    ensures
      var s := Run(cfg, Start(capacity),
        Opening(1, [EARLY, LATER, FIRST]) + [Receive(Get(Some(1))), Serve]
        + ([Receive(Rollback(true))] + [Receive(Get(Some(1))), Serve]));
      Loses(cfg, s, 1) && Dropped(s.log, s.capacity) == 0
  {
    hide Run, Apply, Ready, FirstAfter, Sorted, EventKey, PosKey, BoundedFrom, ReadEnd, Watermark, Loses, Front,
      AllKnown, Sample, Opening;
    var log, get := [EARLY, LATER, FIRST], Receive(Get(Some(1)));
    Keys();
    EarlyKeys();
    Opened(cfg, capacity, 1, log);
    var s0 := Run(cfg, Start(capacity), Opening(1, log));
    var back := [Receive(Rollback(true))] + [get, Serve];
    RunConcat(cfg, Start(capacity), Opening(1, log) + [get, Serve], back);
    RunConcat(cfg, Start(capacity), Opening(1, log), [get, Serve]);
    RunTwo(cfg, s0, get, Serve);
    StartsSince(log, capacity);
    Answered(cfg, s0, 1, 0);
    var s := Apply(cfg, Apply(cfg, s0, get), Serve);
    OneEntryRead(log);
    OnlyFirstHit(s.served);
    StartsBehind(log, capacity, DEFAULT_START, 2);
    RollbackLoses(cfg, s);
  }

  lemma StartsSince(log: seq<CanalEvent>, capacity: nat)
    requires 0 < |log| <= capacity && log[0].executeTime >= 1
    ensures BoundedFrom(log, capacity, StartOf(Client(1))) == 0
  {
  }

  lemma OneEntryRead(log: seq<CanalEvent>)
    requires |log| >= 2 && EventKey(log[0]) != EventKey(log[1])
    ensures ReadEnd(log, 0, FetchSize(1)) == 1
  {
    hide EventKey;
  }
}
