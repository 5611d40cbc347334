/** The whole path put together: from the binlog through the connector, the batching loop, the store
    and a session to the consumer of a client. */
module EndToEnd {
  import opened CanalTypes
  import opened JournalOrder
  import opened EventLog
  import opened Conversion
  import opened Replication
  import opened ReplicationFacts
  import opened Pipeline
  import Session
  import opened SessionRuns
  import opened SessionSafety
  import opened Delivery

  /** The connector's messages among the inputs of the batching loop. */
  function MessagesOf(inputs: seq<Input>): seq<Sent> {
    if inputs == [] then []
    else (if inputs[0].Message? then [inputs[0].r] else []) + MessagesOf(inputs[1..])
  }

  lemma {:induction false} ReceivedAreOks(inputs: seq<Input>)
    ensures Pipeline.Received(inputs) == Oks(MessagesOf(inputs))
  {
    if inputs != [] {
      ReceivedAreOks(inputs[1..]);
      OksConcat(if inputs[0].Message? then [inputs[0].r] else [], MessagesOf(inputs[1..]));
      assert inputs[0].Message? ==> [inputs[0].r][1..] == [];
    }
  }

  /** The ingest pipeline establishes the order the store relies on: whatever the timing of the flushes
      between the connector's messages, the batching loop of a well-ordered binlog meets the
      precondition under which every one of its puts is in order. */
  lemma BinlogFeedsStoreInOrder(items: seq<Item>, start: string, inputs: seq<Input>)
    requires WellOrdered(items, start) && MessagesOf(inputs) == Output(items, start)
    ensures Pipeline.Received(inputs) == Oks(Output(items, start))
    ensures Sorted([] + Pipeline.Received(inputs))
    ensures Flatten(Batches(inputs, [])) == Oks(Output(items, start))
  {
    ReceivedAreOks(inputs);
    OutputIsSorted(items, start);
    BatchesConserve(inputs, []);
    assert [] + Pipeline.Received(inputs) == Pipeline.Received(inputs);
  }

  lemma OwedFromLog(cfg: Session.Config, f: FilterPattern, log: seq<CanalEvent>, served: seq<Served>, e: CanalEvent)
    requires e in Owed(cfg, f, log, served)
    ensures e in log && Passes(cfg.re, f, e)
  {
    hide Passes;
    var slice := log[served[0].from..served[|served| - 1].to];
    SelectMembers(cfg.re, f, slice, e);
  }

  /** An event the connector has produced arrives as it was sent, raw bytes apart. */
  lemma ArrivesUnchanged(p: Prost, items: seq<Item>, start: string, e: CanalEvent)
    requires Substantial(items) && e in Oks(Output(items, start))
    ensures OnWire(p, e).Ok? && OnWire(p, e).value.(rawBytes := []) == e
  {
    OutputIsCanonical(items, start, e);
    LosslessIffCanonical(e);
    hide NormalForm, Canonical, Output, RowChangeToProto;
  }

  // -- What the puts of a run leave in the log ------------------------------

  function PutsOf(steps: seq<Step>): seq<seq<CanalEvent>> {
    if steps == [] then []
    else (if steps[0].Put? then [steps[0].events] else []) + PutsOf(steps[1..])
  }

  /** The steps that the moves of a client and its server make at the server's side. */
  function StepsOf(moves: seq<Move>): seq<Step> {
    if moves == [] then []
    else (if moves[0].Server? && ServerSide(moves[0].step) then [moves[0].step] else []) + StepsOf(moves[1..])
  }

  /** A put whose events come next in a sorted history is accepted. */
  lemma PutAccepted(cfg: Session.Config, s: System, events: seq<CanalEvent>, history: seq<CanalEvent>)
    requires Sorted(history) && events != [] && s.log + events <= history
    ensures Apply(cfg, s, Put(events)).log == s.log + events
  {
    hide EventKey, AtMost;
    var all := s.log + events;
    assert all == history[..|all|];
    assert events == history[|s.log|..|all|];
    assert s.log != [] ==> s.log[|s.log| - 1] == history[|s.log| - 1] && events[0] == history[|s.log|];
  }

  lemma OtherStepKeepsLog(cfg: Session.Config, s: System, step: Step)
    requires !step.Put?
    ensures Apply(cfg, s, step).log == s.log
  {
    hide Session.Handle, Session.GetOutcome, FitsAfter, Watermark, Read, Window, BoundedFrom, BoundedTo;
  }

  lemma StepLog(cfg: Session.Config, s: System, step: Step, later: seq<CanalEvent>, history: seq<CanalEvent>)
    requires Sorted(history) && [] !in PutsOf([step])
    requires s.log + (Flatten(PutsOf([step])) + later) <= history
    ensures Apply(cfg, s, step).log == s.log + Flatten(PutsOf([step]))
  {
    hide Apply, Sorted;
    assert [step][1..] == [];
    if step.Put? {
      assert PutsOf([step]) == [step.events];
      FlattenCons(step.events, []);
      assert s.log + (step.events + later) == s.log + step.events + later;
      PutAccepted(cfg, s, step.events, history);
    } else {
      assert PutsOf([step]) == [];
      OtherStepKeepsLog(cfg, s, step);
    }
  }

  lemma PutsOfCons(step: Step, steps: seq<Step>)
    ensures PutsOf([step] + steps) == PutsOf([step]) + PutsOf(steps)
  {
    assert ([step] + steps)[1..] == steps && [step][1..] == [];
  }

  /** When the puts of a run are the beginning of a sorted history, all of them are accepted and the
      log is what they hold, in order. */
  lemma {:induction false} RunLog(cfg: Session.Config, s: System, steps: seq<Step>, history: seq<CanalEvent>)
    requires Sorted(history) && [] !in PutsOf(steps) && s.log + Flatten(PutsOf(steps)) <= history
    ensures Run(cfg, s, steps).log == s.log + Flatten(PutsOf(steps))
    decreases |steps|
  {
    hide Apply, Sorted, PutsOf, Flatten;
    if steps == [] {
      NoPuts();
    } else {
      var first, rest := Flatten(PutsOf([steps[0]])), Flatten(PutsOf(steps[1..]));
      assert steps == [steps[0]] + steps[1..];
      PutsOfCons(steps[0], steps[1..]);
      FlattenConcat(PutsOf([steps[0]]), PutsOf(steps[1..]));
      StepLog(cfg, s, steps[0], rest, history);
      assert s.log + (first + rest) == s.log + first + rest;
      RunLog(cfg, Apply(cfg, s, steps[0]), steps[1..], history);
    }
  }

  lemma NoPuts()
    ensures PutsOf([]) == [] && Flatten([]) == []
  {
  }

  /** The same for the moves of a client and its server. */
  lemma {:induction false} PlayLog(cfg: Session.Config, w: World, moves: seq<Move>, history: seq<CanalEvent>)
    requires Sorted(history) && [] !in PutsOf(StepsOf(moves)) && w.sys.log + Flatten(PutsOf(StepsOf(moves))) <= history
    ensures Play(cfg, w, moves).sys.log == w.sys.log + Flatten(PutsOf(StepsOf(moves)))
    decreases |moves|
  {
    hide Apply, Sorted, PutsOf, Flatten, Next, ServerSide;
    if moves == [] {
      NoPuts();
    } else {
      var w1 := Next(cfg, w, moves[0]);
      if moves[0].Server? && ServerSide(moves[0].step) {
        var step, later := moves[0].step, StepsOf(moves[1..]);
        var first, rest := Flatten(PutsOf([step])), Flatten(PutsOf(later));
        PutsOfCons(step, later);
        FlattenConcat(PutsOf([step]), PutsOf(later));
        StepLog(cfg, w.sys, step, rest, history);
        assert w.sys.log + (first + rest) == w.sys.log + first + rest;
        assert moves[0] == Server(step) && StepsOf(moves) == [step] + later;
        ServerMoves(cfg, w, step);
        PlayLog(cfg, w1, moves[1..], history);
      } else {
        assert StepsOf(moves) == StepsOf(moves[1..]);
        ClientMoveKeepsLog(cfg, w, moves[0]);
        PlayLog(cfg, w1, moves[1..], history);
      }
    }
  }

  lemma ServerMoves(cfg: Session.Config, w: World, step: Step)
    requires ServerSide(step)
    ensures Next(cfg, w, Server(step)).sys == Apply(cfg, w.sys, step)
  {
    hide Apply;
  }

  lemma ClientMoveKeepsLog(cfg: Session.Config, w: World, move: Move)
    requires !(move.Server? && ServerSide(move.step))
    ensures Next(cfg, w, move).sys.log == w.sys.log
  {
    hide Apply, ServerSide;
    if move.Accept? && w.toServer != [] {
      OtherStepKeepsLog(cfg, w.sys, Receive(w.toServer[0]));
    }
  }

  lemma {:induction false} FlattenPrefix(a: seq<seq<CanalEvent>>, b: seq<seq<CanalEvent>>)
    requires a <= b
    ensures Flatten(a) <= Flatten(b)
  {
    FlattenConcat(a, b[|a|..]);
    assert b == a + b[|a|..];
  }

  /** A run whose puts are those of the ingest pipeline, as far as it has got, stores what the pipeline
      has read and the sink's filter passes. */
  lemma PipelineLog(cfg: Session.Config, capacity: nat, steps: seq<Step>, moves: seq<Move>, items: seq<Item>,
                    start: string, inputs: seq<Input>, sinkFilter: FilterPattern)
    requires WellOrdered(items, start) && MessagesOf(inputs) == Output(items, start)
    requires PutsOf(steps) + PutsOf(StepsOf(moves)) <= Kept(cfg.re, sinkFilter, Batches(inputs, []))
    ensures
      var w := Play(cfg, Subscribed(Run(cfg, Start(capacity), steps)), moves);
      && w.sys.log == Flatten(PutsOf(steps) + PutsOf(StepsOf(moves)))
      && w.sys.log <= Select(cfg.re, sinkFilter, Oks(Output(items, start)))
  {
    hide Run, Play, Sorted, PutsOf, StepsOf, Flatten, Kept, Batches, Select, Oks, Output, WellOrdered;
    BinlogFeedsStoreInOrder(items, start, inputs);
    OutputIsSorted(items, start);
    KeptConserves(cfg.re, sinkFilter, Batches(inputs, []));
    SelectKeepsOrder(cfg.re, sinkFilter, Oks(Output(items, start)));
    var history := Select(cfg.re, sinkFilter, Oks(Output(items, start)));
    var first, second := PutsOf(steps), PutsOf(StepsOf(moves));
    FlattenConcat(first, second);
    FlattenPrefix(first + second, Kept(cfg.re, sinkFilter, Batches(inputs, [])));
    assert forall b | b in first + second :: b in Kept(cfg.re, sinkFilter, Batches(inputs, []));
    assert [] + Flatten(first) == Flatten(first);
    RunLog(cfg, Start(capacity), steps, history);
    PlayLog(cfg, Subscribed(Run(cfg, Start(capacity), steps)), moves, history);
  }

  // -- Safety of a play, from the timing of flushes and reads ---------------

  /** At every read, the watermark has not overtaken the cursor of the Get that waits. */
  ghost predicate ReadsAboveWatermark(cfg: Session.Config, w: World, moves: seq<Move>)
    decreases |moves|
  {
    moves != [] ==>
      && (moves[0] == Server(Serve) ==> !WaitsBelow(w.sys, Watermark(w.sys.log, w.sys.capacity)))
      && ReadsAboveWatermark(cfg, Next(cfg, w, moves[0]), moves[1..])
  }

  /** No put lets the watermark overtake the cursor of a Get that waits. */
  ghost predicate PutsOvertakeNothing(cfg: Session.Config, w: World, moves: seq<Move>)
    decreases |moves|
  {
    moves != [] ==>
      && (moves[0].Server? && moves[0].step.Put? ==>
            !WaitsBelow(w.sys, Watermark(w.sys.log + moves[0].step.events, w.sys.capacity)))
      && PutsOvertakeNothing(cfg, Next(cfg, w, moves[0]), moves[1..])
  }

  lemma {:induction false} StrictPutsConcat(log: seq<CanalEvent>, a: seq<seq<CanalEvent>>, b: seq<seq<CanalEvent>>)
    ensures StrictPuts(log, a + b) <==> StrictPuts(log, a) && StrictPuts(log + Flatten(a), b)
    decreases |a|
  {
    hide StrictlyAfter;
    if a == [] {
      assert a + b == b && log + Flatten(a) == log;
    } else {
      assert (a + b)[0] == a[0] && (a + b)[1..] == a[1..] + b;
      StrictPutsConcat(log + a[0], a[1..], b);
      assert log + a[0] + Flatten(a[1..]) == log + Flatten(a);
    }
  }

  lemma PutIsStrict(s: System, step: Step)
    requires StrictPuts(s.log, PutsOf([step])) && step.Put?
    ensures StrictlyAfter(s.log, step.events)
  {
    hide StrictlyAfter;
    assert [step][1..] == [] && PutsOf([step]) == [step.events];
  }

  /** A play is safe when its puts keep position groups whole and its reads, or its puts, respect the
      watermark. */
  lemma {:induction false} PlayIsSafe(cfg: Session.Config, w: World, moves: seq<Move>, history: seq<CanalEvent>)
    requires Sorted(history) && [] !in PutsOf(StepsOf(moves)) && w.sys.log + Flatten(PutsOf(StepsOf(moves))) <= history
    requires StrictPuts(w.sys.log, PutsOf(StepsOf(moves)))
    ensures ReadsAboveWatermark(cfg, w, moves) ==> PrudentPlay(cfg, w, moves)
    ensures PutsOvertakeNothing(cfg, w, moves) ==> AtomicPlay(cfg, w, moves)
    decreases |moves|
  {
    hide Apply, Sorted, PutsOf, Flatten, Next, StrictPuts, WaitsBelow, StrictlyAfter, Watermark;
    if moves != [] {
      var w1 := Next(cfg, w, moves[0]);
      if moves[0].Server? && ServerSide(moves[0].step) {
        var step, later := moves[0].step, StepsOf(moves[1..]);
        var first, rest := PutsOf([step]), PutsOf(later);
        PutsOfCons(step, later);
        FlattenConcat(first, rest);
        StrictPutsConcat(w.sys.log, first, rest);
        assert moves[0] == Server(step) && StepsOf(moves) == [step] + later;
        if step.Put? {
          PutIsStrict(w.sys, step);
        }
        StepLog(cfg, w.sys, step, Flatten(rest), history);
        assert w.sys.log + (Flatten(first) + Flatten(rest)) == w.sys.log + Flatten(first) + Flatten(rest);
        ServerMoves(cfg, w, step);
        PlayIsSafe(cfg, w1, moves[1..], history);
      } else {
        assert StepsOf(moves) == StepsOf(moves[1..]);
        ClientMoveKeepsLog(cfg, w, moves[0]);
        PlayIsSafe(cfg, w1, moves[1..], history);
      }
    }
  }

  /** The puts of the ingest pipeline make a play safe if no flush of the batching loop stands between two
      events of one key that pass the sink's filter, which `PutsStrictIff` shows to be the exact condition,
      and the watermark does not overtake a Get that waits, at its read or by a put. */
  lemma PipelineIsSafe(cfg: Session.Config, capacity: nat, steps: seq<Step>, moves: seq<Move>, items: seq<Item>,
                       start: string, inputs: seq<Input>, sinkFilter: FilterPattern)
    requires WellOrdered(items, start) && MessagesOf(inputs) == Output(items, start)
    requires PutsOf(steps) + PutsOf(StepsOf(moves)) <= Kept(cfg.re, sinkFilter, Batches(inputs, []))
    requires CutsNoGroup(cfg.re, sinkFilter, inputs, [])
    ensures
      var w := Subscribed(Run(cfg, Start(capacity), steps));
      && (ReadsAboveWatermark(cfg, w, moves) ==> PrudentPlay(cfg, w, moves))
      && (PutsOvertakeNothing(cfg, w, moves) ==> AtomicPlay(cfg, w, moves))
  {
    hide Run, Play, Sorted, PutsOf, StepsOf, Flatten, Kept, Batches, Select, Oks, Output, WellOrdered, StrictPuts,
      StrictlyAfter, CutsNoGroup, ReadsAboveWatermark, PutsOvertakeNothing, PrudentPlay, AtomicPlay;
    BinlogFeedsStoreInOrder(items, start, inputs);
    OutputIsSorted(items, start);
    var kept := Kept(cfg.re, sinkFilter, Batches(inputs, []));
    KeptConserves(cfg.re, sinkFilter, Batches(inputs, []));
    SelectKeepsOrder(cfg.re, sinkFilter, Oks(Output(items, start)));
    var history := Select(cfg.re, sinkFilter, Oks(Output(items, start)));
    assert [] + Pipeline.Received(inputs) == Oks(Output(items, start));
    NothingBefore(history);
    PutsStrictIff(cfg.re, sinkFilter, inputs, [], []);
    var first, second := PutsOf(steps), PutsOf(StepsOf(moves));
    assert kept == first + second + kept[|first + second|..];
    StrictPutsConcat([], first + second, kept[|first + second|..]);
    StrictPutsConcat([], first, second);
    FlattenConcat(first, second);
    FlattenPrefix(first + second, kept);
    assert forall b | b in first + second :: b in kept;
    assert [] + Flatten(first) == Flatten(first);
    RunLog(cfg, Start(capacity), steps, history);
    PlayIsSafe(cfg, Subscribed(Run(cfg, Start(capacity), steps)), moves, history);
  }

  lemma NothingBefore(events: seq<CanalEvent>)
    ensures StrictlyAfter([], events)
  {
  }

  /** A fresh subscription does not wait for anything. */
  lemma FreshIsChecked(cfg: Session.Config, capacity: nat, steps: seq<Step>, f: FilterPattern)
    requires FreshSubscription(f, Run(cfg, Start(capacity), steps))
    ensures Checked(Subscribed(Run(cfg, Start(capacity), steps)).sys)
  {
    hide Run, Watermark, BelowWatermark;
  }

  /** From MySQL to the consumer. If the puts of a run are those that the ingest pipeline makes of a
      well-ordered binlog, as far as it has got, no flush of the batching loop cuts a position group, and
      after the subscription the watermark does not overtake a Get that waits, then what a client's consumer
      has received is, event by event and in order, a prefix of the events that the connector read from the
      binlog and that pass the sink's filter and the client's, within one contiguous segment that begins
      where the client's start cursor says; each is exactly the event that was read but for its raw
      bytes. */
  lemma BinlogReachesConsumer(cfg: Session.Config, capacity: nat, steps: seq<Step>, f: FilterPattern, moves: seq<Move>,
                              items: seq<Item>, start: string, inputs: seq<Input>, sinkFilter: FilterPattern)
    requires Lawful(cfg.prost) && capacity > 0
    requires FreshSubscription(f, Run(cfg, Start(capacity), steps))
    requires Substantial(items) && WellOrdered(items, start) && MessagesOf(inputs) == Output(items, start)
    requires PutsOf(steps) + PutsOf(StepsOf(moves)) <= Kept(cfg.re, sinkFilter, Batches(inputs, []))
    requires CutsNoGroup(cfg.re, sinkFilter, inputs, [])
    requires
      var w0 := Subscribed(Run(cfg, Start(capacity), steps));
      ReadsAboveWatermark(cfg, w0, moves) || PutsOvertakeNothing(cfg, w0, moves)
    ensures
      var s0 := Run(cfg, Start(capacity), steps);
      var w := Play(cfg, Subscribed(s0), moves);
      var owed := Owed(cfg, f, w.sys.log, w.sys.served);
      && w.sys.log <= Select(cfg.re, sinkFilter, Oks(Output(items, start)))
      && (w.sys.served != [] ==>
            var first, end := w.sys.served[0], w.sys.served[|w.sys.served| - 1].to;
            && first.start == Session.CursorOf(s0.conn, s0.sessions) && |s0.log| <= first.seen
            && BeginsRight(w.sys.log, w.sys.capacity, first)
            && first.from < end <= |w.sys.log| && owed == Select(cfg.re, f, w.sys.log[first.from..end]))
      && |w.forwarded| <= |owed|
      && (w.taken == |w.sys.out| ==> |w.forwarded| == |owed|)
      && (forall i | 0 <= i < |w.forwarded| ::
            && w.forwarded[i].Ok? && w.forwarded[i].value.(rawBytes := []) == owed[i]
            && owed[i] in Oks(Output(items, start))
            && Passes(cfg.re, sinkFilter, owed[i]) && Passes(cfg.re, f, owed[i]))
  {
    hide Lawful, Run, FairPlay, PrudentPlay, AtomicPlay, Play, Substantial, Output, Owed, OnWire,
      Passes, Select, Oks, FirstAfter, WellOrdered, PutsOf, StepsOf, Kept, Batches, Flatten, CutsNoGroup,
      ReadsAboveWatermark, PutsOvertakeNothing, BeginsRight, Session.CursorOf, Checked, Session.FilterOf;
    PipelineIsSafe(cfg, capacity, steps, moves, items, start, inputs, sinkFilter);
    FreshIsChecked(cfg, capacity, steps, f);
    EndToEndDelivery(cfg, capacity, steps, f, moves);
    PipelineLog(cfg, capacity, steps, moves, items, start, inputs, sinkFilter);
    var w := Play(cfg, Subscribed(Run(cfg, Start(capacity), steps)), moves);
    var owed := Owed(cfg, f, w.sys.log, w.sys.served);
    var sent := Oks(Output(items, start));
    forall i | 0 <= i < |w.forwarded|
      ensures w.forwarded[i].Ok? && w.forwarded[i].value.(rawBytes := []) == owed[i]
      ensures owed[i] in sent && Passes(cfg.re, sinkFilter, owed[i]) && Passes(cfg.re, f, owed[i])
    {
      assert w.forwarded[i] == OnWireAll(cfg.prost, owed)[i] == OnWire(cfg.prost, owed[i]);
      OwedFromLog(cfg, f, w.sys.log, w.sys.served, owed[i]);
      assert owed[i] in Select(cfg.re, sinkFilter, sent);
      SelectMembers(cfg.re, sinkFilter, sent, owed[i]);
      ArrivesUnchanged(cfg.prost, items, start, owed[i]);
    }
  }

  /** A client without a start time begins with the oldest entry that was retained when it was first read
      for, as long as no event is recorded at or before offset 4 of the first binlog file. */
  lemma FreshClientBeginsWithOldest(log: seq<CanalEvent>, capacity: nat, first: Served)
    requires BeginsRight(log, capacity, first) && first.start == Session.DEFAULT_START
    requires Before(Key(1, 4), EventKey(log[0]))
    ensures first.from == Dropped(log[..first.seen], capacity)
  {
    DefaultStartIsFirst(log);
    hide EventKey, PosKey, FirstAfter;
  }
}
