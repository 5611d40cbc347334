/** From the connector's channel to the store: the batching loop of the server process and the event
    sink with its dispatch queue. */
module Pipeline {
  import opened CanalTypes
  import opened JournalOrder
  import opened EventLog
  import opened MemoryStore

  const BATCH_LIMIT := 256

  /** What wakes the batching loop: a message from the connector, or the flush timer. */
  datatype Input = Message(r: Result<CanalEvent, CanalError>) | Tick

  function Flatten(batches: seq<seq<CanalEvent>>): seq<CanalEvent> {
    if batches == [] then [] else batches[0] + Flatten(batches[1..])
  }

  /** The events among the inputs, in order; errors are logged and skipped. */
  function Received(inputs: seq<Input>): seq<CanalEvent> {
    if inputs == [] then []
    else
      (if inputs[0].Message? && inputs[0].r.Ok? then [inputs[0].r.value] else []) + Received(inputs[1..])
  }

  /** The pending events after an input. */
  function Grow(pending: seq<CanalEvent>, input: Input): seq<CanalEvent> {
    if input.Message? && input.r.Ok? then pending + [input.r.value] else pending
  }

  /** Does the input make the loop feed what is pending? */
  predicate Flushes(pending: seq<CanalEvent>, input: Input) {
    match input
    case Tick => pending != []
    case Message(r) => r.Ok? && |pending| + 1 >= BATCH_LIMIT
  }

  /** The batches that are fed for the inputs to come, given the events already pending. */
  function Batches(inputs: seq<Input>, pending: seq<CanalEvent>): seq<seq<CanalEvent>>
    decreases |inputs|
  {
    if inputs == [] then
      if pending == [] then [] else [pending]
    else
      var batch := Grow(pending, inputs[0]);
      if Flushes(pending, inputs[0]) then [batch] + Batches(inputs[1..], []) else Batches(inputs[1..], batch)
  }

  /** Batching neither loses, duplicates nor reorders events. */
  lemma {:induction false} BatchesConserve(inputs: seq<Input>, pending: seq<CanalEvent>)
    ensures Flatten(Batches(inputs, pending)) == pending + Received(inputs)
    decreases |inputs|
  {
    if inputs == [] {
      FlattenCons(pending, []);
    } else {
      hide Flatten;
      var rest, batch := inputs[1..], Grow(pending, inputs[0]);
      GrowReceives(inputs, pending);
      hide Received, Grow, Flushes;
      if Flushes(pending, inputs[0]) {
        BatchesConserve(rest, []);
        FlattenCons(batch, Batches(rest, []));
        assert [] + Received(rest) == Received(rest);
      } else {
        BatchesConserve(rest, batch);
      }
    }
  }

  lemma GrowReceives(inputs: seq<Input>, pending: seq<CanalEvent>)
    requires inputs != []
    ensures pending + Received(inputs) == Grow(pending, inputs[0]) + Received(inputs[1..])
  {
  }

  lemma FlattenCons(b: seq<CanalEvent>, batches: seq<seq<CanalEvent>>)
    ensures Flatten([b] + batches) == b + Flatten(batches)
    ensures Flatten([]) == [] && Flatten([b]) == b
  {
    assert ([b] + batches)[1..] == batches;
  }

  /** A batch that is fed is never empty and never above the limit. */
  lemma {:induction false} BatchSizes(inputs: seq<Input>, pending: seq<CanalEvent>, b: seq<CanalEvent>)
    requires |pending| < 256 && b in Batches(inputs, pending)
    ensures 0 < |b| <= 256
    decreases |inputs|
  {
    if inputs != [] {
      var batch, full := Grow(pending, inputs[0]), Flushes(pending, inputs[0]);
      if !(full && b == batch) {
        BatchSizes(inputs[1..], if full then [] else batch, b);
      }
    }
  }

  function Messages(events: seq<CanalEvent>): seq<Input> {
    seq(|events|, i requires 0 <= i < |events| => Message(Ok(events[i])))
  }

  /** The batcher cuts by number and by time, not by position group: a group that straddles the limit
      is split over two puts, which is what the strict order that lossless delivery needs rules out. */
  lemma BatchingSplitsGroup(events: seq<CanalEvent>)
    requires |events| == 257 && EventKey(events[255]) == EventKey(events[256])
    ensures Batches(Messages(events), []) == [events[..256], events[256..]]
    ensures !StrictlyAfter(events[..256], events[256..])
  {
    hide BinlogSuffix;
    var inputs, last := Messages(events), events[BATCH_LIMIT];
    FillingBatch(events, 0);
    assert inputs[0..] == inputs && events[..0] == [];
    assert inputs[BATCH_LIMIT..] == [Message(Ok(last))] && inputs[BATCH_LIMIT..][1..] == [];
    assert [] + [last] == [last] == events[BATCH_LIMIT..];
    assert Batches(inputs[BATCH_LIMIT..], []) == Batches([], [last]);
  }

  lemma {:induction false} FillingBatch(events: seq<CanalEvent>, n: nat)
    requires |events| == BATCH_LIMIT + 1 && n < BATCH_LIMIT
    ensures Batches(Messages(events)[n..], events[..n]) ==
            [events[..BATCH_LIMIT]] + Batches(Messages(events)[BATCH_LIMIT..], [])
    decreases BATCH_LIMIT - n
  {
    var inputs := Messages(events);
    assert inputs[n..][0] == Message(Ok(events[n])) && inputs[n..][1..] == inputs[n + 1..];
    assert events[..n] + [events[n]] == events[..n + 1];
    if n + 1 < BATCH_LIMIT {
      FillingBatch(events, n + 1);
    }
  }

  // -- Filtering keeps the order --------------------------------------------

  lemma {:induction false} SelectKeepsOrder(re: Regexes, f: FilterPattern, s: seq<CanalEvent>)
    requires Sorted(s)
    ensures Sorted(Select(re, f, s))
  {
    hide BinlogSuffix, EventKey;
    if s != [] {
      SelectKeepsOrder(re, f, s[1..]);
      var rest := Select(re, f, s[1..]);
      forall i | 0 <= i < |rest|
        ensures AtMost(EventKey(s[0]), EventKey(rest[i]))
      {
        SelectMembers(re, f, s[1..], rest[i]);
        assert rest[i] in s[1..];
      }
    }
  }

  /** The selected part of a batch fits the log if the unfiltered batch does. */
  lemma SelectFits(re: Regexes, f: FilterPattern, log: seq<CanalEvent>, early: seq<CanalEvent>, batch: seq<CanalEvent>)
    requires Sorted(log + (early + batch))
    ensures FitsAfter(log + Select(re, f, early), Select(re, f, batch))
  {
    hide Sorted, AtMost, EventKey, Select, Passes;
    SortedSuffix(log + (early + batch), |log| + |early|);
    assert batch == (log + (early + batch))[|log| + |early|..];
    SelectKeepsOrder(re, f, batch);
    var kept, held := Select(re, f, batch), log + Select(re, f, early);
    if kept != [] && held != [] {
      var last := held[|held| - 1];
      SelectMembers(re, f, batch, kept[0]);
      SelectMembers(re, f, early, last);
      EarlierIsAtMost(log, early, batch, last, kept[0]);
    }
  }

  lemma SortedSuffix(s: seq<CanalEvent>, n: nat)
    requires Sorted(s) && n <= |s|
    ensures Sorted(s[n..])
  {
    hide AtMost, EventKey;
  }

  lemma EarlierIsAtMost(log: seq<CanalEvent>, early: seq<CanalEvent>, batch: seq<CanalEvent>, x: CanalEvent,
    y: CanalEvent)
    requires Sorted(log + (early + batch)) && y in batch && (x in log || x in early)
    ensures AtMost(EventKey(x), EventKey(y))
  {
    hide AtMost, EventKey;
    var all := log + (early + batch);
    var j :| 0 <= j < |batch| && batch[j] == y;
    assert all[|log| + |early| + j] == y;
    if x in log {
      var i :| 0 <= i < |log| && log[i] == x;
      assert all[i] == x;
    } else {
      var i :| 0 <= i < |early| && early[i] == x;
      assert all[|log| + i] == x;
    }
  }

  /** The puts that feeding `batches` makes: what passes of each, unless nothing does. */
  function Kept(re: Regexes, f: FilterPattern, batches: seq<seq<CanalEvent>>): seq<seq<CanalEvent>> {
    if batches == [] then []
    else KeptOf(re, f, batches[0]) + Kept(re, f, batches[1..])
  }

  function KeptOf(re: Regexes, f: FilterPattern, batch: seq<CanalEvent>): seq<seq<CanalEvent>> {
    var kept := Select(re, f, batch);
    if kept == [] then [] else [kept]
  }

  /** Filtering batch by batch keeps what filtering everything keeps, and makes no empty put. */
  lemma {:induction false} KeptConserves(re: Regexes, f: FilterPattern, batches: seq<seq<CanalEvent>>)
    ensures Flatten(Kept(re, f, batches)) == Select(re, f, Flatten(batches))
    ensures [] !in Kept(re, f, batches)
  {
    hide Select;
    if batches == [] {
      assert Select(re, f, []) == [] by { SelectShorter(re, f, []); }
    } else {
      KeptConserves(re, f, batches[1..]);
      SelectConcat(re, f, batches[0], Flatten(batches[1..]));
      FlattenConcat(KeptOf(re, f, batches[0]), Kept(re, f, batches[1..]));
      FlattenCons(Select(re, f, batches[0]), []);
    }
  }

  lemma {:induction false} FlattenConcat(a: seq<seq<CanalEvent>>, b: seq<seq<CanalEvent>>)
    ensures Flatten(a + b) == Flatten(a) + Flatten(b)
  {
    if a == [] {
      assert a + b == b;
    } else {
      assert (a + b)[1..] == a[1..] + b;
      FlattenConcat(a[1..], b);
    }
  }

  lemma {:induction false} KeptSnoc(re: Regexes, f: FilterPattern, batches: seq<seq<CanalEvent>>, b: seq<CanalEvent>)
    ensures Kept(re, f, batches + [b]) == Kept(re, f, batches) + KeptOf(re, f, b)
  {
    hide KeptOf;
    if batches == [] {
      assert batches + [b] == [b] && [b][1..] == [];
    } else {
      assert (batches + [b])[1..] == batches[1..] + [b];
      KeptSnoc(re, f, batches[1..], b);
    }
  }

  // -- When the puts keep position groups whole -----------------------------

  /** Every put comes strictly after what is in the log by then. */
  ghost predicate StrictPuts(log: seq<CanalEvent>, puts: seq<seq<CanalEvent>>)
    decreases |puts|
  {
    puts != [] ==> StrictlyAfter(log, puts[0]) && StrictPuts(log + puts[0], puts[1..])
  }

  /** Events that pass the filter have different keys on the two sides. */
  ghost predicate Apart(re: Regexes, f: FilterPattern, a: seq<CanalEvent>, b: seq<CanalEvent>) {
    forall x, y | x in a && y in b && Passes(re, f, x) && Passes(re, f, y) :: EventKey(x) != EventKey(y)
  }

  /** No flush, by number or by time, stands between two received events of one key that pass. */
  ghost predicate CutsNoGroup(re: Regexes, f: FilterPattern, inputs: seq<Input>, pending: seq<CanalEvent>)
    decreases |inputs|
  {
    inputs != [] ==>
      var batch, rest := Grow(pending, inputs[0]), inputs[1..];
      if Flushes(pending, inputs[0]) then
        Apart(re, f, batch, Received(rest)) && CutsNoGroup(re, f, rest, [])
      else CutsNoGroup(re, f, rest, batch)
  }

  lemma ApartIff(re: Regexes, f: FilterPattern, log: seq<CanalEvent>, a: seq<CanalEvent>, b: seq<CanalEvent>)
    requires Sorted(Select(re, f, a) + Select(re, f, b)) && Select(re, f, a) != []
    ensures Apart(re, f, a, b) <==> StrictlyAfter(log + Select(re, f, a), Select(re, f, b))
  {
    hide Select, Passes, EventKey;
    var p, q := Select(re, f, a), Select(re, f, b);
    if q != [] {
      var last, first := p[|p| - 1], q[0];
      assert (p + q)[|p| - 1] == last && (p + q)[|p|] == first;
      SelectMembers(re, f, a, last);
      SelectMembers(re, f, b, first);
    }
    forall x, y | x in a && y in b && Passes(re, f, x) && Passes(re, f, y)
      ensures q != [] && AtMost(EventKey(x), EventKey(p[|p| - 1])) && AtMost(EventKey(q[0]), EventKey(y))
    {
      SelectMembers(re, f, a, x);
      SelectMembers(re, f, b, y);
      var i :| 0 <= i < |p| && p[i] == x;
      var j :| 0 <= j < |q| && q[j] == y;
      assert (p + q)[i] == x && (p + q)[|p| + j] == y;
    }
  }

  /** The first of some puts holds the first of their events. */
  lemma StrictPutsFirst(log: seq<CanalEvent>, puts: seq<seq<CanalEvent>>)
    requires [] !in puts && StrictPuts(log, puts)
    ensures StrictlyAfter(log, Flatten(puts))
  {
    hide EventKey;
    if puts != [] {
      assert puts[0] in puts;
    }
  }

  lemma StrictPutsCons(log: seq<CanalEvent>, put: seq<CanalEvent>, puts: seq<seq<CanalEvent>>)
    ensures StrictPuts(log, [put] + puts) <==> StrictlyAfter(log, put) && StrictPuts(log + put, puts)
  {
    hide StrictlyAfter;
    assert ([put] + puts)[1..] == puts;
  }

  /** The puts of a batching loop keep every position group whole if and only if no flush stands between
      two events of one key that pass the sink's filter: the exact condition on the timing of the flushes
      for the strict order that lossless delivery needs. */
  lemma {:induction false} PutsStrictIff(re: Regexes, f: FilterPattern, inputs: seq<Input>, pending: seq<CanalEvent>,
                                         log: seq<CanalEvent>)
    requires Sorted(Select(re, f, pending + Received(inputs)))
    requires StrictlyAfter(log, Select(re, f, pending + Received(inputs)))
    ensures StrictPuts(log, Kept(re, f, Batches(inputs, pending))) <==> CutsNoGroup(re, f, inputs, pending)
    decreases |inputs|, 1
  {
    hide Select, EventKey, Flatten, Received, Sorted, StrictPuts, StrictlyAfter, Apart, KeptOf;
    if inputs == [] {
      LastPutStrict(re, f, pending, log);
    } else {
      var rest, batch := inputs[1..], Grow(pending, inputs[0]);
      GrowReceives(inputs, pending);
      hide Grow;
      if !Flushes(pending, inputs[0]) {
        PutsStrictIff(re, f, rest, batch, log);
      } else {
        hide Flushes;
        assert Batches(inputs, pending) == [batch] + Batches(rest, []);
        hide Batches, CutsNoGroup;
        KeptCons(re, f, batch, Batches(rest, []));
        SelectConcat(re, f, batch, Received(rest));
        assert [] + Received(rest) == Received(rest);
        FlushStrictIff(re, f, rest, batch, log);
      }
    }
  }

  lemma LastPutStrict(re: Regexes, f: FilterPattern, pending: seq<CanalEvent>, log: seq<CanalEvent>)
    requires StrictlyAfter(log, Select(re, f, pending + Received([])))
    ensures StrictPuts(log, Kept(re, f, Batches([], pending)))
  {
    hide Select, StrictlyAfter;
    assert pending + Received([]) == pending;
    KeptCons(re, f, pending, []);
    StrictPutsCons(log, Select(re, f, pending), []);
    assert [Select(re, f, pending)] + [] == [Select(re, f, pending)];
  }

  lemma KeptCons(re: Regexes, f: FilterPattern, b: seq<CanalEvent>, batches: seq<seq<CanalEvent>>)
    ensures Kept(re, f, [b] + batches) == KeptOf(re, f, b) + Kept(re, f, batches)
    ensures Kept(re, f, []) == [] && Kept(re, f, [b]) == KeptOf(re, f, b)
  {
    hide KeptOf;
    assert ([b] + batches)[1..] == batches && [b][1..] == [];
  }

  /** One flush. */
  lemma {:induction false} FlushStrictIff(re: Regexes, f: FilterPattern, rest: seq<Input>, batch: seq<CanalEvent>,
                                          log: seq<CanalEvent>)
    requires Sorted(Select(re, f, batch) + Select(re, f, Received(rest)))
    requires StrictlyAfter(log, Select(re, f, batch) + Select(re, f, Received(rest)))
    ensures StrictPuts(log, KeptOf(re, f, batch) + Kept(re, f, Batches(rest, [])))
       <==> Apart(re, f, batch, Received(rest)) && CutsNoGroup(re, f, rest, [])
    decreases |rest| + 1, 0
  {
    hide Select, EventKey, Flatten, Received, Sorted, StrictPuts, StrictlyAfter, Apart, Batches, CutsNoGroup, Kept;
    var p, q, puts := Select(re, f, batch), Select(re, f, Received(rest)), Kept(re, f, Batches(rest, []));
    assert [] + Received(rest) == Received(rest);
    RestSorted(p, q);
    if p == [] {
      assert p + q == q && [] + puts == puts;
      NothingApart(re, f, batch, Received(rest));
      PutsStrictIff(re, f, rest, [], log);
    } else {
      ApartIff(re, f, log, batch, Received(rest));
      StrictPutsCons(log, p, puts);
      FirstIsStrict(log, p, q);
      if StrictlyAfter(log + p, q) {
        PutsStrictIff(re, f, rest, [], log + p);
      } else if StrictPuts(log + p, puts) {
        KeptConserves(re, f, Batches(rest, []));
        BatchesConserve(rest, []);
        StrictPutsFirst(log + p, puts);
      }
    }
  }

  lemma RestSorted(p: seq<CanalEvent>, q: seq<CanalEvent>)
    requires Sorted(p + q)
    ensures Sorted(q)
  {
    hide EventKey;
    assert (p + q)[|p|..] == q;
    SortedSuffix(p + q, |p|);
  }

  lemma NothingApart(re: Regexes, f: FilterPattern, a: seq<CanalEvent>, b: seq<CanalEvent>)
    requires Select(re, f, a) == []
    ensures Apart(re, f, a, b)
  {
    hide Passes, EventKey, Select;
    forall x | x in a && Passes(re, f, x) ensures false {
      SelectMembers(re, f, a, x);
    }
  }

  lemma FirstIsStrict(log: seq<CanalEvent>, p: seq<CanalEvent>, q: seq<CanalEvent>)
    requires p != [] && StrictlyAfter(log, p + q)
    ensures StrictlyAfter(log, p)
  {
    hide EventKey;
  }

  /** A filter that everything passes. */
  const ALL := Regexes(_ => true, (_, _) => true)

  lemma {:induction false} AllPass(f: FilterPattern, s: seq<CanalEvent>)
    requires f.blackList == ""
    ensures Select(ALL, f, s) == s
  {
    if s != [] {
      AllPass(f, s[1..]);
    }
  }

  lemma {:induction false} AllKept(f: FilterPattern, batches: seq<seq<CanalEvent>>)
    requires f.blackList == "" && [] !in batches
    ensures Kept(ALL, f, batches) == batches
  {
    hide Select;
    if batches != [] {
      assert batches[0] in batches && forall b | b in batches[1..] :: b in batches;
      AllPass(f, batches[0]);
      AllKept(f, batches[1..]);
      assert batches == [batches[0]] + batches[1..];
    }
  }

  /** For the fed batches themselves: each comes strictly after all that were fed before if and only if no
      flush stands between two events of one key. */
  lemma FedStrictIff(inputs: seq<Input>, pending: seq<CanalEvent>)
    requires |pending| < BATCH_LIMIT && Sorted(pending + Received(inputs))
    ensures StrictPuts([], Batches(inputs, pending)) <==> CutsNoGroup(ALL, DEFAULT_FILTER, inputs, pending)
  {
    hide Select, Sorted, StrictPuts, Batches, CutsNoGroup;
    AllPass(DEFAULT_FILTER, pending + Received(inputs));
    PutsStrictIff(ALL, DEFAULT_FILTER, inputs, pending, []);
    if [] in Batches(inputs, pending) {
      BatchSizes(inputs, pending, []);
    }
    AllKept(DEFAULT_FILTER, Batches(inputs, pending));
  }

  /** A timer tick between two events of one key splits their group over two puts. */
  lemma TickSplitsGroup(a: CanalEvent, b: CanalEvent)
    requires EventKey(a) == EventKey(b)
    ensures Batches([Message(Ok(a)), Tick, Message(Ok(b))], []) == [[a], [b]]
    ensures !StrictlyAfter([a], [b])
  {
    hide BinlogSuffix, EventKey;
    var inputs := [Message(Ok(a)), Tick, Message(Ok(b))];
    assert inputs[1..] == [Tick, Message(Ok(b))] && inputs[1..][1..] == [Message(Ok(b))];
    assert [Message(Ok(b))][1..] == [] && [] + [a] == [a] && [] + [b] == [b];
    assert Batches([Message(Ok(b))], []) == Batches([], [b]) == [[b]];
    assert Batches([Tick, Message(Ok(b))], [a]) == [[a]] + [[b]];
  }

  // -- The sink -------------------------------------------------------------

  class DefaultEventSink {
    const re: Regexes
    const filter: FilterPattern
    const store: MemoryEventStore
    const connectors: nat
    /** Batches waiting for the dispatch worker. */
    var queue: seq<seq<CanalEvent>>
    /** What each connector has been handed. */
    var handed: seq<seq<seq<CanalEvent>>>
    var parsed: nat
    var filteredOut: nat
    /** The batches put into the store. */
    ghost var stored: seq<seq<CanalEvent>>

    ghost predicate Valid()
      reads this, store
    {
      && re.valid(filter.pattern) && (filter.blackList != "" ==> re.valid(filter.blackList))
      && store.Valid() && store.Ordered()
      && |handed| == connectors
      && parsed == filteredOut + |Flatten(stored)|
      && (connectors == 0 ==> queue == [])
      && forall c | 0 <= c < connectors :: handed[c] + queue == stored
    }

    constructor (re: Regexes, filter: FilterPattern, store: MemoryEventStore, connectors: nat)
      requires re.valid(filter.pattern) && (filter.blackList != "" ==> re.valid(filter.blackList))
      requires store.Valid() && store.Ordered()
      ensures Valid() && stored == []
      ensures this.re == re && this.filter == filter && this.store == store && this.connectors == connectors
    {
      this.re, this.filter, this.store, this.connectors := re, filter, store, connectors;
      queue := [];
      handed := seq(connectors, _ => []);
      parsed, filteredOut := 0, 0;
      stored := [];
    }

    /** Filter, store, and queue for the connectors: the stored part of the log grows by exactly the
        events that pass, and by nothing when none does. */
    method Sink(events: seq<CanalEvent>) returns (batchId: nat)
      requires Valid()
      requires FitsAfter(store.log, Select(re, filter, events))
      modifies this, store
      ensures Valid()
      ensures
        var kept := Select(re, filter, events);
        && store.log == old(store.log) + kept
        && stored == old(stored) + KeptOf(re, filter, events)
        && parsed == old(parsed) + |events|
        && batchId == if kept == [] then 0 else old(store.batchIdSeq)
    {
      hide FitsAfter, Passes, Select, Flatten, Sorted, BinlogSuffix;
      parsed := parsed + |events|;
      var filtered := Select(re, filter, events);
      SelectShorter(re, filter, events);
      filteredOut := filteredOut + |events| - |filtered|;
      if filtered == [] {
        assert store.log + filtered == store.log;
        return 0;
      }
      batchId := store.PutBatch(filtered);
      FlattenSnoc(stored, filtered);
      forall c | 0 <= c < connectors
        ensures handed[c] + (queue + [filtered]) == stored + [filtered]
      {
        assert handed[c] + (queue + [filtered]) == handed[c] + queue + [filtered];
      }
      stored := stored + [filtered];
      if connectors > 0 {
        queue := queue + [filtered];
      }
    }

    /** One round of the dispatch worker: the oldest batch goes to every connector. */
    method DispatchOne()
      requires Valid() && queue != []
      modifies this`queue, this`handed
      ensures Valid()
      ensures queue == old(queue)[1..]
    {
      var req := queue[0];
      queue := queue[1..];
      for c := 0 to connectors
        invariant queue == old(queue)[1..] && |handed| == connectors
        invariant forall k | 0 <= k < c :: handed[k] == old(handed)[k] + [req]
        invariant forall k | c <= k < connectors :: handed[k] == old(handed)[k]
      {
        handed := handed[c := handed[c] + [req]];
      }
      forall c | 0 <= c < connectors
        ensures handed[c] + queue == stored
      {
        assert old(handed)[c] + [req] + queue == old(handed)[c] + old(queue);
      }
    }

    /** The worker catches up: every connector has been handed the stored batches, in the order in
        which they were stored. */
    method DispatchAll()
      requires Valid()
      modifies this`queue, this`handed
      ensures Valid()
      ensures forall c | 0 <= c < connectors :: handed[c] == stored
    {
      while queue != []
        invariant Valid()
        decreases |queue|
      {
        DispatchOne();
      }
      assert forall c | 0 <= c < connectors :: handed[c] == handed[c] + queue;
    }
  }

  /** What the sink keeps: the events whose schema and table, joined by a dot, are matched by its pattern and
      not by its black list, if it has one. */
  lemma {:induction false} SinkKeeps(re: Regexes, f: FilterPattern, events: seq<CanalEvent>)
    requires re.valid(f.pattern) && (f.blackList != "" ==> re.valid(f.blackList))
    ensures Select(re, f, events) ==
            Keep((e: CanalEvent) =>
                   && re.isMatch(f.pattern, e.schemaName + "." + e.tableName)
                   && !(f.blackList != "" && re.isMatch(f.blackList, e.schemaName + "." + e.tableName)),
                 events)
  {
    if events != [] {
      SinkKeeps(re, f, events[1..]);
    }
  }

  lemma {:induction false} SelectShorter(re: Regexes, f: FilterPattern, s: seq<CanalEvent>)
    ensures |Select(re, f, s)| <= |s|
  {
    if s != [] {
      SelectShorter(re, f, s[1..]);
    }
  }

  lemma FlattenSnoc(batches: seq<seq<CanalEvent>>, b: seq<CanalEvent>)
    ensures Flatten(batches + [b]) == Flatten(batches) + b
  {
    FlattenConcat(batches, [b]);
    FlattenCons(b, []);
  }

  // -- The batching loop ----------------------------------------------------

  /** The sink before the loop started. */
  datatype SinkState = SinkState(log: seq<CanalEvent>, stored: seq<seq<CanalEvent>>, parsed: nat)

  /** What the loop has done to the sink by feeding `fed`. */
  ghost predicate FedSoFar(sink: DefaultEventSink, before: SinkState, fed: seq<seq<CanalEvent>>)
    reads sink, sink.store
  {
    && sink.store.log == before.log + Select(sink.re, sink.filter, Flatten(fed))
    && sink.stored == before.stored + Kept(sink.re, sink.filter, fed)
    && sink.parsed == before.parsed + |Flatten(fed)|
  }

  lemma FedSoFarMeans(sink: DefaultEventSink, before: SinkState, fed: seq<seq<CanalEvent>>)
    requires FedSoFar(sink, before, fed)
    ensures sink.store.log == before.log + Select(sink.re, sink.filter, Flatten(fed))
    ensures sink.stored == before.stored + Kept(sink.re, sink.filter, fed)
    ensures sink.parsed == before.parsed + |Flatten(fed)|
  {
  }

  lemma FeedFits(re: Regexes, f: FilterPattern, log: seq<CanalEvent>, fed: seq<seq<CanalEvent>>,
                 batch: seq<CanalEvent>, later: seq<CanalEvent>)
    requires Sorted(log + (Flatten(fed) + (batch + later)))
    ensures FitsAfter(log + Select(re, f, Flatten(fed)), Select(re, f, batch))
    ensures Flatten(fed + [batch]) == Flatten(fed) + batch
    ensures log + Select(re, f, Flatten(fed)) + Select(re, f, batch) == log + Select(re, f, Flatten(fed) + batch)
  {
    hide BinlogSuffix, Passes, FitsAfter, Select, Flatten;
    var early := Flatten(fed);
    var all := log + (early + (batch + later));
    assert log + (early + batch) == all[..|log| + |early| + |batch|];
    SelectFits(re, f, log, early, batch);
    SelectConcat(re, f, early, batch);
    FlattenSnoc(fed, batch);
  }

  /** `CanalInstance::feed` of a running instance. */
  method Feed(sink: DefaultEventSink, batch: seq<CanalEvent>, ghost before: SinkState,
              ghost fed: seq<seq<CanalEvent>>, ghost later: seq<CanalEvent>)
    requires sink.Valid() && FedSoFar(sink, before, fed)
    requires Sorted(before.log + (Flatten(fed) + (batch + later)))
    modifies sink, sink.store
    ensures sink.Valid() && FedSoFar(sink, before, fed + [batch])
    ensures Flatten(fed + [batch]) == Flatten(fed) + batch
  {
    hide DefaultEventSink.Valid, Select, Flatten, Kept, KeptOf, FitsAfter, Sorted, Passes, EventKey;
    FeedFits(sink.re, sink.filter, before.log, fed, batch, later);
    KeptSnoc(sink.re, sink.filter, fed, batch);
    ghost var kept, more := Kept(sink.re, sink.filter, fed), KeptOf(sink.re, sink.filter, batch);
    assert before.stored + kept + more == before.stored + (kept + more);
    var _ := sink.Sink(batch);
  }

  lemma NothingFedYet(inputs: seq<Input>, sink: DefaultEventSink, before: SinkState)
    requires before == SinkState(sink.store.log, sink.stored, sink.parsed)
    ensures FedSoFar(sink, before, [])
    ensures [] + Batches(inputs[0..], []) == Batches(inputs, [])
    ensures Flatten([]) + ([] + Received(inputs[0..])) == Received(inputs)
  {
    hide Batches, Received;
    assert inputs[0..] == inputs;
  }

  /** What one input does to the batches and events still to come. */
  lemma OneInput(inputs: seq<Input>, i: nat, pending: seq<CanalEvent>)
    requires i < |inputs| && |pending| < BATCH_LIMIT
    ensures
      var rest, batch, full := inputs[i + 1..], Grow(pending, inputs[i]), Flushes(pending, inputs[i]);
      && pending + Received(inputs[i..]) == batch + Received(rest)
      && Batches(inputs[i..], pending) == (if full then [batch] + Batches(rest, []) else Batches(rest, batch))
      && (full ==> batch != [])
      && (!full ==> |batch| < BATCH_LIMIT)
  {
    assert inputs[i..][0] == inputs[i] && inputs[i..][1..] == inputs[i + 1..];
  }

  lemma AllInputsRead(inputs: seq<Input>, pending: seq<CanalEvent>)
    ensures Received(inputs[|inputs|..]) == []
    ensures Batches(inputs[|inputs|..], pending) == if pending == [] then [] else [pending]
  {
  }

  /** The receive, batch and flush loop of the server process over the connector's messages. If the
      events arrive in key order, the order that `put_batch` asserts holds at every single put, for
      every timing of the flushes, and the store has taken exactly the events that pass the filter. */
  method RunServer(inputs: seq<Input>, sink: DefaultEventSink) returns (fed: seq<seq<CanalEvent>>)
    requires sink.Valid()
    requires Sorted(sink.store.log + Received(inputs))
    modifies sink, sink.store
    ensures sink.Valid()
    ensures fed == Batches(inputs, [])
    ensures sink.store.log == old(sink.store.log) + Select(sink.re, sink.filter, Received(inputs))
    ensures sink.stored == old(sink.stored) + Kept(sink.re, sink.filter, fed)
    ensures sink.parsed == old(sink.parsed) + |Received(inputs)|
  {
    hide BinlogSuffix, Passes, Sorted, FitsAfter, Select, Flatten, Received, Batches, Grow, Flushes, Kept, KeptOf,
      FedSoFar, DefaultEventSink.Valid;
    var batch: seq<CanalEvent> := [];
    fed := [];
    ghost var before := SinkState(sink.store.log, sink.stored, sink.parsed);
    NothingFedYet(inputs, sink, before);
    for i := 0 to |inputs|
      invariant sink.Valid() && FedSoFar(sink, before, fed)
      invariant |batch| < BATCH_LIMIT
      invariant fed + Batches(inputs[i..], batch) == Batches(inputs, [])
      invariant Flatten(fed) + (batch + Received(inputs[i..])) == Received(inputs)
    {
      ghost var rest := inputs[i + 1..];
      OneInput(inputs, i, batch);
      var full := Flushes(batch, inputs[i]);
      batch := Grow(batch, inputs[i]);
      if full {
        Feed(sink, batch, before, fed, Received(rest));
        assert fed + ([batch] + Batches(rest, [])) == fed + [batch] + Batches(rest, []);
        assert Flatten(fed) + (batch + Received(rest)) == Flatten(fed + [batch]) + ([] + Received(rest));
        fed := fed + [batch];
        batch := [];
      }
    }
    AllInputsRead(inputs, batch);
    if batch != [] {
      Feed(sink, batch, before, fed, []);
      fed := fed + [batch];
    }
    assert Flatten(fed) == Received(inputs);
    FedSoFarMeans(sink, before, fed);
  }
}
