/** The server process as objects: the store, the session table and one connection at a time. Each of its
    methods is a step of the session machine, so that what is proved of the runs of the machine holds of
    the handlers as the server runs them. */
module Server {
  import opened CanalTypes
  import opened JournalOrder
  import opened EventLog
  import opened MemoryStore
  import opened Conversion
  import opened Session
  import opened SessionRuns
  import opened SessionSafety

  class ServerProcess {
    const store: MemoryEventStore
    const sessions: SessionManager
    var client: ClientState
    var tx: Transport
    var open: bool
    var waiting: Option<Wait>
    /** The batches answered on the connection. */
    ghost var served: seq<Served>

    ghost function Value(): System
      reads this, store, sessions, client, tx
    {
      System(store.log, store.capacity, store.batchIdSeq, sessions.sessions, open, client.Value(), waiting, tx.sent,
        served)
    }

    ghost predicate Valid()
      reads this, store
    {
      store.Valid() && store.Ordered()
    }

    constructor (capacity: nat)
      requires capacity > 0
      ensures Valid() && Value() == Start(capacity)
      ensures fresh(store) && fresh(sessions) && fresh(client) && fresh(tx)
    {
      store := new MemoryEventStore(capacity);
      sessions := new SessionManager();
      client := new ClientState();
      tx := new Transport();
      open, waiting, served := false, None, [];
    }

    /** A put by the feeder, in order. */
    method Put(cfg: Config, events: seq<CanalEvent>)
      requires Valid() && FitsAfter(store.log, events)
      modifies store
      ensures Valid() && Value() == Apply(cfg, old(Value()), Step.Put(events))
    {
      hide FitsAfter, Window, Watermark, Sorted;
      var _ := store.PutBatch(events);
      assert store.log == old(store.log) + events;
    }

    /** A read by another connection takes a batch id. */
    method OtherClientReads(cfg: Config)
      requires Valid()
      modifies store
      ensures Valid() && Value() == Apply(cfg, old(Value()), Step.OtherClientReads)
    {
      if store.buffer != [] {
        store.batchIdSeq := store.batchIdSeq + 1;
      }
    }

    /** Another connection registers, unregisters or acks. */
    method OtherSessions(cfg: Config, others: Sessions)
      requires Valid() && LeavesOwnSession(Value(), others)
      modifies sessions
      ensures Valid() && Value() == Apply(cfg, old(Value()), Step.OtherSessions(others))
    {
      sessions.sessions := others;
    }

    method Connect(cfg: Config)
      requires Valid()
      modifies this
      ensures Valid() && Value() == Apply(cfg, old(Value()), Step.Connect)
      ensures client == old(client) || fresh(client)
      ensures tx == old(tx) || fresh(tx)
    {
      if open {
        return;
      }
      client := new ClientState();
      tx := new Transport();
      open, waiting, served := true, None, [];
    }

    /** One pass of the packet loop. */
    method Receive(cfg: Config, frame: Frame)
      requires Valid()
      modifies this`open, this`waiting, client, sessions, tx
      ensures Valid() && Value() == Apply(cfg, old(Value()), Step.Receive(frame))
    {
      hide Handle, Watermark, FitsAfter, MemoryEventStore.Valid, MemoryEventStore.Ordered;
      if !open || waiting.Some? {
        return;
      }
      var ok, reading := client.HandleFrame(cfg, frame, store, sessions, tx);
      open := ok;
      if reading.Some? {
        waiting := Some(Wait(reading.value.0, reading.value.1));
      }
    }

    /** The read that a Get waits for, if the store has something by now. */
    method Serve(cfg: Config)
      requires Valid()
      modifies this`open, this`waiting, this`served, client, tx, store`batchIdSeq
      ensures Valid() && Value() == Apply(cfg, old(Value()), Step.Serve)
    {
      hide Apply, GetOutcome, Read, Window, BoundedFrom, BoundedTo, ServedNow, Sorted, Watermark;
      if !open || waiting.None? {
        NothingToServe(cfg, Value());
        return;
      }
      var w := waiting.value;
      ghost var s := Value();
      ServeIs(cfg, s);
      var done, ok := client.FinishGet(cfg, w.start, w.size, false, store, sessions, tx);
      if done {
        if ok {
          served := served + [ServedNow(s)];
        }
        open, waiting := ok, None;
      }
    }

    /** Nothing came in time. */
    method TimeOut(cfg: Config)
      requires Valid()
      modifies this`waiting, tx
      ensures Valid() && Value() == Apply(cfg, old(Value()), Step.TimeOut)
    {
      if open && waiting.Some? {
        tx.Send(Messages(0, []));
        waiting := None;
      }
    }

    /** The stream ends, or the client has been idle for too long. */
    method Hangup(cfg: Config)
      requires Valid()
      modifies this`open, sessions
      ensures Valid() && Value() == Apply(cfg, old(Value()), Step.Hangup)
    {
      if open && waiting.None? {
        open := false;
        if client.clientId.Some? {
          sessions.Unregister(client.clientId.value);
        }
      }
    }

    /** A send fails. */
    method Abort(cfg: Config)
      requires Valid()
      modifies this`open
      ensures Valid() && Value() == Apply(cfg, old(Value()), Step.Abort)
    {
      open := false;
    }

    method Perform(cfg: Config, step: Step)
      requires Valid() && Enabled(Value(), step)
      modifies this, store, sessions, client, tx
      ensures Valid() && Value() == Apply(cfg, old(Value()), step)
      ensures client == old(client) || fresh(client)
      ensures tx == old(tx) || fresh(tx)
    {
      hide Apply, MemoryEventStore.Valid, MemoryEventStore.Ordered;
      match step
      case Put(events) => Put(cfg, events);
      case OtherClientReads => OtherClientReads(cfg);
      case OtherSessions(others) => OtherSessions(cfg, others);
      case Connect => Connect(cfg);
      case Receive(frame) => Receive(cfg, frame);
      case Serve => Serve(cfg);
      case TimeOut => TimeOut(cfg);
      case Hangup => Hangup(cfg);
      case Abort => Abort(cfg);
    }

    /** Any schedule of these steps leaves the objects as the run of the machine says. */
    method PerformAll(cfg: Config, steps: seq<Step>)
      requires Valid() && AllEnabled(cfg, Value(), steps)
      modifies this, store, sessions, client, tx
      ensures Valid() && Value() == Run(cfg, old(Value()), steps)
    {
      hide Apply, Enabled, Valid, MemoryEventStore.Valid, MemoryEventStore.Ordered;
      ghost var s0 := Value();
      assert steps[0..] == steps;
      for i := 0 to |steps|
        invariant Valid()
        invariant client == old(client) || fresh(client)
        invariant tx == old(tx) || fresh(tx)
        invariant AllEnabled(cfg, Value(), steps[i..])
        invariant Run(cfg, s0, steps) == Run(cfg, Value(), steps[i..])
      {
        assert steps[i..][0] == steps[i] && steps[i..][1..] == steps[i + 1..];
        Perform(cfg, steps[i]);
      }
      assert steps[|steps|..] == [];
    }
  }

  /** Puts come in order, and other connections leave this client's session alone. */
  ghost predicate Enabled(s: System, step: Step) {
    && (step.Put? ==> FitsAfter(s.log, step.events))
    && (step.OtherSessions? ==> LeavesOwnSession(s, step.sessions))
  }

  ghost predicate AllEnabled(cfg: Config, s: System, steps: seq<Step>)
    decreases |steps|
  {
    steps != [] ==> Enabled(s, steps[0]) && AllEnabled(cfg, Apply(cfg, s, steps[0]), steps[1..])
  }

  /** What a read does to a connection with a Get that waits. */
  lemma ServeIs(cfg: Config, s: System)
    requires s.open && s.waiting.Some? && Sorted(s.log)
    ensures
      var w := s.waiting.value;
      var events := Read(Window(s.log, s.capacity), w.start, w.size);
      && (CanServe(s) <==> events != [])
      && Apply(cfg, s, Serve) ==
         if events == [] then s
         else
           var o := GetOutcome(cfg, s.conn, s.sessions, Some(WithEvents(events, s.nextId)));
           s.(conn := o.conn, out := s.out + o.replies, open := o.open, waiting := None, nextId := s.nextId + 1,
              served := if o.open then s.served + [ServedNow(s)] else s.served)
  {
    hide BoundedFrom, BoundedTo, Read, Window, EncodeEvents, ToSend, ServedNow, Apply;
    var w := s.waiting.value;
    BoundedRead(s.log, s.capacity, w.start, w.size);
    if CanServe(s) {
      ServeApplied(cfg, s);
    } else {
      NothingToServe(cfg, s);
    }
  }

  lemma NothingToServe(cfg: Config, s: System)
    requires !CanServe(s)
    ensures Apply(cfg, s, Serve) == s
  {
  }
}
