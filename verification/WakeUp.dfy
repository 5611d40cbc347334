/** The waiting loop of `get_batch` against concurrent puts, step by step.

    A reader creates its `notified` future, then locks the buffer and looks for a batch, and waits on
    the future if there is none. A writer locks, changes the buffer, calls `notify_waiters` and unlocks.
    `notify_waiters` wakes every future that exists when it is called, polled or not, so a future is
    modelled by the number of notifications given before it was created. */
module WakeUp {
  import opened CanalTypes
  import opened EventLog

  datatype Phase =
    | Starting               // about to create a future
    | Armed(since: nat)      // future created, buffer not looked at yet
    | Empty(since: nat)      // looked under the lock and found nothing
    | Waiting(since: nat)    // asleep on the future
    | Served(batch: seq<CanalEvent>)   // has returned; empty after a timeout

  /** A reader's cursor and batch size do not change while it waits. */
  datatype Reader = Reader(start: LogPosition, size: nat, phase: Phase)

  datatype Holder = Free | Locked | Changed | Notified

  datatype State = State(
    buffer: seq<CanalEvent>,
    notifications: nat,
    writer: Holder,
    readers: map<nat, Reader>)

  /** Would a read of the buffer return a batch to this cursor? */
  predicate Available(buffer: seq<CanalEvent>, start: LogPosition) {
    StartIndex(buffer, start) < |buffer|
  }

  lemma AvailableIsRead(buffer: seq<CanalEvent>, start: LogPosition, size: nat)
    ensures Available(buffer, start) <==> Read(buffer, start, size) != []
  {
    hide StartIndex, ReadEnd;
  }

  datatype Step =
    | Arrive(id: nat, start: LogPosition, size: nat)
    | Create(id: nat)
    | Check(id: nat)
    | Sleep(id: nat)
    | Wake(id: nat)
    | TimeOut(id: nat)
    | Lock
    | Change(buffer: seq<CanalEvent>)
    | Notify
    | Unlock

  function WithPhase(s: State, id: nat, phase: Phase): State
    requires id in s.readers
  {
    s.(readers := s.readers[id := s.readers[id].(phase := phase)])
  }

  /** One step; a step that is not enabled changes nothing. `createFirst` is the order the store uses;
      with `false` the future would be created only after the buffer had been looked at. */
  function Apply(createFirst: bool, s: State, step: Step): State {
    match step
    case Arrive(id, start, size) =>
      if id in s.readers then s
      else s.(readers := s.readers[id := Reader(start, size, if createFirst then Starting else Armed(0))])
    case Create(id) =>
      if id !in s.readers then s
      else if createFirst && s.readers[id].phase == Starting then WithPhase(s, id, Armed(s.notifications))
      else if !createFirst && s.readers[id].phase.Empty? then WithPhase(s, id, Waiting(s.notifications))
      else s
    case Check(id) =>
      if id in s.readers && s.readers[id].phase.Armed? && s.writer == Free then
        var batch := Read(s.buffer, s.readers[id].start, s.readers[id].size);
        WithPhase(s, id, if batch != [] then Served(batch) else Empty(s.readers[id].phase.since))
      else s
    case Sleep(id) =>
      if createFirst && id in s.readers && s.readers[id].phase.Empty? then
        WithPhase(s, id, Waiting(s.readers[id].phase.since))
      else s
    case Wake(id) =>
      if id in s.readers && s.readers[id].phase.Waiting? && s.readers[id].phase.since < s.notifications then
        WithPhase(s, id, if createFirst then Starting else Armed(0))
      else s
    case TimeOut(id) =>
      if id in s.readers && s.readers[id].phase.Waiting? then WithPhase(s, id, Served([])) else s
    case Lock => if s.writer == Free then s.(writer := Locked) else s
    case Change(buffer) => if s.writer == Locked then s.(buffer := buffer, writer := Changed) else s
    case Notify => if s.writer == Changed then s.(notifications := s.notifications + 1, writer := Notified) else s
    case Unlock => if s.writer == Notified then s.(writer := Free) else s
  }

  function Run(createFirst: bool, s: State, steps: seq<Step>): State
    decreases |steps|
  {
    if steps == [] then s
    else Run(createFirst, Apply(createFirst, s, steps[0]), steps[1..])
  }

  const INITIAL := State([], 0, Free, map[])

  /** Asleep, and no notification has been given since its future was created. */
  predicate Stuck(s: State, id: nat) {
    && id in s.readers
    && s.readers[id].phase.Waiting?
    && s.readers[id].phase.since >= s.notifications
  }

  /** A reader that has looked and was not notified since has nothing to read, except inside the
      window between a writer's change and its notification. */
  ghost predicate Inv(s: State) {
    forall id | id in s.readers ::
      var phase := s.readers[id].phase;
      && (phase.Armed? || phase.Empty? || phase.Waiting? ==> phase.since <= s.notifications)
      && ((phase.Empty? || phase.Waiting?) && phase.since == s.notifications && s.writer != Changed ==>
            !Available(s.buffer, s.readers[id].start))
  }

  lemma StepKeepsInv(s: State, step: Step)
    requires Inv(s)
    ensures Inv(Apply(true, s, step))
  {
    hide Available, Read;
    if step.Check? && step.id in s.readers {
      AvailableIsRead(s.buffer, s.readers[step.id].start, s.readers[step.id].size);
    }
  }

  lemma {:induction false} RunKeepsInv(s: State, steps: seq<Step>)
    requires Inv(s)
    ensures Inv(Run(true, s, steps))
    decreases |steps|
  {
    if steps != [] {
      StepKeepsInv(s, steps[0]);
      RunKeepsInv(Apply(true, s, steps[0]), steps[1..]);
    }
  }

  /** No lost wakeup: in every reachable state, a reader asleep without a pending notification has
      nothing to read, unless a writer still holds the lock between its change and its notification. */
  lemma NoLostWakeup(steps: seq<Step>, id: nat)
    ensures
      var s := Run(true, INITIAL, steps);
      Stuck(s, id) && Available(s.buffer, s.readers[id].start) ==> s.writer == Changed
  {
    RunKeepsInv(INITIAL, steps);
  }

  /** And that writer's next step wakes it: after the notification nobody is stuck, whatever the
      buffer holds. */
  lemma NotifyWakesEveryone(steps: seq<Step>, id: nat)
    requires Run(true, INITIAL, steps).writer == Changed
    ensures !Stuck(Apply(true, Run(true, INITIAL, steps), Notify), id)
  {
    RunKeepsInv(INITIAL, steps);
  }

  // -- How a call ends ------------------------------------------------------

  /** What ends a call: a look under the lock that finds a batch, which is then what the call returns, or a
      timeout, which returns nothing. */
  predicate Ends(s: State, step: Step, id: nat, batch: seq<CanalEvent>) {
    && id in s.readers
    && if batch == [] then step == TimeOut(id) && s.readers[id].phase.Waiting?
       else
         && step == Check(id) && s.readers[id].phase.Armed? && s.writer == Free
         && Available(s.buffer, s.readers[id].start)
         && batch == Read(s.buffer, s.readers[id].start, s.readers[id].size)
  }

  /** A step ends a call in no other way, and a call that has ended stays as it is. */
  lemma StepEndsCall(s: State, step: Step, id: nat)
    requires id in Apply(true, s, step).readers && Apply(true, s, step).readers[id].phase.Served?
    ensures
      var batch := Apply(true, s, step).readers[id].phase.batch;
      (id in s.readers && s.readers[id].phase == Served(batch)) || Ends(s, step, id, batch)
  {
    hide Available, Read;
    if id in s.readers {
      AvailableIsRead(s.buffer, s.readers[id].start, s.readers[id].size);
    }
  }

  lemma {:induction false} RunSnoc(s: State, steps: seq<Step>, step: Step)
    ensures Run(true, s, steps + [step]) == Apply(true, Run(true, s, steps), step)
    decreases |steps|
  {
    hide Apply;
    if steps == [] {
      assert [] + [step] == [step] && [step][1..] == [];
      assert Run(true, s, [step]) == Run(true, Apply(true, s, step), []);
    } else {
      assert (steps + [step])[0] == steps[0] && (steps + [step])[1..] == steps[1..] + [step];
      RunSnoc(Apply(true, s, steps[0]), steps[1..], step);
    }
  }

  /** In every run a call that has ended did so at some step, by looking and finding what it returns, or by
      timing out: being woken is not enough. */
  lemma {:induction false} CallsEndByLooking(steps: seq<Step>, id: nat)
    requires id in Run(true, INITIAL, steps).readers && Run(true, INITIAL, steps).readers[id].phase.Served?
    ensures
      exists k :: 0 <= k < |steps|
        && Ends(Run(true, INITIAL, steps[..k]), steps[k], id, Run(true, INITIAL, steps).readers[id].phase.batch)
    decreases |steps|
  {
    hide Apply, Ends;
    if steps == [] {
      assert false;
    } else {
      var n := |steps| - 1;
      var front := steps[..n];
      assert steps == front + [steps[n]];
      RunSnoc(INITIAL, front, steps[n]);
      var s, batch := Run(true, INITIAL, front), Run(true, INITIAL, steps).readers[id].phase.batch;
      StepEndsCall(s, steps[n], id);
      if !Ends(s, steps[n], id, batch) {
        CallsEndByLooking(front, id);
        var k :| 0 <= k < |front| && Ends(Run(true, INITIAL, front[..k]), front[k], id, batch);
        assert steps[..k] == front[..k] && steps[k] == front[k];
      }
    }
  }

  /** What a call has asked for it keeps asking for, however often it is woken. */
  lemma {:induction false} RequestIsKept(s: State, steps: seq<Step>, id: nat, start: LogPosition, size: nat)
    requires id in s.readers && s.readers[id].start == start && s.readers[id].size == size
    ensures
      var s' := Run(true, s, steps);
      id in s'.readers && s'.readers[id].start == start && s'.readers[id].size == size
    decreases |steps|
  {
    hide Read;
    if steps != [] {
      RequestIsKept(Apply(true, s, steps[0]), steps[1..], id, start, size);
    }
  }

  lemma CallAsks(s: State, steps: seq<Step>, id: nat, start: LogPosition, size: nat)
    requires id !in s.readers
    ensures
      var s' := Run(true, s, [Arrive(id, start, size)] + steps);
      id in s'.readers && s'.readers[id].start == start && s'.readers[id].size == size
  {
    RunOne(true, s, Arrive(id, start, size), steps);
    RequestIsKept(Apply(true, s, Arrive(id, start, size)), steps, id, start, size);
  }

  /** And a call that sleeps while there is something to read, with the lock free, is served it: it has been
      notified, wakes, looks again and returns the batch. */
  lemma WokenReaderIsServed(steps: seq<Step>, id: nat)
    requires
      var s := Run(true, INITIAL, steps);
      && id in s.readers && s.readers[id].phase.Waiting? && s.writer == Free
      && Available(s.buffer, s.readers[id].start)
    ensures
      var s := Run(true, INITIAL, steps);
      var batch := Read(s.buffer, s.readers[id].start, s.readers[id].size);
      && batch != []
      && Run(true, s, [Wake(id)] + ([Create(id)] + ([Check(id)] + []))) ==
         s.(readers := s.readers[id := s.readers[id].(phase := Served(batch))])
  {
    NoLostWakeup(steps, id);
    var s := Run(true, INITIAL, steps);
    assert !Stuck(s, id);
    AvailableIsRead(s.buffer, s.readers[id].start, s.readers[id].size);
    hide Run, Available, Read;
    LookAgain(s, id);
  }

  lemma LookAgain(s: State, id: nat)
    requires id in s.readers && s.readers[id].phase.Waiting? && s.readers[id].phase.since < s.notifications
    requires s.writer == Free && Read(s.buffer, s.readers[id].start, s.readers[id].size) != []
    ensures
      var batch := Read(s.buffer, s.readers[id].start, s.readers[id].size);
      Run(true, s, [Wake(id)] + ([Create(id)] + ([Check(id)] + []))) ==
        s.(readers := s.readers[id := s.readers[id].(phase := Served(batch))])
  {
    hide Run, Available, Read;
    var batch := Read(s.buffer, s.readers[id].start, s.readers[id].size);
    var s1 := WithPhase(s, id, Starting);
    var s2 := WithPhase(s, id, Armed(s.notifications));
    RunOne(true, s, Wake(id), [Create(id)] + ([Check(id)] + []));
    assert s1.readers[id := s1.readers[id].(phase := Armed(s.notifications))] == s2.readers;
    RunOne(true, s1, Create(id), [Check(id)] + []);
    assert s2.readers[id := s2.readers[id].(phase := Served(batch))] == WithPhase(s, id, Served(batch)).readers;
    RunOne(true, s2, Check(id), []);
    RunNone(true, WithPhase(s, id, Served(batch)));
  }

  lemma RunOne(createFirst: bool, s: State, step: Step, rest: seq<Step>)
    ensures Run(createFirst, s, [step] + rest) == Run(createFirst, Apply(createFirst, s, step), rest)
  {
    hide Apply;
    assert ([step] + rest)[1..] == rest;
  }

  lemma RunNone(createFirst: bool, s: State)
    ensures Run(createFirst, s, []) == s
  {
  }

  // -- The order of creation matters ----------------------------------------

  function PutThenCreate(e: CanalEvent): seq<Step> {
    [Lock, Change([e]), Notify, Unlock, Create(0)]
  }

  /** The order matters: if the future were created after the look at the buffer, a put in between
      would leave the reader asleep with an event waiting for it. */
  lemma LateFutureLosesWakeup(e: CanalEvent, start: LogPosition)
    requires Available([e], start)
    ensures
      var s := Run(false, INITIAL, [Arrive(0, start, 1), Check(0)] + PutThenCreate(e));
      Stuck(s, 0) && Available(s.buffer, start) && s.writer == Free
  {
    NothingAvailable(start);
    hide Available, Run;
    var s1 := Apply(false, INITIAL, Arrive(0, start, 1));
    var s2 := Apply(false, s1, Check(0));
    assert s2.readers[0] == Reader(start, 1, Empty(0));
    RunOne(false, INITIAL, Arrive(0, start, 1), [Check(0)] + PutThenCreate(e));
    RunOne(false, s1, Check(0), PutThenCreate(e));
    PutThenSleep(e, s2);
    assert [Arrive(0, start, 1)] + ([Check(0)] + PutThenCreate(e)) ==
           [Arrive(0, start, 1), Check(0)] + PutThenCreate(e);
  }

  lemma NothingAvailable(start: LogPosition)
    ensures !Available([], start) && Read([], start, 1) == []
  {
  }

  lemma PutThenSleep(e: CanalEvent, s: State)
    requires s.writer == Free && 0 in s.readers && s.readers[0].phase == Empty(s.notifications)
    ensures
      var t := Run(false, s, PutThenCreate(e));
      Stuck(t, 0) && t.buffer == [e] && t.writer == Free && t.readers[0].start == s.readers[0].start
  {
    hide Available, Run;
    assert PutThenCreate(e) == [Lock] + ([Change([e])] + ([Notify] + ([Unlock] + ([Create(0)] + []))));
    RunOne(false, s, Lock, [Change([e])] + ([Notify] + ([Unlock] + ([Create(0)] + []))));
    var changed := s.(buffer := [e], writer := Changed);
    RunOne(false, s.(writer := Locked), Change([e]), [Notify] + ([Unlock] + ([Create(0)] + [])));
    RunOne(false, changed, Notify, [Unlock] + ([Create(0)] + []));
    var notified := changed.(notifications := s.notifications + 1, writer := Notified);
    RunOne(false, notified, Unlock, [Create(0)] + []);
    RunOne(false, notified.(writer := Free), Create(0), []);
    RunNone(false, WithPhase(notified.(writer := Free), 0, Waiting(notified.notifications)));
  }
}
