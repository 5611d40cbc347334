/** The bounded in-memory event store (canal-store), proved against the log it retains a window of. */
module MemoryStore {
  import opened CanalTypes
  import opened JournalOrder
  import opened EventLog

  /** A binary search: `slice::partition_point` over the entries at or before a cursor. */
  method PartitionPoint(s: seq<CanalEvent>, k: Key) returns (i: nat)
    requires Sorted(s)
    ensures i == FirstAfter(s, k)
  {
    hide BinlogSuffix;
    var lo, hi := 0, |s|;
    while lo < hi
      invariant 0 <= lo <= hi <= |s|
      invariant forall j | 0 <= j < lo :: AtMost(EventKey(s[j]), k)
      invariant hi < |s| ==> Before(k, EventKey(s[hi]))
    {
      var mid := lo + (hi - lo) / 2;
      if AtMost(EventKey(s[mid]), k) {
        forall j | lo <= j <= mid ensures AtMost(EventKey(s[j]), k) {
          assert AtMost(EventKey(s[j]), EventKey(s[mid]));
        }
        lo := mid + 1;
      } else {
        hi := mid;
      }
    }
    FirstAfterUnique(s, k, lo);
    i := lo;
  }

  /** `take_while` past the base slice: include the rest of the position group it ends in. */
  method ExtendGroup(s: seq<CanalEvent>, baseEnd: nat) returns (end: nat)
    requires 0 < baseEnd <= |s|
    ensures end == GroupEnd(s, baseEnd)
  {
    hide BinlogSuffix;
    var lastKey := EventKey(s[baseEnd - 1]);
    end := baseEnd;
    while end < |s| && EventKey(s[end]) == lastKey
      invariant baseEnd <= end <= |s|
      invariant EventKey(s[end - 1]) == lastKey
      invariant GroupEnd(s, end) == GroupEnd(s, baseEnd)
    {
      end := end + 1;
    }
  }

  function KeyOf(p: Option<LogPosition>): Option<Key> {
    if p.None? then None else Some(PosKey(p.value))
  }

  /** Is `pos` greater than the position recorded so far, if any? */
  predicate Exceeds(pos: LogPosition, current: Option<LogPosition>) {
    current.None? || Before(PosKey(current.value), PosKey(pos))
  }

  /** The watermark after a put that drains `drain` entries of the buffer and skips the first `skip`
      events of the batch. */
  function NextWatermark(
    watermark: Option<LogPosition>, buffer: seq<CanalEvent>, drain: nat, events: seq<CanalEvent>, skip: nat)
    : Option<LogPosition>
    requires drain <= |buffer| && skip <= |events|
  {
    var drained := if drain > 0 then Some(PositionOf(buffer[drain - 1])) else None;
    var evicted :=
      if skip > 0 && Exceeds(PositionOf(events[skip - 1]), drained) then Some(PositionOf(events[skip - 1]))
      else drained;
    if evicted.Some? && Exceeds(evicted.value, watermark) then evicted else watermark
  }

  /** Taking the larger of what was drained, what was truncated and what was recorded before yields
      the key of the last entry dropped, also when one put both drains and truncates. */
  lemma WatermarkFollowsDrops(log: seq<CanalEvent>, events: seq<CanalEvent>, capacity: nat,
                              watermark: Option<LogPosition>)
    requires capacity > 0 && Sorted(log) && FitsAfter(log, events)
    requires KeyOf(watermark) == Watermark(log, capacity)
    ensures
      var buffer := Window(log, capacity);
      var drain := DrainCount(|buffer|, |events|, capacity);
      var skip := SkipCount(|events|, capacity);
      KeyOf(NextWatermark(watermark, buffer, drain, events, skip)) == Watermark(log + events, capacity)
  {
    hide BinlogSuffix;
    SortedAppend(log, events);
    hide Sorted, FitsAfter, EventKey;
    var all := log + events;
    var buffer := Window(log, capacity);
    var d, d' := Dropped(log, capacity), Dropped(all, capacity);
    var drain := DrainCount(|buffer|, |events|, capacity);
    var skip := SkipCount(|events|, capacity);
    if d' > 0 {
      forall i | 0 <= i < d' ensures AtMost(EventKey(all[i]), EventKey(all[d' - 1])) {
        LaterIsAtMost(all, i, d' - 1);
      }
      assert drain > 0 ==> buffer[drain - 1] == all[d + drain - 1];
      assert skip > 0 ==> events[skip - 1] == all[d' - 1];
      assert d > 0 ==> log[d - 1] == all[d - 1];
    }
  }

  lemma LaterIsAtMost(s: seq<CanalEvent>, i: nat, j: nat)
    requires Sorted(s) && i <= j < |s|
    ensures AtMost(EventKey(s[i]), EventKey(s[j]))
  {
  }

  class MemoryEventStore {
    const capacity: nat
    var buffer: seq<CanalEvent>
    var batchIdSeq: nat
    var latestPosition: Option<LogPosition>
    var firstPosition: Option<LogPosition>
    var evictedWatermark: Option<LogPosition>
    /** Everything ever put. */
    ghost var log: seq<CanalEvent>

    /** The buffer is exactly the last `capacity` entries of the log, and the two positions are those
        of its ends. This needs no assumption on the order in which events are put. */
    ghost predicate Valid()
      reads this
    {
      && capacity > 0
      && buffer == Window(log, capacity)
      && latestPosition == (if log == [] then None else Some(PositionOf(log[|log| - 1])))
      && firstPosition == (if log == [] then None else Some(PositionOf(buffer[0])))
    }

    /** With ordered puts, the watermark is at the last entry dropped; there is none before the first
        drop. */
    ghost predicate Ordered()
      reads this
    {
      && Sorted(log)
      && KeyOf(evictedWatermark) == Watermark(log, capacity)
    }

    constructor (capacity: nat)
      requires capacity > 0
      ensures Valid() && Ordered()
      ensures this.capacity == capacity && log == [] && batchIdSeq == 0
    {
      this.capacity := capacity;
      buffer := [];
      batchIdSeq := 0;
      latestPosition := None;
      firstPosition := None;
      evictedWatermark := None;
      log := [];
    }

    method PutBatch(events: seq<CanalEvent>) returns (batchId: nat)
      requires Valid()
      modifies this
      ensures Valid()
      ensures log == old(log) + events
      ensures old(Ordered()) && FitsAfter(old(log), events) ==> Ordered()
      ensures events == [] ==> batchId == 0 && unchanged(this)
      ensures events != [] ==> batchId == old(batchIdSeq) && batchIdSeq == old(batchIdSeq) + 1
    {
      hide BinlogSuffix, EventKey, PosKey, Exceeds, FitsAfter, Sorted, Dropped, Window, Watermark, KeyOf, PositionOf;
      if events == [] {
        assert log + events == log;
        return 0;
      }
      batchId := batchIdSeq;
      batchIdSeq := batchIdSeq + 1;

      WindowAfterPut(log, events, capacity);
      if Ordered() && FitsAfter(log, events) {
        SortedAppend(log, events);
        WatermarkFollowsDrops(log, events, capacity, evictedWatermark);
      }
      var evicted: Option<LogPosition> := None;
      var total := |buffer| + |events|;
      if total > capacity {
        var drainCount := Min(total - capacity, |buffer|);
        if drainCount > 0 {
          evicted := Some(PositionOf(buffer[drainCount - 1]));
        }
        buffer := buffer[drainCount..];
      }
      var kept := events;
      if |events| > capacity {
        var skip := |events| - capacity;
        var dropped := PositionOf(events[skip - 1]);
        if Exceeds(dropped, evicted) {
          evicted := Some(dropped);
        }
        kept := events[skip..];
      }
      if evicted.Some? && Exceeds(evicted.value, evictedWatermark) {
        evictedWatermark := evicted;
      }

      firstPosition := Some(PositionOf(if buffer != [] then buffer[0] else kept[0]));
      latestPosition := Some(PositionOf(kept[|kept| - 1]));
      buffer := buffer + kept;
      log := log + events;
    }

    /** One pass of the `get_batch` loop: the next batch past the cursor, or `None` when the caller
        has to wait. Only the batch counter changes. */
    method TryGetBatch(start: LogPosition, batchSize: nat) returns (batch: Option<Events>)
      requires Valid() && Ordered()
      modifies this`batchIdSeq
      ensures
        var s := Read(Window(log, capacity), start, batchSize);
        if s == [] then
          batch == None && batchIdSeq == old(batchIdSeq)
        else
          batch == Some(WithEvents(s, old(batchIdSeq))) && batchIdSeq == old(batchIdSeq) + 1
      ensures
        batch.Some? ==>
          var events := batch.value.events;
          && events != []
          && batch.value.rangeStart == LogPosition(events[0].journalName, events[0].position, None, None, None)
          && batch.value.rangeEnd ==
             LogPosition(events[|events| - 1].journalName, events[|events| - 1].position, None, None, None)
    {
      hide BinlogSuffix, EventKey, PosKey, FirstAfter, FirstSince, GroupEnd, KeyOf, Watermark, Window, Sorted;
      hide WithEvents, PositionOf, NewPosition;
      WindowSorted(log, capacity);
      var startIdx: nat;
      if start.timestamp.Some? {
        startIdx := FirstSince(buffer, start.timestamp.value);
      } else {
        startIdx := PartitionPoint(buffer, PosKey(start));
      }
      if startIdx < |buffer| {
        var batchId := batchIdSeq;
        batchIdSeq := batchIdSeq + 1;
        var baseEnd := Min(startIdx + Max(batchSize, 1), |buffer|);
        var end := ExtendGroup(buffer, baseEnd);
        RangeOfBatch(buffer[startIdx..end], batchId);
        assert buffer[startIdx..end] == Read(buffer, start, batchSize);
        batch := Some(WithEvents(buffer[startIdx..end], batchId));
      } else {
        batch := None;
      }
    }
  }
}
