/** The store seen as a log: everything ever put, of which a bounded window at the end is retained,
    and what a cursor read of that window returns. */
module EventLog {
  import opened CanalTypes
  import opened JournalOrder

  ghost predicate Sorted(s: seq<CanalEvent>) {
    forall i, j | 0 <= i < j < |s| :: AtMost(EventKey(s[i]), EventKey(s[j]))
  }

  /** The ordering that `put_batch` asserts: a batch is in order and does not start before the tail. */
  ghost predicate FitsAfter(log: seq<CanalEvent>, events: seq<CanalEvent>) {
    && Sorted(events)
    && (log != [] && events != [] ==> AtMost(EventKey(log[|log| - 1]), EventKey(events[0])))
  }

  /** A put that does not continue the position group at the tail. */
  predicate StrictlyAfter(log: seq<CanalEvent>, events: seq<CanalEvent>) {
    log != [] && events != [] ==> Before(EventKey(log[|log| - 1]), EventKey(events[0]))
  }

  // -- Retention ------------------------------------------------------------

  function Dropped(log: seq<CanalEvent>, capacity: nat): (d: nat)
    ensures d <= |log|
  {
    if |log| > capacity then |log| - capacity else 0
  }

  /** The last `capacity` entries. */
  function Window(log: seq<CanalEvent>, capacity: nat): seq<CanalEvent> {
    log[Dropped(log, capacity)..]
  }

  /** The key of the last entry to have fallen out of the window. */
  function Watermark(log: seq<CanalEvent>, capacity: nat): Option<Key> {
    var d := Dropped(log, capacity);
    if d == 0 then None else Some(EventKey(log[d - 1]))
  }

  /** `start < watermark`. */
  predicate BelowWatermark(start: LogPosition, watermark: Option<Key>) {
    watermark.Some? && Before(PosKey(start), watermark.value)
  }

  // -- Reading --------------------------------------------------------------

  /** `partition_point` on a sorted slice: the first entry past an exclusive cursor. */
  function FirstAfter(s: seq<CanalEvent>, k: Key): (i: nat)
    ensures i <= |s|
    ensures forall j | 0 <= j < i :: AtMost(EventKey(s[j]), k)
    ensures i < |s| ==> Before(k, EventKey(s[i]))
  {
    if s == [] || Before(k, EventKey(s[0])) then 0 else 1 + FirstAfter(s[1..], k)
  }

  /** The first entry executed at or after a time. */
  function FirstSince(s: seq<CanalEvent>, time: i64): (i: nat)
    ensures i <= |s|
    ensures forall j | 0 <= j < i :: s[j].executeTime < time
    ensures i < |s| ==> s[i].executeTime >= time
  {
    if s == [] || s[0].executeTime >= time then 0 else 1 + FirstSince(s[1..], time)
  }

  /** A cursor with a timestamp selects by time and ignores its position. */
  function StartIndex(s: seq<CanalEvent>, start: LogPosition): (i: nat)
    ensures i <= |s|
  {
    match start.timestamp
    case Some(time) => FirstSince(s, time)
    case None => FirstAfter(s, PosKey(start))
  }

  /** Where the position group that ends a base slice `s[..n]` itself ends. */
  function GroupEnd(s: seq<CanalEvent>, n: nat): (e: nat)
    requires 0 < n <= |s|
    ensures n <= e <= |s|
    ensures forall j | n <= j < e :: EventKey(s[j]) == EventKey(s[n - 1])
    ensures e < |s| ==> EventKey(s[e]) != EventKey(s[n - 1])
    decreases |s| - n
  {
    if n < |s| && EventKey(s[n]) == EventKey(s[n - 1]) then GroupEnd(s, n + 1) else n
  }

  function Min(a: int, b: int): int { if a < b then a else b }

  function Max(a: int, b: int): int { if a > b then a else b }

  function ReadEnd(s: seq<CanalEvent>, from: nat, size: nat): (e: nat)
    requires from < |s|
    ensures from < e <= |s|
  {
    GroupEnd(s, Min(from + Max(size, 1), |s|))
  }

  /** What `get_batch` returns from the buffer `s`; empty when it would wait. */
  function Read(s: seq<CanalEvent>, start: LogPosition, size: nat): seq<CanalEvent> {
    var from := StartIndex(s, start);
    if from == |s| then [] else s[from..ReadEnd(s, from, size)]
  }

  lemma FirstAfterUnique(s: seq<CanalEvent>, k: Key, i: nat)
    requires i <= |s|
    requires forall j | 0 <= j < i :: AtMost(EventKey(s[j]), k)
    requires i < |s| ==> Before(k, EventKey(s[i]))
    ensures FirstAfter(s, k) == i
  {
  }

  /** The end of a batch is a group boundary: the next entry, if any, has a strictly greater key. */
  lemma ReadEndsAtBoundary(s: seq<CanalEvent>, from: nat, size: nat)
    requires Sorted(s) && from < |s|
    ensures
      var e := ReadEnd(s, from, size);
      && (e < |s| ==> Before(EventKey(s[e - 1]), EventKey(s[e])))
      && FirstAfter(s, EventKey(s[e - 1])) == e
      && e - from >= Min(Max(size, 1), |s| - from)
  {
    hide BinlogSuffix;
    var n := Min(from + Max(size, 1), |s|);
    var e := ReadEnd(s, from, size);
    assert EventKey(s[e - 1]) == EventKey(s[n - 1]);
    FirstAfterUnique(s, EventKey(s[e - 1]), e);
  }

  /** One read: the contiguous slice that starts at the first entry past the cursor, is as long as
      asked for unless the log is shorter, and never splits a position group. Its end, used as the
      next exclusive cursor, resumes exactly behind it. */
  lemma ReadIsContiguous(s: seq<CanalEvent>, start: LogPosition, size: nat)
    requires Sorted(s)
    requires StartIndex(s, start) < |s|
    ensures
      var from, batch := StartIndex(s, start), Read(s, start, size);
      && |batch| >= Min(Max(size, 1), |s| - from)
      && from + |batch| <= |s|
      && batch == s[from..from + |batch|]
      && StartIndex(s, WithEvents(batch, 0).rangeEnd) == from + |batch|
      && (forall i, j | 0 <= i < |s| && 0 <= j < |s| && EventKey(s[i]) == EventKey(s[j]) && from <= i
            && from <= j :: i < from + |batch| <==> j < from + |batch|)
  {
    hide BinlogSuffix;
    var from := StartIndex(s, start);
    var e := ReadEnd(s, from, size);
    ReadEndsAtBoundary(s, from, size);
    var batch := s[from..e];
    assert batch[|batch| - 1] == s[e - 1];
    forall i, j | from <= i < e <= j < |s|
      ensures EventKey(s[i]) != EventKey(s[j])
    {
      assert AtMost(EventKey(s[i]), EventKey(s[e - 1]));
      assert AtMost(EventKey(s[e]), EventKey(s[j]));
    }
  }

  /** Repeated reads, each from the end of the one before, with the sizes asked for in turn. */
  function Chain(s: seq<CanalEvent>, start: LogPosition, sizes: seq<nat>): seq<CanalEvent>
    decreases |sizes|
  {
    if sizes == [] then []
    else
      var batch := Read(s, start, sizes[0]);
      if batch == [] then [] else batch + Chain(s, WithEvents(batch, 0).rangeEnd, sizes[1..])
  }

  /** Chained reads return a prefix of the remaining suffix, in order and once each, and all of it
      after at most as many reads as there are remaining entries. */
  lemma {:induction false} ChainCoversSuffix(s: seq<CanalEvent>, start: LogPosition, sizes: seq<nat>)
    requires Sorted(s)
    ensures Chain(s, start, sizes) <= s[StartIndex(s, start)..]
    ensures |Chain(s, start, sizes)| >= Min(|sizes|, |s| - StartIndex(s, start))
    decreases |sizes|
  {
    hide StartIndex, Sorted, Read, WithEvents;
    if sizes != [] {
      ReadOrNothing(s, start, sizes[0]);
      var from, batch := StartIndex(s, start), Read(s, start, sizes[0]);
      if batch != [] {
        ChainCoversSuffix(s, WithEvents(batch, 0).rangeEnd, sizes[1..]);
        assert s[from..] == batch + s[from + |batch|..];
      }
    }
  }

  lemma ReadOrNothing(s: seq<CanalEvent>, start: LogPosition, size: nat)
    requires Sorted(s)
    ensures
      var from, batch := StartIndex(s, start), Read(s, start, size);
      && from + |batch| <= |s| && batch == s[from..from + |batch|]
      && (batch == [] <==> from == |s|)
      && (batch != [] ==> StartIndex(s, WithEvents(batch, 0).rangeEnd) == from + |batch|)
  {
    hide StartIndex, ReadEnd, Sorted, WithEvents, EventKey;
    if StartIndex(s, start) < |s| {
      ReadIsContiguous(s, start, size);
    }
  }

  // -- The bounded store against the whole log ------------------------------

  /** How many of `held` buffered entries a put of `added` events evicts. */
  function DrainCount(held: nat, added: nat, capacity: nat): (n: nat)
    ensures n <= held
  {
    if held + added > capacity then Min(held + added - capacity, held) else 0
  }

  /** How many events of an oversized batch are truncated away. */
  function SkipCount(added: nat, capacity: nat): (n: nat)
    ensures n <= added
  {
    if added > capacity then added - capacity else 0
  }

  /** A put moves the window of the log: evict from the front, then keep the tail of the batch. */
  lemma WindowAfterPut(log: seq<CanalEvent>, events: seq<CanalEvent>, capacity: nat)
    ensures
      var kept := Window(log, capacity);
      Window(log + events, capacity) ==
        kept[DrainCount(|kept|, |events|, capacity)..] + events[SkipCount(|events|, capacity)..]
  {
  }

  lemma SortedAppend(log: seq<CanalEvent>, events: seq<CanalEvent>)
    requires Sorted(log) && FitsAfter(log, events)
    ensures Sorted(log + events)
  {
    var all := log + events;
    forall i, j | 0 <= i < j < |all|
      ensures AtMost(EventKey(all[i]), EventKey(all[j]))
    {
      if i < |log| <= j {
        assert AtMost(EventKey(log[i]), EventKey(log[|log| - 1]));
        assert AtMost(EventKey(events[0]), EventKey(events[j - |log|]));
      }
    }
  }

  /** The comparison with the watermark detects a gap exactly: it holds if and only if some entry
      above the cursor has been dropped. */
  lemma GapDetectionExact(log: seq<CanalEvent>, capacity: nat, start: LogPosition)
    requires Sorted(log)
    ensures BelowWatermark(start, Watermark(log, capacity))
       <==> exists i :: 0 <= i < Dropped(log, capacity) && Before(PosKey(start), EventKey(log[i]))
    ensures BelowWatermark(start, Watermark(log, capacity))
       <==> FirstAfter(log, PosKey(start)) < Dropped(log, capacity)
  {
    var d := Dropped(log, capacity);
    if d > 0 {
      var f := FirstAfter(log, PosKey(start));
      if f < d {
        assert AtMost(EventKey(log[f]), EventKey(log[d - 1]));
      }
    }
  }

  lemma {:induction false} FirstAfterInSuffix(s: seq<CanalEvent>, k: Key, d: nat)
    requires Sorted(s) && d <= |s|
    ensures d + FirstAfter(s[d..], k) == Max(FirstAfter(s, k), d)
  {
    var t := s[d..];
    var f, g := FirstAfter(s, k), FirstAfter(t, k);
    if f <= d {
      if f < |s| && d < |s| {
        assert AtMost(EventKey(s[f]), EventKey(s[d]));
      }
      FirstAfterUnique(t, k, 0);
    } else {
      FirstAfterUnique(t, k, f - d);
    }
  }

  lemma {:induction false} GroupEndInSuffix(s: seq<CanalEvent>, d: nat, n: nat)
    requires d <= |s| && 0 < n <= |s| - d
    ensures GroupEnd(s, d + n) == d + GroupEnd(s[d..], n)
    decreases |s| - n
  {
    if d + n < |s| && EventKey(s[d + n]) == EventKey(s[d + n - 1]) {
      GroupEndInSuffix(s, d, n + 1);
    }
  }

  lemma ReadEndInSuffix(s: seq<CanalEvent>, d: nat, i: nat, size: nat)
    requires d + i < |s|
    ensures ReadEnd(s, d + i, size) == d + ReadEnd(s[d..], i, size)
  {
    hide GroupEnd;
    GroupEndInSuffix(s, d, Min(i + Max(size, 1), |s| - d));
  }

  lemma WindowSorted(log: seq<CanalEvent>, capacity: nat)
    requires Sorted(log)
    ensures Sorted(Window(log, capacity))
  {
    hide BinlogSuffix;
  }

  /** The entries of the log that a read of the window returns. */
  function BoundedFrom(log: seq<CanalEvent>, capacity: nat, start: LogPosition): (from: nat)
    ensures Dropped(log, capacity) <= from <= |log|
  {
    Dropped(log, capacity) + StartIndex(Window(log, capacity), start)
  }

  function BoundedTo(log: seq<CanalEvent>, capacity: nat, start: LogPosition, size: nat): (to: nat)
    requires BoundedFrom(log, capacity, start) < |log|
    ensures BoundedFrom(log, capacity, start) < to <= |log|
  {
    Dropped(log, capacity) + ReadEnd(Window(log, capacity), StartIndex(Window(log, capacity), start), size)
  }

  /** A read of the window is a read of the log that starts no earlier than what is retained. */
  lemma BoundedRead(log: seq<CanalEvent>, capacity: nat, start: LogPosition, size: nat)
    requires Sorted(log)
    ensures start.timestamp.None? ==>
              BoundedFrom(log, capacity, start) ==
                Max(FirstAfter(log, PosKey(start)), Dropped(log, capacity))
    ensures
      var from := BoundedFrom(log, capacity, start);
      if from == |log| then
        Read(Window(log, capacity), start, size) == []
      else
        var to := BoundedTo(log, capacity, start, size);
        && to == ReadEnd(log, from, size)
        && Read(Window(log, capacity), start, size) == log[from..to]
  {
    hide BinlogSuffix, EventKey, PosKey, FirstAfter, FirstSince, ReadEnd, Sorted;
    var d, w := Dropped(log, capacity), Window(log, capacity);
    FirstAfterInSuffix(log, PosKey(start), d);
    var i := StartIndex(w, start);
    if i < |w| {
      ReadEndInSuffix(log, d, i, size);
    }
  }

  /** When the cursor is not below the watermark, the bounded store answers exactly as an unbounded
      one would; when it is, the answer starts past the entry the unbounded one would start with. */
  lemma BoundedReadMatchesLog(log: seq<CanalEvent>, capacity: nat, start: LogPosition, size: nat)
    requires Sorted(log) && start.timestamp.None?
    ensures !BelowWatermark(start, Watermark(log, capacity)) ==>
              Read(Window(log, capacity), start, size) == Read(log, start, size)
    ensures BelowWatermark(start, Watermark(log, capacity)) ==>
              StartIndex(log, start) < BoundedFrom(log, capacity, start)
  {
    GapDetectionExact(log, capacity, start);
    BoundedRead(log, capacity, start, size);
  }

  // -- Cursors and later puts -----------------------------------------------

  /** What a reader that has consumed the log up to its own cursor will see of the next put: all of
      it if and only if the put does not continue the position group of the cursor. */
  lemma CaughtUpReaderSeesPut(log: seq<CanalEvent>, events: seq<CanalEvent>)
    requires Sorted(log) && FitsAfter(log, events) && log != [] && events != []
    ensures
      var cursor := PosKey(PositionOf(log[|log| - 1]));
      && (FirstAfter(log + events, cursor) == |log| <==> StrictlyAfter(log, events))
      && (!StrictlyAfter(log, events) ==>
            FirstAfter(log + events, cursor) > |log| && EventKey(events[0]) == cursor)
  {
    hide BinlogSuffix;
    var cursor := EventKey(log[|log| - 1]);
    var all := log + events;
    assert all[|log|] == events[0];
    forall j | 0 <= j < |log| ensures AtMost(EventKey(all[j]), cursor) {
      assert all[j] == log[j];
    }
    if StrictlyAfter(log, events) {
      FirstAfterUnique(all, cursor, |log|);
    }
  }

  /** The index a cursor stands for does not move when strictly later entries arrive. */
  lemma CursorStable(log: seq<CanalEvent>, events: seq<CanalEvent>, k: Key)
    requires log != [] && AtMost(k, EventKey(log[|log| - 1]))
    requires StrictlyAfter(log, events)
    ensures FirstAfter(log + events, k) == FirstAfter(log, k)
  {
    var i := FirstAfter(log, k);
    var all := log + events;
    forall j | 0 <= j < i ensures AtMost(EventKey(all[j]), k) {
      assert all[j] == log[j];
    }
    if i < |all| {
      assert all[i] == if i < |log| then log[i] else events[0];
    }
    FirstAfterUnique(all, k, i);
  }
}
