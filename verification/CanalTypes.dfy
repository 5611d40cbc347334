/** Values shared by every stage: positions, rows, events and batches (canal-common), and the
    protobuf messages that carry a row change over the wire (canal-proto). */
module CanalTypes {
  datatype Option<+T> = None | Some(value: T)

  datatype Result<+T, +E> = Ok(value: T) | Err(error: E)

  const TWO_31 := 0x8000_0000
  const TWO_32 := 0x1_0000_0000
  const TWO_63 := 0x8000_0000_0000_0000
  const TWO_64 := 0x1_0000_0000_0000_0000

  type byte = n: int | 0 <= n < 256
  type i32 = n: int | -TWO_31 <= n < TWO_31
  type i64 = n: int | -TWO_63 <= n < TWO_63
  type u64 = n: int | 0 <= n < TWO_64

  const U64_MAX: u64 := TWO_64 - 1

  /** `x as i64` for a u64: two's complement reinterpretation. */
  function AsI64(n: u64): i64 {
    if n < TWO_63 then n else n - TWO_64
  }

  /** `x as u64` for an i64. */
  function AsU64(n: i64): u64 {
    if n < 0 then n + TWO_64 else n
  }

  /** The casts keep a number modulo 2^64, and undo each other. */
  lemma CastsWrap(n: u64, m: i64)
    ensures (AsI64(n) - n) % TWO_64 == 0 && (AsU64(m) - m) % TWO_64 == 0
    ensures AsU64(AsI64(n)) == n && AsI64(AsU64(m)) == m
  {
  }

  /** The number of bytes of a string in UTF-8. */
  function Utf8Len(s: string): nat {
    if s == "" then 0
    else
      var c := s[0] as int;
      (if c < 0x80 then 1 else if c < 0x800 then 2 else if c < 0x1_0000 then 3 else 4) + Utf8Len(s[1..])
  }

  /** The UTF-8 encoding of a code point (RFC 3629, section 3). */
  function EncodeCodePoint(c: int): seq<byte>
    requires 0 <= c < 0x11_0000
  {
    if c <= 0x7F then [c]
    else if c <= 0x7FF then [0xC0 + c / 64, 0x80 + c % 64]
    else if c <= 0xFFFF then [0xE0 + c / 4096, 0x80 + c / 64 % 64, 0x80 + c % 64]
    else [0xF0 + c / 262_144, 0x80 + c / 4096 % 64, 0x80 + c / 64 % 64, 0x80 + c % 64]
  }

  function EncodeUtf8(s: string): seq<byte> {
    if s == "" then [] else EncodeCodePoint(s[0] as int) + EncodeUtf8(s[1..])
  }

  lemma {:induction false} Utf8LenIsEncoded(s: string)
    ensures |EncodeUtf8(s)| == Utf8Len(s)
  {
    if s != "" {
      Utf8LenIsEncoded(s[1..]);
    }
  }

  datatype CanalError =
    | Protocol
    | NotFound(tableId: u64)
    | Internal
    | AuthFailed
    | Io

  /** `timestamp` is set only on the cursor of a client that asked for a start time. */
  datatype LogPosition = LogPosition(
    journalName: string,
    position: u64,
    timestamp: Option<i64>,
    serverId: Option<u64>,
    gtid: Option<string>)

  function NewPosition(journalName: string, position: u64): LogPosition {
    LogPosition(journalName, position, None, None, None)
  }

  datatype EventType =
    | Insert | Update | Delete | Ddl | Query | Rotate | Xid | Heartbeat
    | Unknown(code: i32)

  datatype DmlType = DmlInsert | DmlUpdate | DmlDelete

  datatype ColumnValue = ColumnValue(
    name: string,
    value: Option<string>,
    columnType: i32,
    isKey: bool,
    updated: bool)

  datatype RowData = RowData(columns: seq<ColumnValue>)

  datatype RowChange = RowChange(
    tableName: string,
    schemaName: string,
    before: Option<RowData>,
    after: Option<RowData>,
    dmlType: DmlType)

  datatype CanalEvent = CanalEvent(
    journalName: string,
    position: u64,
    serverId: u64,
    executeTime: i64,
    entryType: EventType,
    schemaName: string,
    tableName: string,
    rowChange: Option<RowChange>,
    ddlSql: Option<string>,
    gtid: Option<string>,
    rawBytes: seq<byte>)

  function PositionOf(e: CanalEvent): LogPosition {
    NewPosition(e.journalName, e.position)
  }

  datatype Events = Events(
    rangeStart: LogPosition,
    rangeEnd: LogPosition,
    events: seq<CanalEvent>,
    batchId: int)

  /** `Events::with_events`. */
  function WithEvents(events: seq<CanalEvent>, batchId: int): Events {
    if events == [] then
      Events(NewPosition("", 0), NewPosition("", 0), [], batchId)
    else
      Events(PositionOf(events[0]), PositionOf(events[|events| - 1]), events, batchId)
  }

  /** The range of a batch goes from the position of its first event to that of its last. */
  lemma RangeOfBatch(events: seq<CanalEvent>, batchId: int)
    requires events != []
    ensures
      var first, last := events[0], events[|events| - 1];
      WithEvents(events, batchId) ==
      Events(LogPosition(first.journalName, first.position, None, None, None),
             LogPosition(last.journalName, last.position, None, None, None), events, batchId)
  {
  }

  datatype FilterPattern = FilterPattern(pattern: string, blackList: string)

  const DEFAULT_FILTER := FilterPattern(".*\\..*", "")

  /** The regex engine is a parameter of the model: which patterns compile, and what they match. */
  datatype Regexes = Regexes(valid: string -> bool, isMatch: (string, string) -> bool)

  /** Does an event pass a client's filter? A pattern that does not compile matches everything, a
      black list that is empty or does not compile blocks nothing. */
  predicate Passes(re: Regexes, f: FilterPattern, e: CanalEvent) {
    var table := e.schemaName + "." + e.tableName;
    && (re.valid(f.pattern) ==> re.isMatch(f.pattern, table))
    && !(f.blackList != "" && re.valid(f.blackList) && re.isMatch(f.blackList, table))
  }

  /** The events of `s` that pass, in order. */
  function Select(re: Regexes, f: FilterPattern, s: seq<CanalEvent>): seq<CanalEvent> {
    if s == [] then []
    else
      (if Passes(re, f, s[0]) then [s[0]] else []) + Select(re, f, s[1..])
  }

  lemma SelectCons(re: Regexes, f: FilterPattern, s: seq<CanalEvent>)
    requires s != []
    ensures Select(re, f, s) == (if Passes(re, f, s[0]) then [s[0]] else []) + Select(re, f, s[1..])
  {
    hide Passes;
  }

  lemma {:induction false} SelectConcat(re: Regexes, f: FilterPattern, s: seq<CanalEvent>, t: seq<CanalEvent>)
    ensures Select(re, f, s + t) == Select(re, f, s) + Select(re, f, t)
  {
    hide Passes;
    if s == [] {
      assert s + t == t;
    } else {
      assert (s + t)[0] == s[0] && (s + t)[1..] == s[1..] + t;
      SelectCons(re, f, s);
      SelectCons(re, f, s + t);
      hide Select;
      SelectConcat(re, f, s[1..], t);
    }
  }

  /** Selection drops exactly the events that do not pass. */
  lemma {:induction false} SelectMembers(re: Regexes, f: FilterPattern, s: seq<CanalEvent>, e: CanalEvent)
    ensures e in Select(re, f, s) <==> e in s && Passes(re, f, e)
    ensures multiset(Select(re, f, s))[e] == if Passes(re, f, e) then multiset(s)[e] else 0
  {
    if s != [] {
      SelectMembers(re, f, s[1..], e);
      assert s == [s[0]] + s[1..];
    }
  }

  /** The events of `s` that satisfy `p`, in order. */
  function Keep(p: CanalEvent -> bool, s: seq<CanalEvent>): seq<CanalEvent> {
    if s == [] then [] else (if p(s[0]) then [s[0]] else []) + Keep(p, s[1..])
  }

  /** Which events are selected: those whose schema and table, joined by a dot, are matched by the pattern,
      if it compiles, and not by the black list, if there is one and it compiles. */
  lemma {:induction false} SelectKeeps(re: Regexes, f: FilterPattern, s: seq<CanalEvent>)
    ensures Select(re, f, s) ==
            Keep((e: CanalEvent) =>
                   && (re.valid(f.pattern) ==> re.isMatch(f.pattern, e.schemaName + "." + e.tableName))
                   && !(f.blackList != "" && re.valid(f.blackList)
                        && re.isMatch(f.blackList, e.schemaName + "." + e.tableName)),
                 s)
  {
    if s != [] {
      SelectKeeps(re, f, s[1..]);
    }
  }

  lemma {:induction false} KeepMembers(p: CanalEvent -> bool, s: seq<CanalEvent>, e: CanalEvent)
    ensures e in Keep(p, s) <==> e in s && p(e)
    ensures multiset(Keep(p, s))[e] == if p(e) then multiset(s)[e] else 0
  {
    if s != [] {
      KeepMembers(p, s[1..], e);
      assert s == [s[0]] + s[1..];
    }
  }

  /** A pattern that does not compile keeps everything that is not black-listed. */
  lemma BrokenPatternKeepsAll(re: Regexes, f: FilterPattern, s: seq<CanalEvent>, e: CanalEvent)
    requires !re.valid(f.pattern)
    ensures e in Select(re, f, s) <==>
            && e in s
            && !(f.blackList != "" && re.valid(f.blackList)
                 && re.isMatch(f.blackList, e.schemaName + "." + e.tableName))
    ensures f.blackList == "" || !re.valid(f.blackList) ==> (e in Select(re, f, s) <==> e in s)
  {
    SelectMembers(re, f, s, e);
  }

  /** An empty black list, or one that does not compile, blocks nothing. */
  lemma NoBlackListBlocksNothing(re: Regexes, f: FilterPattern, s: seq<CanalEvent>, e: CanalEvent)
    requires f.blackList == "" || !re.valid(f.blackList)
    ensures e in Select(re, f, s) <==>
            e in s && (re.valid(f.pattern) ==> re.isMatch(f.pattern, e.schemaName + "." + e.tableName))
  {
    SelectMembers(re, f, s, e);
  }
}
