/** From the binlog to canal events (canal-binlog): the table map cache, row conversion with its
    update diff, and the replication loop. */
module Replication {
  import opened CanalTypes
  import opened JournalOrder
  import opened EventLog

  datatype ColumnInfo = ColumnInfo(name: string, columnType: i32, isKey: bool, isNullable: bool)

  /** Cells are already rendered as text; a null cell is absent. */
  type Row = seq<Option<string>>

  datatype TableMetadata = TableMetadata(
    columnNames: Option<seq<string>>,
    simplePrimaryKeys: Option<seq<nat>>,
    primaryKeysWithPrefix: Option<seq<(nat, nat)>>)

  datatype TableMap = TableMap(
    tableId: u64,
    schema: string,
    table: string,
    columnTypes: seq<byte>,
    nullBitmap: seq<bool>,
    metadata: Option<TableMetadata>)

  datatype BinlogEvent =
    | TableMapEvent(tableMap: TableMap)
    | RotateEvent(file: string)
    | GtidEvent(gtid: string)
    | QueryEvent(schema: string, sql: string)
    | WriteRows(tableId: u64, rows: seq<Row>)
    | UpdateRows(tableId: u64, updates: seq<(Row, Row)>)
    | DeleteRows(tableId: u64, rows: seq<Row>)
    | Unhandled

  datatype EventHeader = EventHeader(nextPosition: u64, serverId: u64, timestamp: i64)

  /** What the replication stream yields: an event, or an error that does not end it. */
  datatype Item = Broken | Received(header: EventHeader, event: BinlogEvent)

  type Sent = Result<CanalEvent, CanalError>

  // -- Columns --------------------------------------------------------------

  function DefaultColumnName(i: nat): string { "col_" + Decimal(i) }

  ghost predicate IsPrimaryKey(tm: TableMap, i: nat) {
    && tm.metadata.Some?
    && var m := tm.metadata.value;
       || (m.simplePrimaryKeys.Some? && i in m.simplePrimaryKeys.value)
       || (m.primaryKeysWithPrefix.Some? &&
           exists k :: 0 <= k < |m.primaryKeysWithPrefix.value| && m.primaryKeysWithPrefix.value[k].0 == i)
  }

  function ColumnName(tm: TableMap, i: nat): string {
    if tm.metadata.Some? && tm.metadata.value.columnNames.Some? && i < |tm.metadata.value.columnNames.value| then
      tm.metadata.value.columnNames.value[i]
    else DefaultColumnName(i)
  }

  ghost function ColumnInfos(tm: TableMap): seq<ColumnInfo> {
    seq(|tm.columnTypes|, i requires 0 <= i < |tm.columnTypes| =>
      ColumnInfo(ColumnName(tm, i), tm.columnTypes[i], IsPrimaryKey(tm, i),
        if i < |tm.nullBitmap| then tm.nullBitmap[i] else true))
  }

  /** `build_column_infos`: key indices beyond the columns of the table are ignored. */
  method BuildColumnInfos(tm: TableMap) returns (infos: seq<ColumnInfo>)
    ensures infos == ColumnInfos(tm)
  {
    var n := |tm.columnTypes|;
    var isKey := new bool[n](_ => false);
    if tm.metadata.Some? {
      var meta := tm.metadata.value;
      if meta.simplePrimaryKeys.Some? {
        var pks := meta.simplePrimaryKeys.value;
        for k := 0 to |pks|
          invariant forall i | 0 <= i < n :: isKey[i] <==> i in pks[..k]
        {
          if pks[k] < n {
            isKey[pks[k]] := true;
          }
          assert pks[..k + 1] == pks[..k] + [pks[k]];
        }
        assert pks[..|pks|] == pks;
      }
      ghost var simple := isKey[..];
      if meta.primaryKeysWithPrefix.Some? {
        var pks := meta.primaryKeysWithPrefix.value;
        for k := 0 to |pks|
          invariant forall i | 0 <= i < n ::
                      isKey[i] <==> simple[i] || exists j :: 0 <= j < k && pks[j].0 == i
        {
          if pks[k].0 < n {
            isKey[pks[k].0] := true;
          }
        }
      }
    }
    infos := [];
    for i := 0 to n
      invariant infos == ColumnInfos(tm)[..i]
    {
      var nullable := if i < |tm.nullBitmap| then tm.nullBitmap[i] else true;
      infos := infos + [ColumnInfo(ColumnName(tm, i), tm.columnTypes[i], isKey[i], nullable)];
    }
  }

  /** `extract_column_values`. */
  function ExtractColumnValues(row: Row, infos: seq<ColumnInfo>): seq<ColumnValue> {
    seq(|row|, i requires 0 <= i < |row| =>
      if i < |infos| then ColumnValue(infos[i].name, row[i], infos[i].columnType, infos[i].isKey, false)
      else ColumnValue(DefaultColumnName(i), row[i], 0, false, false))
  }

  // -- The update diff ------------------------------------------------------

  /** The after image with exactly the changed columns flagged. */
  function MarkUpdated(before: seq<ColumnValue>, after: seq<ColumnValue>): seq<ColumnValue> {
    seq(|after|, i requires 0 <= i < |after| =>
      after[i].(updated := i >= |before| || before[i].value != after[i].value))
  }

  predicate SameValues(a: seq<ColumnValue>, b: seq<ColumnValue>) {
    |a| == |b| && forall i | 0 <= i < |a| :: a[i].value == b[i].value
  }

  /** Is `after` what one gets from `before` by overwriting only the columns flagged in `patch`? */
  predicate PatchYields(before: seq<ColumnValue>, patch: seq<ColumnValue>, after: seq<ColumnValue>) {
    && |patch| == |after|
    && forall i | 0 <= i < |after| ::
         if patch[i].updated then patch[i].value == after[i].value
         else i < |before| && before[i].value == after[i].value
  }

  // -- The table map cache --------------------------------------------------

  class TableMapCache {
    var names: map<u64, (string, string)>
    var columns: map<u64, seq<ColumnInfo>>

    ghost predicate Valid()
      reads this
    {
      columns.Keys <= names.Keys
    }

    constructor ()
      ensures Valid() && names == map[] && columns == map[]
    {
      names, columns := map[], map[];
    }

    /** The name alone: columns known for an earlier table of the same id are forgotten. */
    method Put(tableId: u64, schema: string, table: string)
      requires Valid()
      modifies this
      ensures Valid()
      ensures names == old(names)[tableId := (schema, table)] && columns == old(columns) - {tableId}
    {
      columns := columns - {tableId};
      names := names[tableId := (schema, table)];
    }

    method PutWithColumns(tableId: u64, schema: string, table: string, cols: seq<ColumnInfo>)
      requires Valid()
      modifies this
      ensures Valid()
      ensures names == old(names)[tableId := (schema, table)] && columns == old(columns)[tableId := cols]
    {
      columns := columns[tableId := cols];
      names := names[tableId := (schema, table)];
    }

    method Clear()
      modifies this
      ensures Valid() && names == map[] && columns == map[]
    {
      names, columns := map[], map[];
    }

    function Get(tableId: u64): Option<(string, string)>
      reads this
    {
      if tableId in names then Some(names[tableId]) else None
    }

    function GetColumns(tableId: u64): Option<seq<ColumnInfo>>
      reads this
    {
      if tableId in columns then Some(columns[tableId]) else None
    }
  }

  class EventConverter {
    const tableMap: TableMapCache

    constructor ()
      ensures fresh(tableMap) && tableMap.Valid() && tableMap.names == map[] && tableMap.columns == map[]
    {
      tableMap := new TableMapCache();
    }

    /** `handle_row_event`. */
    method HandleRowEvent(tableId: u64, eventType: EventType, values: seq<ColumnValue>)
      returns (r: Result<RowChange, CanalError>)
      ensures r == match tableMap.Get(tableId)
                   case None => Err(NotFound(tableId))
                   case Some((schema, table)) =>
                     if eventType == Insert then
                       Ok(RowChange(table, schema, None, Some(RowData(values)), DmlInsert))
                     else if eventType == Delete then
                       Ok(RowChange(table, schema, Some(RowData(values)), None, DmlDelete))
                     else Err(Internal)
    {
      if tableMap.Get(tableId).None? {
        return Err(NotFound(tableId));
      }
      var (schema, table) := tableMap.Get(tableId).value;
      match eventType
      case Insert => r := Ok(RowChange(table, schema, None, Some(RowData(values)), DmlInsert));
      case Delete => r := Ok(RowChange(table, schema, Some(RowData(values)), None, DmlDelete));
      case _ => r := Err(Internal);
    }

    /** `handle_update_row_event`. */
    method HandleUpdateRowEvent(tableId: u64, before: seq<ColumnValue>, after: seq<ColumnValue>)
      returns (r: Result<RowChange, CanalError>)
      ensures r == match tableMap.Get(tableId)
                   case None => Err(NotFound(tableId))
                   case Some((schema, table)) =>
                     Ok(RowChange(table, schema, Some(RowData(before)), Some(RowData(MarkUpdated(before, after))),
                       DmlUpdate))
    {
      if tableMap.Get(tableId).None? {
        return Err(NotFound(tableId));
      }
      var (schema, table) := tableMap.Get(tableId).value;
      var marked := after;
      for i := 0 to |after|
        invariant |marked| == |after|
        invariant marked[..i] == MarkUpdated(before, after)[..i] && marked[i..] == after[i..]
      {
        assert marked[i] == marked[i..][0] == after[i];
        ghost var was := marked;
        marked := marked[i := marked[i].(updated := i >= |before| || before[i].value != marked[i].value)];
        assert marked[..i + 1] == was[..i] + [marked[i]];
        assert marked[i + 1..] == was[i..][1..];
      }
      assert marked == MarkUpdated(before, after);
      r := Ok(RowChange(table, schema, Some(RowData(before)), Some(RowData(marked)), DmlUpdate));
    }
  }

  // -- What the stream so far determines ------------------------------------

  function Front(items: seq<Item>): seq<Item>
    requires items != []
  {
    items[..|items| - 1]
  }

  function Last(items: seq<Item>): Item
    requires items != []
  {
    items[|items| - 1]
  }

  /** The file named by the latest rotation, or the one replication started with. */
  function FileAt(items: seq<Item>, start: string): string {
    if items == [] then start
    else if Last(items).Received? && Last(items).event.RotateEvent? then Last(items).event.file
    else FileAt(Front(items), start)
  }

  /** The GTID announced last. */
  function GtidAt(items: seq<Item>): Option<string> {
    if items == [] then None
    else if Last(items).Received? && Last(items).event.GtidEvent? then Some(Last(items).event.gtid)
    else GtidAt(Front(items))
  }

  /** The latest table map for an id, unless the log has been rotated since. */
  function TableAt(items: seq<Item>, tableId: u64): Option<TableMap> {
    if items == [] then None
    else if Last(items).Received? && Last(items).event.RotateEvent? then None
    else if Last(items).Received? && Last(items).event.TableMapEvent? && Last(items).event.tableMap.tableId == tableId
    then Some(Last(items).event.tableMap)
    else TableAt(Front(items), tableId)
  }

  const DDL_SQL_MAX_LEN := 64 * 1024

  /** Too long in bytes, cut in characters. */
  function TruncateSql(sql: string): string {
    if Utf8Len(sql) > DDL_SQL_MAX_LEN then sql[..Min(DDL_SQL_MAX_LEN, |sql|)] else sql
  }

  function NewEvent(header: EventHeader, file: string, gtid: Option<string>, entryType: EventType, schema: string,
                    table: string, change: Option<RowChange>, sql: Option<string>): CanalEvent {
    CanalEvent(file, header.nextPosition, header.serverId, header.timestamp, entryType, schema, table, change, sql,
      gtid, [])
  }

  /** The event for a row change, with the names of the change. */
  function RowEvent(header: EventHeader, file: string, gtid: Option<string>, entryType: EventType, change: RowChange)
    : CanalEvent
  {
    NewEvent(header, file, gtid, entryType, change.schemaName, change.tableName, Some(change), None)
  }

  /** What the last item of a stream makes the connector send, from the history before it alone. */
  ghost function Emitted(items: seq<Item>, start: string): seq<Sent>
    requires items != []
  {
    match Last(items)
    case Broken => [Err(Protocol)]
    case Received(header, event) =>
      var file, gtid := FileAt(items, start), GtidAt(items);
      match event
      case QueryEvent(schema, sql) =>
        [Ok(NewEvent(header, file, gtid, Ddl, schema, "", None, Some(TruncateSql(sql))))]
      case WriteRows(id, rows) =>
        seq(|rows|, i requires 0 <= i < |rows| => Inserted(header, file, gtid, TableAt(items, id), id, rows[i]))
      case DeleteRows(id, rows) =>
        seq(|rows|, i requires 0 <= i < |rows| => Deleted(header, file, gtid, TableAt(items, id), id, rows[i]))
      case UpdateRows(id, rows) =>
        seq(|rows|, i requires 0 <= i < |rows| => Updated(header, file, gtid, TableAt(items, id), id, rows[i]))
      case _ => []
  }

  ghost function Inserted(h: EventHeader, file: string, gtid: Option<string>, tm: Option<TableMap>, id: u64,
                         row: Row): Sent
  {
    if tm.None? then Err(NotFound(id))
    else
      var values := ExtractColumnValues(row, ColumnInfos(tm.value));
      Ok(RowEvent(h, file, gtid, Insert,
        RowChange(tm.value.table, tm.value.schema, None, Some(RowData(values)), DmlInsert)))
  }

  ghost function Deleted(h: EventHeader, file: string, gtid: Option<string>, tm: Option<TableMap>, id: u64,
                         row: Row): Sent
  {
    if tm.None? then Err(NotFound(id))
    else
      var values := ExtractColumnValues(row, ColumnInfos(tm.value));
      Ok(RowEvent(h, file, gtid, Delete,
        RowChange(tm.value.table, tm.value.schema, Some(RowData(values)), None, DmlDelete)))
  }

  ghost function Updated(h: EventHeader, file: string, gtid: Option<string>, tm: Option<TableMap>, id: u64,
                         row: (Row, Row)): Sent
  {
    if tm.None? then Err(NotFound(id))
    else
      var before := ExtractColumnValues(row.0, ColumnInfos(tm.value));
      var after := ExtractColumnValues(row.1, ColumnInfos(tm.value));
      Ok(RowEvent(h, file, gtid, Update,
        RowChange(tm.value.table, tm.value.schema, Some(RowData(before)), Some(RowData(MarkUpdated(before, after))),
          DmlUpdate)))
  }

  /** Everything the connector sends for a stream, in order. */
  ghost function Output(items: seq<Item>, start: string): seq<Sent> {
    if items == [] then [] else Output(Front(items), start) + Emitted(items, start)
  }

  // -- The replication loop -------------------------------------------------

  /** A cache holds, for every table id, what the history says and nothing else. */
  ghost predicate Reflects(names: map<u64, (string, string)>, columns: map<u64, seq<ColumnInfo>>, items: seq<Item>) {
    forall id: u64 ::
      match TableAt(items, id)
      case None => id !in names && id !in columns
      case Some(tm) =>
        && id in names && names[id] == (tm.schema, tm.table)
        && id in columns && columns[id] == ColumnInfos(tm)
  }

  ghost predicate Agrees(cache: TableMapCache, items: seq<Item>)
    reads cache
  {
    Reflects(cache.names, cache.columns, items)
  }

  /** How the history of a table changes with one more item. */
  lemma ReflectsNext(names: map<u64, (string, string)>, columns: map<u64, seq<ColumnInfo>>, items: seq<Item>)
    requires items != [] && Reflects(names, columns, Front(items))
    ensures Last(items).Received? && Last(items).event.TableMapEvent? ==>
              var tm := Last(items).event.tableMap;
              Reflects(names[tm.tableId := (tm.schema, tm.table)], columns[tm.tableId := ColumnInfos(tm)], items)
    ensures Last(items).Received? && Last(items).event.RotateEvent? ==> Reflects(map[], map[], items)
    ensures !(Last(items).Received? && (Last(items).event.TableMapEvent? || Last(items).event.RotateEvent?)) ==>
              Reflects(names, columns, items)
  {
    hide ColumnInfos;
  }

  lemma EmptyReflectsNothing()
    ensures Reflects(map[], map[], [])
  {
  }

  class Channel {
    var sent: seq<Sent>

    constructor ()
      ensures sent == []
    {
      sent := [];
    }

    method Send(r: Sent)
      modifies this
      ensures sent == old(sent) + [r]
    {
      sent := sent + [r];
    }
  }

  /** `send_row_events`. */
  method SendRowEvents(ghost items: seq<Item>, ghost start: string, header: EventHeader, file: string,
                       entryType: EventType, tableId: u64, rows: seq<Row>, converter: EventConverter,
                       gtid: Option<string>, tx: Channel)
    requires Agrees(converter.tableMap, items) && items != []
    requires (entryType == Insert && Last(items) == Received(header, WriteRows(tableId, rows)))
          || (entryType == Delete && Last(items) == Received(header, DeleteRows(tableId, rows)))
    requires file == FileAt(items, start) && gtid == GtidAt(items)
    modifies tx
    ensures tx.sent == old(tx.sent) + Emitted(items, start)
  {
    hide FileAt, GtidAt, TableAt, ColumnInfos, ExtractColumnValues, TruncateSql;
    var cached := converter.tableMap.GetColumns(tableId);
    var columns := if cached.Some? then cached.value else [];
    for i := 0 to |rows|
      invariant |Emitted(items, start)| == |rows|
      invariant tx.sent == old(tx.sent) + Emitted(items, start)[..i]
    {
      var values := ExtractColumnValues(rows[i], columns);
      var change := converter.HandleRowEvent(tableId, entryType, values);
      match change {
        case Ok(c) => tx.Send(Ok(RowEvent(header, file, gtid, entryType, c)));
        case Err(e) => tx.Send(Err(e));
      }
      assert Emitted(items, start)[..i + 1] == Emitted(items, start)[..i] + [Emitted(items, start)[i]];
    }
    assert Emitted(items, start)[..|rows|] == Emitted(items, start);
  }

  /** `send_update_events`. */
  method SendUpdateEvents(ghost items: seq<Item>, ghost start: string, header: EventHeader, file: string, tableId: u64,
                          rows: seq<(Row, Row)>, converter: EventConverter, gtid: Option<string>, tx: Channel)
    requires Agrees(converter.tableMap, items) && items != []
    requires Last(items) == Received(header, UpdateRows(tableId, rows))
    requires file == FileAt(items, start) && gtid == GtidAt(items)
    modifies tx
    ensures tx.sent == old(tx.sent) + Emitted(items, start)
  {
    hide FileAt, GtidAt, TableAt, ColumnInfos, ExtractColumnValues, TruncateSql;
    var cached := converter.tableMap.GetColumns(tableId);
    var columns := if cached.Some? then cached.value else [];
    for i := 0 to |rows|
      invariant |Emitted(items, start)| == |rows|
      invariant tx.sent == old(tx.sent) + Emitted(items, start)[..i]
    {
      var before := ExtractColumnValues(rows[i].0, columns);
      var after := ExtractColumnValues(rows[i].1, columns);
      var change := converter.HandleUpdateRowEvent(tableId, before, after);
      match change {
        case Ok(c) => tx.Send(Ok(RowEvent(header, file, gtid, Update, c)));
        case Err(e) => tx.Send(Err(e));
      }
      assert Emitted(items, start)[..i + 1] == Emitted(items, start)[..i] + [Emitted(items, start)[i]];
    }
    assert Emitted(items, start)[..|rows|] == Emitted(items, start);
  }

  /** `run_replication` with `process_and_send`: one pass over the stream, keeping the current file,
      GTID and table map cache. What it sends is what the history of each event determines. */
  method RunReplication(items: seq<Item>, startJournal: string, tx: Channel)
    modifies tx
    ensures tx.sent == old(tx.sent) + Output(items, startJournal)
  {
    hide ColumnInfos, ExtractColumnValues, TruncateSql, NewEvent, RowEvent, Reflects, TableAt;
    var converter := new EventConverter();
    var currentFile := startJournal;
    var currentGtid: Option<string> := None;
    EmptyReflectsNothing();
    for i := 0 to |items|
      invariant converter.tableMap.Valid() && Agrees(converter.tableMap, items[..i])
      invariant currentFile == FileAt(items[..i], startJournal)
      invariant currentGtid == GtidAt(items[..i])
      invariant tx.sent == old(tx.sent) + Output(items[..i], startJournal)
    {
      ghost var seen := items[..i + 1];
      assert Front(seen) == items[..i] && Last(seen) == items[i];
      ReflectsNext(converter.tableMap.names, converter.tableMap.columns, seen);
      ghost var before := tx.sent;
      match items[i] {
        case Broken => tx.Send(Err(Protocol));
        case Received(header, event) =>
          if event.GtidEvent? {
            currentGtid := Some(event.gtid);
          }
          if event.RotateEvent? {
            currentFile := event.file;
          }
          match event {
            case TableMapEvent(tm) =>
              var infos := BuildColumnInfos(tm);
              converter.tableMap.PutWithColumns(tm.tableId, tm.schema, tm.table, infos);
            case RotateEvent(_) =>
              converter.tableMap.Clear();
            case QueryEvent(schema, sql) =>
              tx.Send(Ok(NewEvent(header, currentFile, currentGtid, Ddl, schema, "", None, Some(TruncateSql(sql)))));
            case WriteRows(id, rows) =>
              SendRowEvents(seen, startJournal, header, currentFile, Insert, id, rows, converter, currentGtid, tx);
            case DeleteRows(id, rows) =>
              SendRowEvents(seen, startJournal, header, currentFile, Delete, id, rows, converter, currentGtid, tx);
            case UpdateRows(id, rows) =>
              SendUpdateEvents(seen, startJournal, header, currentFile, id, rows, converter, currentGtid, tx);
            case _ =>
          }
      }
      assert tx.sent == before + Emitted(seen, startJournal);
    }
    assert items[..|items|] == items;
  }
}
