/** What a stream of binlog events guarantees about the events sent on: their order, and that they
    are fit for the wire. */
module ReplicationFacts {
  import opened CanalTypes
  import opened JournalOrder
  import opened EventLog
  import opened Replication
  import opened Conversion

  // -- Order ----------------------------------------------------------------

  predicate Emits(event: BinlogEvent) {
    event.QueryEvent? || event.WriteRows? || event.UpdateRows? || event.DeleteRows?
  }

  /** The position of the last event sent on from the current file. */
  function LastPosition(items: seq<Item>, start: string): u64 {
    if items == [] then 0
    else
      match Last(items)
      case Broken => LastPosition(Front(items), start)
      case Received(header, event) =>
        if event.RotateEvent? then
          if event.file == FileAt(Front(items), start) then LastPosition(Front(items), start) else 0
        else if Emits(event) then header.nextPosition
        else LastPosition(Front(items), start)
  }

  /** Positions do not decrease within a file, and rotating to another file raises the numeric suffix. */
  predicate WellOrdered(items: seq<Item>, start: string) {
    items == [] ||
    (&& WellOrdered(Front(items), start)
     && match Last(items)
        case Broken => true
        case Received(header, event) =>
          && (Emits(event) ==> LastPosition(Front(items), start) <= header.nextPosition)
          && (event.RotateEvent? ==>
                var file := FileAt(Front(items), start);
                event.file == file || BinlogSuffix(file) < BinlogSuffix(event.file)))
  }

  /** The events among what was sent, without the errors. */
  function Oks(sent: seq<Sent>): seq<CanalEvent> {
    if sent == [] then []
    else (if sent[0].Ok? then [sent[0].value] else []) + Oks(sent[1..])
  }

  lemma OksCons(sent: seq<Sent>)
    requires sent != []
    ensures Oks(sent) == (if sent[0].Ok? then [sent[0].value] else []) + Oks(sent[1..])
  {
  }

  lemma {:induction false} OksConcat(a: seq<Sent>, b: seq<Sent>)
    ensures Oks(a + b) == Oks(a) + Oks(b)
  {
    if a == [] {
      assert a + b == b;
    } else {
      assert (a + b)[0] == a[0] && (a + b)[1..] == a[1..] + b;
      OksCons(a);
      OksCons(a + b);
      hide Oks;
      OksConcat(a[1..], b);
    }
  }

  lemma {:induction false} OksMember(sent: seq<Sent>, e: CanalEvent)
    requires e in Oks(sent)
    ensures Ok(e) in sent
  {
    if !(sent[0].Ok? && sent[0].value == e) {
      OksMember(sent[1..], e);
      assert Ok(e) in sent[1..];
    }
  }

  /** Everything one binlog event produces carries the position of that event. */
  lemma EmittedKey(items: seq<Item>, start: string, e: CanalEvent)
    requires items != [] && Ok(e) in Emitted(items, start)
    ensures Last(items).Received? && Emits(Last(items).event)
    ensures e.journalName == FileAt(items, start) && e.position == Last(items).header.nextPosition
  {
    hide FileAt, GtidAt, TableAt, ColumnInfos, ExtractColumnValues, TruncateSql, MarkUpdated;
  }

  function Tip(items: seq<Item>, start: string): Key {
    Key(BinlogSuffix(FileAt(items, start)), LastPosition(items, start))
  }

  lemma TipAdvances(items: seq<Item>, start: string)
    requires items != [] && WellOrdered(items, start)
    ensures AtMost(Tip(Front(items), start), Tip(items, start))
  {
    hide BinlogSuffix;
  }

  /** A well-ordered binlog is sent on in key order, across rotations and the errors in between. */
  lemma {:induction false} OutputIsSorted(items: seq<Item>, start: string)
    requires WellOrdered(items, start)
    ensures Sorted(Oks(Output(items, start)))
    ensures forall e | e in Oks(Output(items, start)) :: AtMost(EventKey(e), Tip(items, start))
  {
    hide BinlogSuffix;
    if items != [] {
      OutputIsSorted(Front(items), start);
      TipAdvances(items, start);
      var before, now := Oks(Output(Front(items), start)), Oks(Emitted(items, start));
      OksConcat(Output(Front(items), start), Emitted(items, start));
      forall e | e in now
        ensures EventKey(e) == Tip(items, start)
      {
        OksMember(Emitted(items, start), e);
        EmittedKey(items, start, e);
      }
      AppendAtTip(before, now, Tip(Front(items), start), Tip(items, start));
    }
  }

  lemma AppendAtTip(before: seq<CanalEvent>, now: seq<CanalEvent>, low: Key, high: Key)
    requires Sorted(before) && AtMost(low, high)
    requires forall e | e in before :: AtMost(EventKey(e), low)
    requires forall e | e in now :: EventKey(e) == high
    ensures Sorted(before + now)
    ensures forall e | e in before + now :: AtMost(EventKey(e), high)
  {
    hide BinlogSuffix, EventKey;
    var all := before + now;
    forall i, j | 0 <= i < j < |all|
      ensures AtMost(EventKey(all[i]), EventKey(all[j]))
    {
      if |before| <= j {
        assert all[j] in now;
        assert i < |before| ==> all[i] in before;
        assert i >= |before| ==> all[i] in now;
      }
    }
  }

  // -- Fit for the wire -----------------------------------------------------

  /** Every row has at least one cell, and no GTID is empty. */
  predicate Substantial(items: seq<Item>) {
    forall i | 0 <= i < |items| && items[i].Received? ::
      match items[i].event
      case GtidEvent(gtid) => gtid != ""
      case WriteRows(_, rows) => forall k | 0 <= k < |rows| :: rows[k] != []
      case DeleteRows(_, rows) => forall k | 0 <= k < |rows| :: rows[k] != []
      case UpdateRows(_, rows) => forall k | 0 <= k < |rows| :: rows[k].0 != [] && rows[k].1 != []
      case _ => true
  }

  lemma {:induction false} GtidNotEmpty(items: seq<Item>)
    requires Substantial(items)
    ensures GtidAt(items) != Some("")
  {
    if items != [] && !(Last(items).Received? && Last(items).event.GtidEvent?) {
      GtidNotEmpty(Front(items));
    }
  }

  lemma EmittedIsCanonical(items: seq<Item>, start: string, e: CanalEvent)
    requires items != [] && Substantial(items) && Ok(e) in Emitted(items, start)
    ensures Canonical(e) && !e.entryType.Unknown? && e.rawBytes == []
  {
    GtidNotEmpty(items);
    hide FileAt, GtidAt, TableAt, ColumnInfos, TruncateSql, Canonical, Inserted, Deleted, Updated;
    var i :| 0 <= i < |Emitted(items, start)| && Emitted(items, start)[i] == Ok(e);
    var header, event := Last(items).header, Last(items).event;
    var file, gtid := FileAt(items, start), GtidAt(items);
    match event {
      case QueryEvent(schema, sql) =>
        QueryIsCanonical(header, file, gtid, schema, TruncateSql(sql));
      case WriteRows(id, rows) =>
        RowIsCanonical(header, file, gtid, TableAt(items, id), id, rows[i]);
      case DeleteRows(id, rows) =>
        RowIsCanonical(header, file, gtid, TableAt(items, id), id, rows[i]);
      case UpdateRows(id, rows) =>
        UpdateIsCanonical(header, file, gtid, TableAt(items, id), id, rows[i]);
      case _ =>
    }
  }

  predicate WireReady(sent: Sent) {
    sent.Ok? ==> Canonical(sent.value) && !sent.value.entryType.Unknown? && sent.value.rawBytes == []
  }

  lemma QueryIsCanonical(h: EventHeader, file: string, gtid: Option<string>, schema: string, sql: string)
    requires gtid != Some("")
    ensures WireReady(Ok(NewEvent(h, file, gtid, Ddl, schema, "", None, Some(sql))))
  {
  }

  lemma RowIsCanonical(h: EventHeader, file: string, gtid: Option<string>, tm: Option<TableMap>, id: u64, row: Row)
    requires gtid != Some("") && row != []
    ensures WireReady(Inserted(h, file, gtid, tm, id, row)) && WireReady(Deleted(h, file, gtid, tm, id, row))
  {
    hide ColumnInfos;
  }

  lemma UpdateIsCanonical(h: EventHeader, file: string, gtid: Option<string>, tm: Option<TableMap>, id: u64,
                          row: (Row, Row))
    requires gtid != Some("") && row.0 != [] && row.1 != []
    ensures WireReady(Updated(h, file, gtid, tm, id, row))
  {
    hide ColumnInfos;
  }

  /** Everything the connector sends is of a type the wire knows and reaches a client as it is, raw
      bytes apart. */
  lemma {:induction false} OutputIsCanonical(items: seq<Item>, start: string, e: CanalEvent)
    requires Substantial(items) && e in Oks(Output(items, start))
    ensures Canonical(e) && !e.entryType.Unknown? && e.rawBytes == []
  {
    OksConcat(Output(Front(items), start), Emitted(items, start));
    if e in Oks(Emitted(items, start)) {
      OksMember(Emitted(items, start), e);
      EmittedIsCanonical(items, start, e);
    } else {
      OutputIsCanonical(Front(items), start, e);
    }
  }

  // -- The update diff, end to end ------------------------------------------

  /** A client that overwrites, in the before image it received, just the columns flagged in the after
      image it received obtains the values MySQL logged after the update; no flag is superfluous. The
      two images may have any lengths. */
  lemma UpdatePatchReachesClient(p: Prost, header: EventHeader, file: string, gtid: Option<string>, tm: TableMap,
                                 id: u64, row: (Row, Row))
    requires Lawful(p)
    ensures
      var sent := Updated(header, file, gtid, Some(tm), id, row).value;
      var entry := EventToEntry(p, sent);
      && entry.Ok?
      && var got := EntryBytesToEvent(p, p.encodeEntry(entry.value));
      && got.Ok? && got.value.rowChange.Some?
      && var before := Columns(got.value.rowChange.value.before);
         var patch := Columns(got.value.rowChange.value.after);
         var after := ExtractColumnValues(row.1, ColumnInfos(tm));
      && |before| == |row.0| && (forall i | 0 <= i < |before| :: before[i].value == row.0[i])
      && |after| == |row.1| && (forall i | 0 <= i < |after| :: after[i].value == row.1[i])
      && PatchYields(before, patch, after)
      && (forall other: seq<ColumnValue> | SameValues(other, after) && PatchYields(before, other, after) ::
            forall i | 0 <= i < |after| :: patch[i].updated ==> other[i].updated)
  {
    var sent := Updated(header, file, gtid, Some(tm), id, row).value;
    WireRoundTrip(p, sent);
    hide ColumnInfos, EventToEntry, EntryBytesToEvent;
    var infos := ColumnInfos(tm);
    var b, a := ExtractColumnValues(row.0, infos), ExtractColumnValues(row.1, infos);
    var normal := NormalForm(sent).rowChange.value;
    assert Columns(normal.after) == MarkUpdated(b, a);
    assert Columns(normal.before) == b by {
      NotUpdatedIffUnflagged(Some(RowData(b)));
    }
  }

  // -- What is sent, field by field -----------------------------------------

  /** A cell as a column: the names, types and keys of the table map for the columns it knows, the defaults
      for the others. */
  ghost predicate ShowsCell(tm: TableMap, row: Row, i: nat, col: ColumnValue)
    requires i < |row|
  {
    var names := if tm.metadata.Some? then tm.metadata.value.columnNames else None;
    var keys := if tm.metadata.Some? then tm.metadata.value.simplePrimaryKeys else None;
    var prefixed := if tm.metadata.Some? then tm.metadata.value.primaryKeysWithPrefix else None;
    var known := i < |tm.columnTypes|;
    && col.value == row[i]
    && col.name == (if known && names.Some? && i < |names.value| then names.value[i] else "col_" + Decimal(i))
    && col.columnType == (if known then tm.columnTypes[i] else 0)
    && (col.isKey <==>
          && known
          && ((keys.Some? && i in keys.value) || (prefixed.Some? && exists k :: k in prefixed.value && k.0 == i)))
  }

  /** A row as the columns of an image, without flags. */
  ghost predicate ShowsRow(tm: TableMap, row: Row, image: Option<RowData>) {
    && image.Some? && |image.value.columns| == |row|
    && forall i | 0 <= i < |row| :: ShowsCell(tm, row, i, image.value.columns[i]) && !image.value.columns[i].updated
  }

  /** A row as an after image, with the columns flagged whose values differ from the before image. */
  ghost predicate ShowsUpdate(tm: TableMap, before: Row, after: Row, image: Option<RowData>) {
    && image.Some? && |image.value.columns| == |after|
    && forall i | 0 <= i < |after| ::
         && ShowsCell(tm, after, i, image.value.columns[i])
         && (image.value.columns[i].updated <==> i >= |before| || before[i] != after[i])
  }

  /** A column takes nulls unless the null bitmap says that it does not. */
  lemma NullableUnlessCleared(tm: TableMap, i: nat)
    requires i < |tm.columnTypes|
    ensures |ColumnInfos(tm)| == |tm.columnTypes|
    ensures !ColumnInfos(tm)[i].isNullable <==> i < |tm.nullBitmap| && !tm.nullBitmap[i]
  {
  }

  lemma CellsAreShown(tm: TableMap, row: Row)
    ensures ShowsRow(tm, row, Some(RowData(ExtractColumnValues(row, ColumnInfos(tm)))))
  {
    forall i | 0 <= i < |row|
      ensures ShowsCell(tm, row, i, ExtractColumnValues(row, ColumnInfos(tm))[i])
    {
      if i < |tm.columnTypes| && tm.metadata.Some? && tm.metadata.value.primaryKeysWithPrefix.Some? {
        var pks := tm.metadata.value.primaryKeysWithPrefix.value;
        if k :| 0 <= k < |pks| && pks[k].0 == i {
          assert pks[k] in pks;
        }
      }
    }
  }

  lemma UpdateIsShown(tm: TableMap, before: Row, after: Row)
    ensures
      var infos := ColumnInfos(tm);
      ShowsUpdate(tm, before, after,
        Some(RowData(MarkUpdated(ExtractColumnValues(before, infos), ExtractColumnValues(after, infos)))))
  {
    CellsAreShown(tm, before);
    CellsAreShown(tm, after);
    hide ColumnInfos;
  }

  /** The fields that every event takes from its header and its history. */
  predicate TakesContext(e: CanalEvent, items: seq<Item>, start: string)
    requires items != [] && Last(items).Received?
  {
    var header := Last(items).header;
    && e.journalName == FileAt(items, start) && e.gtid == GtidAt(items)
    && e.position == header.nextPosition && e.serverId == header.serverId && e.executeTime == header.timestamp
    && e.rawBytes == []
  }

  /** A row event of the table `tm`, without images. */
  predicate ShowsTable(e: CanalEvent, tm: TableMap, entryType: EventType, dmlType: DmlType) {
    && e.entryType == entryType && e.ddlSql == None
    && e.schemaName == tm.schema && e.tableName == tm.table
    && e.rowChange.Some? && e.rowChange.value.dmlType == dmlType
    && e.rowChange.value.schemaName == tm.schema && e.rowChange.value.tableName == tm.table
  }

  /** Inserted and deleted rows, one by one: an error for a table that is not known, and otherwise an event
      of the latest table map with the row as its one image. */
  lemma RowsAreSent(items: seq<Item>, start: string, id: u64, rows: seq<Row>, i: nat)
    requires items != [] && Last(items).Received? && i < |rows|
    requires Last(items).event == WriteRows(id, rows) || Last(items).event == DeleteRows(id, rows)
    ensures
      var sent, tm := Emitted(items, start), TableAt(items, id);
      && |sent| == |rows|
      && (tm.None? ==> sent[i] == Err(NotFound(id)))
      && (tm.Some? ==>
            && sent[i].Ok? && TakesContext(sent[i].value, items, start)
            && var e := sent[i].value;
            if Last(items).event.WriteRows? then
              && ShowsTable(e, tm.value, Insert, DmlInsert)
              && e.rowChange.value.before == None && ShowsRow(tm.value, rows[i], e.rowChange.value.after)
            else
              && ShowsTable(e, tm.value, Delete, DmlDelete)
              && e.rowChange.value.after == None && ShowsRow(tm.value, rows[i], e.rowChange.value.before))
  {
    if TableAt(items, id).Some? {
      CellsAreShown(TableAt(items, id).value, rows[i]);
    }
    hide ShowsRow, ColumnInfos, ExtractColumnValues, TableAt, FileAt, GtidAt;
  }

  /** Updated rows, one by one. */
  lemma UpdatesAreSent(items: seq<Item>, start: string, id: u64, rows: seq<(Row, Row)>, i: nat)
    requires items != [] && Last(items).Received? && i < |rows| && Last(items).event == UpdateRows(id, rows)
    ensures
      var sent, tm := Emitted(items, start), TableAt(items, id);
      && |sent| == |rows|
      && (tm.None? ==> sent[i] == Err(NotFound(id)))
      && (tm.Some? ==>
            && sent[i].Ok? && TakesContext(sent[i].value, items, start)
            && ShowsTable(sent[i].value, tm.value, Update, DmlUpdate)
            && ShowsRow(tm.value, rows[i].0, sent[i].value.rowChange.value.before)
            && ShowsUpdate(tm.value, rows[i].0, rows[i].1, sent[i].value.rowChange.value.after))
  {
    if TableAt(items, id).Some? {
      CellsAreShown(TableAt(items, id).value, rows[i].0);
      UpdateIsShown(TableAt(items, id).value, rows[i].0, rows[i].1);
    }
    hide ShowsRow, ShowsUpdate, ColumnInfos, ExtractColumnValues, MarkUpdated, TableAt, FileAt, GtidAt;
  }

  /** A statement is sent as DDL: whole if it has at most 65536 bytes, else its first 65536 characters. */
  lemma StatementIsSent(items: seq<Item>, start: string, schema: string, sql: string)
    requires items != [] && Last(items).Received? && Last(items).event == QueryEvent(schema, sql)
    ensures
      var sent := Emitted(items, start);
      && |sent| == 1 && sent[0].Ok? && TakesContext(sent[0].value, items, start)
      && var e := sent[0].value;
      && e.entryType == Ddl && e.schemaName == schema && e.tableName == "" && e.rowChange == None
      && e.ddlSql.Some? && e.ddlSql.value <= sql
      && (Utf8Len(sql) <= 65536 ==> e.ddlSql.value == sql)
      && (Utf8Len(sql) > 65536 ==> |e.ddlSql.value| == Min(65536, |sql|))
  {
    hide Utf8Len, FileAt, GtidAt;
  }

  /** A broken item is reported, and nothing else sends anything. */
  lemma OthersAreSilent(items: seq<Item>, start: string)
    requires items != []
    ensures Last(items).Broken? ==> Emitted(items, start) == [Err(Protocol)]
    ensures Last(items).Received? && !Emits(Last(items).event) ==> Emitted(items, start) == []
  {
  }

  /** The items of a stream are sent one after the other. */
  lemma {:induction false} OutputOfMore(items: seq<Item>, item: Item, start: string)
    ensures Output([], start) == []
    ensures Output(items + [item], start) == Output(items, start) + Emitted(items + [item], start)
  {
    hide Emitted;
    assert Front(items + [item]) == items;
  }

  // -- The history that counts ----------------------------------------------

  predicate Rotates(items: seq<Item>, k: int) {
    0 <= k < |items| && items[k].Received? && items[k].event.RotateEvent?
  }

  predicate Announces(items: seq<Item>, k: int) {
    0 <= k < |items| && items[k].Received? && items[k].event.GtidEvent?
  }

  predicate Maps(items: seq<Item>, k: int, id: u64) {
    0 <= k < |items| && items[k].Received? && items[k].event.TableMapEvent? && items[k].event.tableMap.tableId == id
  }

  /** The file an event is in is the one of the last rotation up to it, or the one the stream started in. */
  lemma {:induction false} FileIsOfLastRotation(items: seq<Item>, start: string, k: int)
    requires !exists j :: j > k && Rotates(items, j)
    ensures Rotates(items, k) ==> FileAt(items, start) == items[k].event.file
    ensures k == -1 ==> FileAt(items, start) == start
  {
    if items != [] && k < |items| - 1 {
      assert !Rotates(items, |items| - 1);
      assert forall j | j > k && Rotates(Front(items), j) :: Rotates(items, j);
      FileIsOfLastRotation(Front(items), start, k);
    }
  }

  /** The GTID of an event is the one announced last, and rotations do not end it. */
  lemma {:induction false} GtidIsLastAnnounced(items: seq<Item>, k: int)
    requires !exists j :: j > k && Announces(items, j)
    ensures Announces(items, k) ==> GtidAt(items) == Some(items[k].event.gtid)
    ensures k == -1 ==> GtidAt(items) == None
  {
    if items != [] && k < |items| - 1 {
      assert !Announces(items, |items| - 1);
      assert forall j | j > k && Announces(Front(items), j) :: Announces(items, j);
      GtidIsLastAnnounced(Front(items), k);
    }
  }

  /** The table of an id is the one mapped to it last, provided that there has been no rotation since. */
  lemma {:induction false} TableIsLastMapped(items: seq<Item>, id: u64, k: int)
    requires !exists j :: j > k && (Maps(items, j, id) || Rotates(items, j))
    ensures Maps(items, k, id) ==> TableAt(items, id) == Some(items[k].event.tableMap)
    ensures k == -1 || Rotates(items, k) ==> TableAt(items, id) == None
  {
    if items != [] && k < |items| - 1 {
      assert !Maps(items, |items| - 1, id) && !Rotates(items, |items| - 1);
      assert forall j | j > k && Maps(Front(items), j, id) :: Maps(items, j, id);
      assert forall j | j > k && Rotates(Front(items), j) :: Rotates(items, j);
      TableIsLastMapped(Front(items), id, k);
    }
  }
}
