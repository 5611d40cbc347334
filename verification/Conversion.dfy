/** An event on the wire: the server turns it into a protobuf entry, the client turns the entry back
    into an event. */
module Conversion {
  import opened CanalTypes
  import opened JournalOrder

  // -- Messages -------------------------------------------------------------

  datatype Column = Column(
    name: string,
    value: string,
    isKey: bool,
    updated: bool,
    mysqlType: string,
    sqlType: i32,
    isNull: Option<bool>)

  datatype RowDataMsg = RowDataMsg(beforeColumns: seq<Column>, afterColumns: seq<Column>)

  datatype RowChangeMsg = RowChangeMsg(
    eventType: Option<i32>,
    isDdl: Option<bool>,
    sql: string,
    ddlSchemaName: string,
    rowDatas: seq<RowDataMsg>)

  datatype Header = Header(
    logfileName: string,
    logfileOffset: i64,
    serverId: i64,
    executeTime: i64,
    schemaName: string,
    tableName: string,
    gtid: string,
    eventType: Option<i32>,
    sourceType: Option<i32>,
    eventLength: i64)

  datatype Entry = Entry(header: Option<Header>, storeValue: seq<byte>)

  /** Protobuf's byte encodings are a parameter of the model. */
  datatype Prost = Prost(
    encodeRowChange: RowChangeMsg -> seq<byte>,
    decodeRowChange: seq<byte> -> Option<RowChangeMsg>,
    encodeEntry: Entry -> seq<byte>,
    decodeEntry: seq<byte> -> Option<Entry>)

  /** Decoding undoes encoding, and a message with its event type set does not encode to nothing. */
  ghost predicate Lawful(p: Prost) {
    && (forall m: RowChangeMsg :: p.decodeRowChange(p.encodeRowChange(m)) == Some(m))
    && (forall m: Entry :: p.decodeEntry(p.encodeEntry(m)) == Some(m))
    && (forall m: RowChangeMsg :: m.eventType.Some? ==> 0 < |p.encodeRowChange(m)|)
  }

  // Values of the protobuf enum EventType.
  const PROTO_INSERT: i32 := 1
  const PROTO_UPDATE: i32 := 2
  const PROTO_DELETE: i32 := 3
  const PROTO_QUERY: i32 := 7
  const PROTO_XACOMMIT: i32 := 13
  const PROTO_MHEARTBEAT: i32 := 15
  // `Type::Mysql`.
  const PROTO_MYSQL: i32 := 2

  // -- Server: event to entry -----------------------------------------------

  /** A type that the server cannot put on the wire has no number. */
  function EventTypeToProto(t: EventType): Option<i32> {
    match t
    case Insert => Some(PROTO_INSERT)
    case Update => Some(PROTO_UPDATE)
    case Delete => Some(PROTO_DELETE)
    case Ddl => Some(PROTO_QUERY)
    case Query => Some(PROTO_QUERY)
    case Rotate => Some(PROTO_QUERY)
    case Xid => Some(PROTO_XACOMMIT)
    case Heartbeat => Some(PROTO_MHEARTBEAT)
    case Unknown(_) => None
  }

  function DmlTypeToProto(t: DmlType): i32 {
    match t
    case DmlInsert => PROTO_INSERT
    case DmlUpdate => PROTO_UPDATE
    case DmlDelete => PROTO_DELETE
  }

  /** `i32::to_string`. */
  function RenderInt(n: int): string {
    if n < 0 then "-" + Decimal(-n) else Decimal(n)
  }

  function GetOrEmpty(s: Option<string>): string {
    if s.Some? then s.value else ""
  }

  function ColumnToProto(col: ColumnValue, updated: bool): Column {
    Column(col.name, GetOrEmpty(col.value), col.isKey, updated, RenderInt(col.columnType), col.columnType,
           if col.value.None? then Some(true) else None)
  }

  function BeforeToProto(columns: seq<ColumnValue>): seq<Column> {
    seq(|columns|, i requires 0 <= i < |columns| => ColumnToProto(columns[i], false))
  }

  function AfterToProto(columns: seq<ColumnValue>): seq<Column> {
    seq(|columns|, i requires 0 <= i < |columns| => ColumnToProto(columns[i], columns[i].updated))
  }

  function Columns(image: Option<RowData>): seq<ColumnValue> {
    if image.Some? then image.value.columns else []
  }

  /** The row change that is stored in an event's entry. */
  function RowChangeToProto(e: CanalEvent, protoType: i32): RowChangeMsg {
    if e.rowChange.Some? then
      var change := e.rowChange.value;
      RowChangeMsg(Some(DmlTypeToProto(change.dmlType)), None, "", "",
        [RowDataMsg(BeforeToProto(Columns(change.before)), AfterToProto(Columns(change.after)))])
    else if e.ddlSql.Some? then
      RowChangeMsg(Some(PROTO_QUERY), Some(true), e.ddlSql.value, e.schemaName, [])
    else
      RowChangeMsg(Some(protoType), None, "", "", [])
  }

  /** A length as an i64; no buffer in memory is too long for one. */
  function Length(bytes: seq<byte>): i64 {
    if |bytes| < TWO_63 then |bytes| else TWO_63 - 1
  }

  function EventToEntry(p: Prost, e: CanalEvent): Result<Entry, CanalError> {
    match EventTypeToProto(e.entryType)
    case None => Err(Protocol)
    case Some(protoType) =>
      var value := p.encodeRowChange(RowChangeToProto(e, protoType));
      var header := Header(e.journalName, AsI64(e.position), AsI64(e.serverId), e.executeTime, e.schemaName,
        e.tableName, GetOrEmpty(e.gtid), Some(protoType), Some(PROTO_MYSQL),
        Length(if value != [] then value else e.rawBytes));
      Ok(Entry(Some(header), value))
  }

  /** `canal_event_to_entry`. */
  method CanalEventToEntry(p: Prost, event: CanalEvent) returns (r: Result<Entry, CanalError>)
    ensures r == EventToEntry(p, event)
  {
    var protoType := EventTypeToProto(event.entryType);
    if protoType.None? {
      return Err(Protocol);
    }
    var header := Header(event.journalName, AsI64(event.position), AsI64(event.serverId), event.executeTime,
      event.schemaName, event.tableName, GetOrEmpty(event.gtid), Some(protoType.value), Some(PROTO_MYSQL), 0);
    var rc := RowChangeMsg(None, None, "", "", []);
    if event.rowChange.Some? {
      var change := event.rowChange.value;
      rc := rc.(eventType := Some(DmlTypeToProto(change.dmlType)));
      var rd := RowDataMsg([], []);
      if change.before.Some? {
        var columns := change.before.value.columns;
        for i := 0 to |columns|
          invariant rd == RowDataMsg(BeforeToProto(columns[..i]), [])
        {
          rd := rd.(beforeColumns := rd.beforeColumns + [ColumnToProto(columns[i], false)]);
          assert columns[..i + 1] == columns[..i] + [columns[i]];
        }
        assert columns[..|columns|] == columns;
      }
      ghost var before := rd.beforeColumns;
      if change.after.Some? {
        var columns := change.after.value.columns;
        for i := 0 to |columns|
          invariant rd == RowDataMsg(before, AfterToProto(columns[..i]))
        {
          rd := rd.(afterColumns := rd.afterColumns + [ColumnToProto(columns[i], columns[i].updated)]);
          assert columns[..i + 1] == columns[..i] + [columns[i]];
        }
        assert columns[..|columns|] == columns;
      }
      assert rd == RowDataMsg(BeforeToProto(Columns(change.before)), AfterToProto(Columns(change.after)));
      rc := rc.(rowDatas := rc.rowDatas + [rd]);
      assert rc.rowDatas == [rd];
    } else if event.ddlSql.Some? {
      rc := RowChangeMsg(Some(PROTO_QUERY), Some(true), event.ddlSql.value, event.schemaName, []);
    } else {
      rc := rc.(eventType := Some(protoType.value));
    }
    var value := p.encodeRowChange(rc);
    header := header.(eventLength := Length(if value != [] then value else event.rawBytes));
    r := Ok(Entry(Some(header), value));
  }

  // -- Client: entry to event -----------------------------------------------

  function EventTypeFromProto(v: i32): EventType {
    if v == 1 then Insert
    else if v == 2 then Update
    else if v == 3 then Delete
    else if v == 4 then Ddl
    else if v == 5 then Query
    else if v == 7 then Ddl
    else if v == 13 then Xid
    else if v == 15 then Heartbeat
    else Unknown(v)
  }

  function DmlTypeFromProto(v: Option<i32>): DmlType {
    if v == Some(2) then DmlUpdate else if v == Some(3) then DmlDelete else DmlInsert
  }

  function ColumnFromProto(c: Column): ColumnValue {
    ColumnValue(c.name, if c.value == "" && c.isNull.Some? then None else Some(c.value), c.sqlType, c.isKey, c.updated)
  }

  function ImageFromProto(columns: seq<Column>): Option<RowData> {
    if columns == [] then None
    else Some(RowData(seq(|columns|, i requires 0 <= i < |columns| => ColumnFromProto(columns[i]))))
  }

  function RowChangeFromProto(hdr: Header, rc: RowChangeMsg): (Option<RowChange>, Option<string>) {
    var ddl := if rc.isDdl == Some(true) then Some(rc.sql) else None;
    var change :=
      if ddl.None? && rc.rowDatas != [] then
        var rd := rc.rowDatas[0];
        Some(RowChange(hdr.tableName, hdr.schemaName, ImageFromProto(rd.beforeColumns),
          ImageFromProto(rd.afterColumns), DmlTypeFromProto(rc.eventType)))
      else None;
    (change, ddl)
  }

  /** `entry_bytes_to_event`. */
  function EntryBytesToEvent(p: Prost, data: seq<byte>): Result<CanalEvent, CanalError> {
    match p.decodeEntry(data)
    case None => Err(Protocol)
    case Some(entry) =>
      if entry.header.None? then Err(Protocol)
      else
        var hdr := entry.header.value;
        var (change, ddl) :=
          if entry.storeValue == [] then (None, None)
          else
            match p.decodeRowChange(entry.storeValue)
            case None => (None, None)
            case Some(rc) => RowChangeFromProto(hdr, rc);
        Ok(CanalEvent(hdr.logfileName, AsU64(hdr.logfileOffset), AsU64(hdr.serverId), hdr.executeTime,
          EventTypeFromProto(if hdr.eventType.Some? then hdr.eventType.value else 0),
          hdr.schemaName, hdr.tableName, change, ddl,
          if hdr.gtid == "" then None else Some(hdr.gtid), entry.storeValue))
  }

  // -- What survives the wire -----------------------------------------------

  /** The event as its consumer sees it, before `rawBytes` is replaced: DDL, query and rotate events
      are all DDL; an image without columns and an empty gtid are absent; the names in a row change
      are those of the event; only the after image carries `updated` flags; an event with a row change
      has no DDL text. Everything else is kept, a null apart from an empty string. */
  function NormalForm(e: CanalEvent): CanalEvent {
    e.(entryType := if e.entryType.Query? || e.entryType.Rotate? then Ddl else e.entryType,
       rowChange :=
         if e.rowChange.None? then None
         else
           Some(e.rowChange.value.(
             tableName := e.tableName,
             schemaName := e.schemaName,
             before := NormalImage(NotUpdated(e.rowChange.value.before)),
             after := NormalImage(e.rowChange.value.after))),
       ddlSql := if e.rowChange.Some? then None else e.ddlSql,
       gtid := if e.gtid == Some("") then None else e.gtid)
  }

  function NormalImage(image: Option<RowData>): Option<RowData> {
    if Columns(image) == [] then None else image
  }

  function NotUpdated(image: Option<RowData>): Option<RowData> {
    if image.None? then None
    else
      var columns := image.value.columns;
      Some(RowData(seq(|columns|, i requires 0 <= i < |columns| => columns[i].(updated := false))))
  }

  lemma ImagesRoundTrip(image: Option<RowData>)
    ensures ImageFromProto(AfterToProto(Columns(image))) == NormalImage(image)
    ensures ImageFromProto(BeforeToProto(Columns(image))) == NormalImage(NotUpdated(image))
  {
    var columns := Columns(image);
    if columns != [] {
      assert ImageFromProto(AfterToProto(columns)).value.columns == columns;
      assert ImageFromProto(BeforeToProto(columns)).value.columns == NotUpdated(image).value.columns;
    }
  }

  /** The server refuses exactly the events of unknown type; the client decodes every other one to its
      normal form, with the encoded row change as raw bytes. */
  lemma WireRoundTrip(p: Prost, e: CanalEvent)
    requires Lawful(p)
    ensures EventToEntry(p, e).Err? <==> e.entryType.Unknown?
    ensures
      match EventToEntry(p, e)
      case Err(_) => true
      case Ok(entry) =>
        EntryBytesToEvent(p, p.encodeEntry(entry)) == Ok(NormalForm(e).(rawBytes := entry.storeValue))
  {
    hide AfterToProto, BeforeToProto, ImageFromProto, NormalImage, NotUpdated;
    var protoType := EventTypeToProto(e.entryType);
    if protoType.Some? {
      var rc := RowChangeToProto(e, protoType.value);
      var entry := EventToEntry(p, e).value;
      assert p.decodeEntry(p.encodeEntry(entry)) == Some(entry);
      assert p.decodeRowChange(p.encodeRowChange(rc)) == Some(rc);
      assert entry.storeValue != [];
      if e.rowChange.Some? {
        ImagesRoundTrip(e.rowChange.value.before);
        ImagesRoundTrip(e.rowChange.value.after);
      }
    }
  }

  /** Encoding what a client has decoded gives the same entry again, so the normal form is reached
      after one trip. */
  lemma ReencodingIsStable(p: Prost, e: CanalEvent, raw: seq<byte>)
    requires Lawful(p)
    ensures EventToEntry(p, NormalForm(e).(rawBytes := raw)) == EventToEntry(p, e)
    ensures NormalForm(NormalForm(e)) == NormalForm(e)
  {
    var n := NormalForm(e);
    if e.rowChange.Some? {
      var before := e.rowChange.value.before;
      assert BeforeToProto(Columns(NotUpdated(before))) == BeforeToProto(Columns(before));
      assert NotUpdated(n.rowChange.value.before) == n.rowChange.value.before by {
        if n.rowChange.value.before.Some? {
          assert NotUpdated(NotUpdated(before)).value.columns == NotUpdated(before).value.columns;
        }
      }
      assert Columns(n.rowChange.value.before) == Columns(NotUpdated(before));
      assert Columns(n.rowChange.value.after) == Columns(e.rowChange.value.after);
    }
    var protoType := EventTypeToProto(e.entryType);
    if protoType.Some? {
      assert RowChangeToProto(n, protoType.value) == RowChangeToProto(e, protoType.value);
      assert |p.encodeRowChange(RowChangeToProto(e, protoType.value))| > 0;
    }
  }

  /** Events that reach the client as they were stored. */
  predicate Canonical(e: CanalEvent) {
    && !e.entryType.Query? && !e.entryType.Rotate?
    && e.gtid != Some("")
    && (e.rowChange.Some? ==>
          var change := e.rowChange.value;
          && e.ddlSql.None?
          && change.tableName == e.tableName && change.schemaName == e.schemaName
          && change.before != Some(RowData([])) && change.after != Some(RowData([]))
          && forall i | 0 <= i < |Columns(change.before)| :: !Columns(change.before)[i].updated)
  }

  /** An event is delivered unchanged, but for its raw bytes, if and only if it is canonical. */
  lemma LosslessIffCanonical(e: CanalEvent)
    ensures NormalForm(e) == e <==> Canonical(e)
  {
    if e.rowChange.Some? {
      NotUpdatedIffUnflagged(e.rowChange.value.before);
    }
  }

  lemma NotUpdatedIffUnflagged(image: Option<RowData>)
    ensures NotUpdated(image) == image <==>
            forall i | 0 <= i < |Columns(image)| :: !Columns(image)[i].updated
  {
    if image.Some? {
      var columns, cleared := Columns(image), Columns(NotUpdated(image));
      assert image == Some(RowData(columns)) && NotUpdated(image) == Some(RowData(cleared));
      if cleared == columns {
        forall i | 0 <= i < |columns| ensures !columns[i].updated {
          assert cleared[i] == columns[i];
        }
      } else {
        var i :| 0 <= i < |columns| && cleared[i] != columns[i];
      }
    }
  }

  // -- What is on the wire --------------------------------------------------

  /** The protobuf number of an event type. */
  predicate HasNumber(t: EventType, n: i32) {
    || (t.Insert? && n == 1) || (t.Update? && n == 2) || (t.Delete? && n == 3)
    || ((t.Ddl? || t.Query? || t.Rotate?) && n == 7)
    || (t.Xid? && n == 13) || (t.Heartbeat? && n == 15)
  }

  predicate IsDml(t: DmlType, n: i32) {
    (t.DmlInsert? && n == 1) || (t.DmlUpdate? && n == 2) || (t.DmlDelete? && n == 3)
  }

  /** The decimal text of a number, with a minus sign if it is negative. */
  predicate IsText(s: string, n: int) {
    && s != ""
    && var digits := if n < 0 then s[1..] else s;
    && (n < 0 ==> s[0] == '-')
    && digits != "" && AllDigits(digits) && Value(digits) == (if n < 0 then -n else n)
  }

  lemma RenderIntIsText(n: int)
    ensures IsText(RenderInt(n), n)
  {
    hide Value, Decimal;
    if n < 0 {
      DecimalIsUsual(-n);
      assert ("-" + Decimal(-n))[1..] == Decimal(-n);
    } else {
      DecimalIsUsual(n);
    }
  }

  /** A column as it is sent: field by field, with the flag it is sent with. */
  predicate ShowsColumn(c: Column, col: ColumnValue, updated: bool) {
    && c.name == col.name && c.isKey == col.isKey && c.updated == updated && c.sqlType == col.columnType
    && c.value == (if col.value.Some? then col.value.value else "")
    && c.isNull == (if col.value.None? then Some(true) else None)
    && IsText(c.mysqlType, col.columnType)
  }

  lemma ColumnIsShown(col: ColumnValue, updated: bool)
    ensures ShowsColumn(ColumnToProto(col, updated), col, updated)
  {
    RenderIntIsText(col.columnType);
    hide IsText, RenderInt;
  }

  /** The entry of an event, field by field. The row change in it has the DML type of the change and one row
      of all the columns of its images, the before image unflagged; or the DDL text and its schema; or
      nothing but the type. */
  lemma EntryFields(p: Prost, e: CanalEvent)
    requires Lawful(p) && EventToEntry(p, e).Ok?
    ensures
      var entry := EventToEntry(p, e).value;
      && entry.header.Some? && entry.storeValue != []
      && var h := entry.header.value;
      && h.logfileName == e.journalName && AsU64(h.logfileOffset) == e.position && AsU64(h.serverId) == e.serverId
      && h.executeTime == e.executeTime && h.schemaName == e.schemaName && h.tableName == e.tableName
      && h.gtid == (if e.gtid.Some? then e.gtid.value else "")
      && h.eventType.Some? && HasNumber(e.entryType, h.eventType.value) && h.sourceType == Some(2)
      && (|entry.storeValue| < TWO_63 ==> h.eventLength == |entry.storeValue|)
    ensures
      var entry := EventToEntry(p, e).value;
      var decoded := p.decodeRowChange(entry.storeValue);
      && decoded.Some?
      && var rc := decoded.value;
      if e.rowChange.Some? then
        var before, after := Columns(e.rowChange.value.before), Columns(e.rowChange.value.after);
        && rc.eventType.Some? && IsDml(e.rowChange.value.dmlType, rc.eventType.value)
        && rc.isDdl == None && rc.sql == "" && rc.ddlSchemaName == "" && |rc.rowDatas| == 1
        && |rc.rowDatas[0].beforeColumns| == |before| && |rc.rowDatas[0].afterColumns| == |after|
        && (forall i | 0 <= i < |before| :: ShowsColumn(rc.rowDatas[0].beforeColumns[i], before[i], false))
        && (forall i | 0 <= i < |after| :: ShowsColumn(rc.rowDatas[0].afterColumns[i], after[i], after[i].updated))
      else if e.ddlSql.Some? then
        rc == RowChangeMsg(Some(7), Some(true), e.ddlSql.value, e.schemaName, [])
      else
        && rc.eventType.Some? && HasNumber(e.entryType, rc.eventType.value)
        && rc == RowChangeMsg(rc.eventType, None, "", "", [])
  {
    var protoType := EventTypeToProto(e.entryType).value;
    var rc := RowChangeToProto(e, protoType);
    assert p.decodeRowChange(p.encodeRowChange(rc)) == Some(rc) && p.encodeRowChange(rc) != [];
    if e.rowChange.Some? {
      ColumnsAreShown(Columns(e.rowChange.value.before));
      ColumnsAreShown(Columns(e.rowChange.value.after));
    }
    hide Lawful, ShowsColumn, ColumnToProto, Columns;
  }

  lemma ColumnsAreShown(columns: seq<ColumnValue>)
    ensures forall i | 0 <= i < |columns| :: ShowsColumn(BeforeToProto(columns)[i], columns[i], false)
    ensures forall i | 0 <= i < |columns| :: ShowsColumn(AfterToProto(columns)[i], columns[i], columns[i].updated)
  {
    forall i | 0 <= i < |columns|
      ensures ShowsColumn(BeforeToProto(columns)[i], columns[i], false)
      ensures ShowsColumn(AfterToProto(columns)[i], columns[i], columns[i].updated)
    {
      ColumnIsShown(columns[i], false);
      ColumnIsShown(columns[i], columns[i].updated);
    }
  }

  /** What the client makes of bytes that its own server would not send: no entry, or one without a header,
      is an error; a row change that does not decode is left out, and so is one that says it is DDL, whose
      text is kept; of several rows only the first is taken; an unknown number of an event type is kept. */
  lemma ForeignEntries(p: Prost, data: seq<byte>)
    ensures p.decodeEntry(data).None? || p.decodeEntry(data).value.header.None? ==>
              EntryBytesToEvent(p, data) == Err(Protocol)
    ensures
      p.decodeEntry(data).Some? && p.decodeEntry(data).value.header.Some? ==>
        var entry := p.decodeEntry(data).value;
        && EntryBytesToEvent(p, data).Ok?
        && var e, h := EntryBytesToEvent(p, data).value, entry.header.value;
        && e.journalName == h.logfileName && e.executeTime == h.executeTime
        && e.schemaName == h.schemaName && e.tableName == h.tableName && e.rawBytes == entry.storeValue
        && (h.eventType == Some(4) ==> e.entryType == Ddl) && (h.eventType == Some(5) ==> e.entryType == Query)
        && (h.eventType == None ==> e.entryType == EventType.Unknown(0))
        && (h.eventType.Some? && h.eventType.value !in {1, 2, 3, 4, 5, 7, 13, 15} ==>
              e.entryType == EventType.Unknown(h.eventType.value))
        && (entry.storeValue == [] || p.decodeRowChange(entry.storeValue).None? ==>
              e.rowChange == None && e.ddlSql == None)
        && (entry.storeValue != [] && p.decodeRowChange(entry.storeValue).Some? ==>
              var rc := p.decodeRowChange(entry.storeValue).value;
              && e.ddlSql == (if rc.isDdl == Some(true) then Some(rc.sql) else None)
              && (e.rowChange.Some? <==> rc.isDdl != Some(true) && rc.rowDatas != [])
              && (e.rowChange.Some? ==>
                    && e.rowChange.value.before == ImageFromProto(rc.rowDatas[0].beforeColumns)
                    && e.rowChange.value.after == ImageFromProto(rc.rowDatas[0].afterColumns)
                    && e.rowChange.value.dmlType ==
                       if rc.eventType == Some(2) then DmlUpdate
                       else if rc.eventType == Some(3) then DmlDelete else DmlInsert))
  {
    hide ImageFromProto;
  }

  /** A column as the client reads it: an empty value is a null only if it is marked, in whatever way. */
  lemma ForeignColumns(columns: seq<Column>)
    ensures columns == [] ==> ImageFromProto(columns) == None
    ensures
      columns != [] ==>
        && ImageFromProto(columns).Some? && |Columns(ImageFromProto(columns))| == |columns|
        && forall i | 0 <= i < |columns| ::
             var c, col := columns[i], Columns(ImageFromProto(columns))[i];
             && col.name == c.name && col.columnType == c.sqlType && col.isKey == c.isKey && col.updated == c.updated
             && col.value == if c.value == "" && c.isNull.Some? then None else Some(c.value)
  {
  }
}
