/** The server's side of one client connection: the packet handlers and the session table
    (canal-server). Each handler is a method proved against a function on values; the functions are
    what the run-level results are about. */
module Session {
  import opened CanalTypes
  import opened JournalOrder
  import opened EventLog
  import opened MemoryStore
  import opened Conversion

  datatype ClientSession = ClientSession(destination: string, filter: FilterPattern, lastAck: Option<LogPosition>)

  type Sessions = map<string, ClientSession>

  /** Registering replaces an earlier session of the same client, its stored ack included. */
  function Registered(sessions: Sessions, clientId: string, destination: string, filter: FilterPattern): Sessions {
    sessions[clientId := ClientSession(destination, filter, None)]
  }

  function WithAck(sessions: Sessions, clientId: string, pos: LogPosition): Sessions {
    if clientId in sessions then sessions[clientId := sessions[clientId].(lastAck := Some(pos))] else sessions
  }

  function AckOf(sessions: Sessions, clientId: string): Option<LogPosition> {
    if clientId in sessions then sessions[clientId].lastAck else None
  }

  /** The state of one connection (`ClientState`). */
  datatype Conn = Conn(
    clientId: Option<string>,
    currentPos: Option<LogPosition>,
    lastAckPos: Option<LogPosition>,
    lastGetBatchId: int,
    lastGetEndPos: Option<LogPosition>,
    authenticated: bool,
    authErrors: nat,
    unknownPackets: nat)

  const NEW_CONN := Conn(None, None, None, 0, None, false, 0, 0)

  datatype AuthBody = AuthBody(
    password: seq<byte>,
    clientId: string,
    destination: string,
    filter: string,
    startTimestamp: i64)

  datatype SubBody = SubBody(clientId: string, destination: string, filter: string)

  /** A frame as the packet loop sees it; a body that does not decode is absent. */
  datatype Frame =
    | KeepAlive
    | Undecodable
    | Auth(auth: Option<AuthBody>)
    | Sub(sub: Option<SubBody>)
    | Get(fetchSize: Option<i32>)
    | Ack(batchId: Option<int>)
    | Rollback(decodes: bool)
    | Heartbeat
    | Other

  datatype Refusal =
    | NotAuthenticated | AlreadyAuthenticated | AuthenticationFailed
    | FilterTooLong | FilterInvalid | ClientIdMismatch
    | BelowEvictionWatermark

  datatype Reply =
    | AckOk
    | AckErr(refusal: Refusal)
    | Messages(batchId: int, entries: seq<seq<byte>>)

  datatype Config = Config(token: Option<seq<byte>>, re: Regexes, prost: Prost)

  /** What a handler leaves behind. `open` is false when it ends the connection with an error. */
  datatype Outcome = Outcome(conn: Conn, sessions: Sessions, replies: seq<Reply>, open: bool)

  const MAX_AUTH_ERRORS := 3
  const MAX_UNKNOWN_PACKETS := 10
  const MAX_FILTER_PATTERN_LEN := 256
  const MAX_FETCH_SIZE := 10_000
  const DEFAULT_START := NewPosition("mysql-bin.000001", 4)

  predicate ValidFilter(re: Regexes, f: FilterPattern) {
    re.valid(f.pattern) && (f.blackList != "" ==> re.valid(f.blackList))
  }

  // -- The handlers as functions --------------------------------------------

  function AuthOutcome(cfg: Config, conn: Conn, sessions: Sessions, auth: AuthBody): Outcome {
    if conn.authenticated then
      Outcome(conn, sessions, [AckErr(AlreadyAuthenticated)], true)
    else if cfg.token.Some? && auth.password != cfg.token.value then
      Outcome(conn.(authErrors := conn.authErrors + 1), sessions, [AckErr(AuthenticationFailed)],
        conn.authErrors + 1 < MAX_AUTH_ERRORS)
    else
      var cid := if auth.clientId == "" then "anonymous" else auth.clientId;
      var filter := if auth.filter == "" then DEFAULT_FILTER else FilterPattern(auth.filter, "");
      if auth.filter != "" && Utf8Len(auth.filter) > MAX_FILTER_PATTERN_LEN then
        Outcome(conn, sessions, [AckErr(FilterTooLong)], true)
      else if auth.filter != "" && !ValidFilter(cfg.re, filter) then
        Outcome(conn, sessions, [AckErr(FilterInvalid)], true)
      else
        Outcome(
          conn.(authenticated := true, clientId := Some(cid),
                currentPos :=
                  if auth.startTimestamp > 0 then Some(LogPosition("", 0, Some(auth.startTimestamp), None, None))
                  else conn.currentPos),
          Registered(sessions, cid, auth.destination, filter), [AckOk], true)
  }

  function SubOutcome(cfg: Config, conn: Conn, sessions: Sessions, sub: SubBody): Outcome {
    var blackList := if sub.clientId in sessions then sessions[sub.clientId].filter.blackList else "";
    var filter := FilterPattern(sub.filter, blackList);
    if conn.clientId.Some? && sub.clientId != conn.clientId.value then
      Outcome(conn, sessions, [AckErr(ClientIdMismatch)], true)
    else if Utf8Len(sub.filter) > MAX_FILTER_PATTERN_LEN then
      Outcome(conn, sessions, [AckErr(FilterTooLong)], true)
    else if !ValidFilter(cfg.re, filter) then
      Outcome(conn, sessions, [AckErr(FilterInvalid)], true)
    else
      Outcome(conn.(clientId := Some(sub.clientId)), Registered(sessions, sub.clientId, sub.destination, filter),
        [AckOk], true)
  }

  datatype GetDecision = GetBroken | GetRefused | GetFrom(start: LogPosition, size: nat)

  function FetchSize(requested: i32): nat {
    if requested < 0 then 100 else if requested < 1 then 1 else if requested > MAX_FETCH_SIZE then MAX_FETCH_SIZE
    else requested
  }

  /** The ack stored for the connection's identity. */
  function StoredAck(conn: Conn, sessions: Sessions): Option<LogPosition> {
    if conn.clientId.Some? then AckOf(sessions, conn.clientId.value) else None
  }

  /** Does the client carry a cursor of its own, on the connection or stored? */
  predicate HasOwnCursor(conn: Conn, sessions: Sessions) {
    conn.currentPos.Some? || StoredAck(conn, sessions).Some?
  }

  function CursorOf(conn: Conn, sessions: Sessions): LogPosition {
    if conn.currentPos.Some? then conn.currentPos.value
    else if StoredAck(conn, sessions).Some? then StoredAck(conn, sessions).value
    else DEFAULT_START
  }

  /** The first half of a Get, up to the read of the store. */
  function GetDecided(conn: Conn, sessions: Sessions, watermark: Option<Key>, requested: i32): GetDecision {
    var start := CursorOf(conn, sessions);
    if conn.clientId.None? then GetBroken
    else if HasOwnCursor(conn, sessions) && start.timestamp.None? && BelowWatermark(start, watermark) then GetRefused
    else GetFrom(start, FetchSize(requested))
  }

  function FilterOf(sessions: Sessions, clientId: Option<string>): Option<FilterPattern> {
    if clientId.Some? && clientId.value in sessions then Some(sessions[clientId.value].filter) else None
  }

  /** The events a client is sent; without a session nothing is filtered. */
  function ToSend(re: Regexes, filter: Option<FilterPattern>, events: seq<CanalEvent>): seq<CanalEvent> {
    if filter.None? then events else Select(re, filter.value, events)
  }

  /** The encoded entries, or nothing as soon as one event cannot be encoded. */
  function EncodeEvents(p: Prost, events: seq<CanalEvent>): Option<seq<seq<byte>>> {
    if events == [] then Some([])
    else
      match EventToEntry(p, events[0])
      case Err(_) => None
      case Ok(entry) =>
        var rest := EncodeEvents(p, events[1..]);
        if rest.None? then None else Some([p.encodeEntry(entry)] + rest.value)
  }

  /** The second half of a Get: answer with what the store returned, if anything, and move the cursor
      past all of it, sent or not. */
  function GetOutcome(cfg: Config, conn: Conn, sessions: Sessions, batch: Option<Events>): Outcome {
    if batch.None? || batch.value.events == [] then
      Outcome(conn, sessions, [Messages(0, [])], true)
    else
      var b := batch.value;
      var moved :=
        conn.(currentPos := Some(b.rangeEnd), lastGetBatchId := b.batchId, lastGetEndPos := Some(b.rangeEnd));
      var entries := EncodeEvents(cfg.prost, ToSend(cfg.re, FilterOf(sessions, conn.clientId), b.events));
      if entries.None? then Outcome(moved, sessions, [], false)
      else Outcome(moved, sessions, [Messages(b.batchId, entries.value)], true)
  }

  /** Only the batch sent last can be acked. */
  function AckOutcome(conn: Conn, sessions: Sessions, batchId: int): Outcome {
    if conn.clientId.Some? && conn.lastGetEndPos.Some? && batchId == conn.lastGetBatchId then
      Outcome(conn.(lastAckPos := conn.lastGetEndPos),
        WithAck(sessions, conn.clientId.value, conn.lastGetEndPos.value), [], true)
    else
      Outcome(conn, sessions, [], true)
  }

  /** One pass of the packet loop. A Get that is not refused goes on to wait for the store. */
  datatype Handling = Done(outcome: Outcome) | Reading(conn: Conn, start: LogPosition, size: nat)

  function Handle(cfg: Config, conn: Conn, sessions: Sessions, watermark: Option<Key>, frame: Frame): Handling {
    if frame.KeepAlive? then Done(Outcome(conn, sessions, [], true))
    else if frame.Undecodable? then Done(Outcome(conn, sessions, [], false))
    else if frame.Auth? then
      if frame.auth.None? then Done(Outcome(conn, sessions, [], false))
      else Done(AuthOutcome(cfg, conn, sessions, frame.auth.value))
    else if !conn.authenticated then Done(Outcome(conn, sessions, [AckErr(NotAuthenticated)], true))
    else if frame.Other? then
      Done(Outcome(conn.(unknownPackets := conn.unknownPackets + 1), sessions, [],
        conn.unknownPackets + 1 < MAX_UNKNOWN_PACKETS))
    else HandleKnown(cfg, conn.(unknownPackets := 0), sessions, watermark, frame)
  }

  /** The packets of an authenticated client. */
  function HandleKnown(cfg: Config, conn: Conn, sessions: Sessions, watermark: Option<Key>, frame: Frame): Handling
    requires frame.Sub? || frame.Get? || frame.Ack? || frame.Rollback? || frame.Heartbeat?
  {
    match frame
    case Sub(sub) =>
      if sub.None? then Done(Outcome(conn, sessions, [], false))
      else Done(SubOutcome(cfg, conn, sessions, sub.value))
    case Get(requested) =>
      if requested.None? then Done(Outcome(conn, sessions, [], false))
      else
        (match GetDecided(conn, sessions, watermark, requested.value)
         case GetBroken => Done(Outcome(conn, sessions, [], false))
         case GetRefused => Done(Outcome(conn, sessions, [AckErr(BelowEvictionWatermark)], true))
         case GetFrom(start, size) => Reading(conn, start, size))
    case Ack(batchId) =>
      if batchId.None? then Done(Outcome(conn, sessions, [], true))
      else Done(AckOutcome(conn, sessions, batchId.value))
    case Rollback(decodes) =>
      Done(Outcome(if decodes then conn.(currentPos := conn.lastAckPos) else conn, sessions, [], true))
    case Heartbeat =>
      Done(Outcome(conn, sessions, [AckOk], true))
  }

  // -- The handlers as the server runs them ---------------------------------

  class SessionManager {
    var sessions: Sessions

    constructor ()
      ensures sessions == map[]
    {
      sessions := map[];
    }

    method Register(clientId: string, destination: string, filter: FilterPattern)
      modifies this
      ensures sessions == Registered(old(sessions), clientId, destination, filter)
    {
      sessions := sessions[clientId := ClientSession(destination, filter, None)];
    }

    method Unregister(clientId: string)
      modifies this
      ensures sessions == old(sessions) - {clientId}
    {
      sessions := sessions - {clientId};
    }

    method UpdateAck(clientId: string, pos: LogPosition)
      modifies this
      ensures sessions == WithAck(old(sessions), clientId, pos)
    {
      if clientId in sessions {
        sessions := sessions[clientId := sessions[clientId].(lastAck := Some(pos))];
      }
    }
  }

  class Transport {
    var sent: seq<Reply>

    constructor ()
      ensures sent == []
    {
      sent := [];
    }

    method Send(r: Reply)
      modifies this
      ensures sent == old(sent) + [r]
    {
      sent := sent + [r];
    }
  }

  /** The loop that converts and encodes the events to send, ended by the first that has no encoding. */
  method EncodeInOrder(p: Prost, events: seq<CanalEvent>) returns (r: Option<seq<seq<byte>>>)
    ensures r == EncodeEvents(p, events)
  {
    hide EventToEntry;
    var entries: seq<seq<byte>> := [];
    assert events[0..] == events;
    assert forall rest: seq<seq<byte>> :: entries + rest == rest;
    for i := 0 to |events|
      invariant EncodeEvents(p, events) ==
                match EncodeEvents(p, events[i..])
                case None => None
                case Some(rest) => Some(entries + rest)
    {
      assert events[i..][0] == events[i] && events[i..][1..] == events[i + 1..];
      var entry := CanalEventToEntry(p, events[i]);
      if entry.Err? {
        return None;
      }
      var bytes := p.encodeEntry(entry.value);
      assert forall rest: seq<seq<byte>> :: entries + ([bytes] + rest) == entries + [bytes] + rest;
      entries := entries + [bytes];
    }
    assert events[|events|..] == [] && entries + [] == entries;
    return Some(entries);
  }

  class ClientState {
    var clientId: Option<string>
    var currentPos: Option<LogPosition>
    var lastAckPos: Option<LogPosition>
    var lastGetBatchId: int
    var lastGetEndPos: Option<LogPosition>
    var authenticated: bool
    var authErrors: nat
    var unknownPackets: nat

    function Value(): Conn
      reads this
    {
      Conn(clientId, currentPos, lastAckPos, lastGetBatchId, lastGetEndPos, authenticated, authErrors, unknownPackets)
    }

    constructor ()
      ensures Value() == NEW_CONN
    {
      clientId, currentPos, lastAckPos, lastGetBatchId, lastGetEndPos := None, None, None, 0, None;
      authenticated, authErrors, unknownPackets := false, 0, 0;
    }

    /** `handle_auth`. */
    method HandleAuth(cfg: Config, auth: AuthBody, sessions: SessionManager, tx: Transport) returns (open: bool)
      modifies this, sessions, tx
      ensures
        var o := AuthOutcome(cfg, old(Value()), old(sessions.sessions), auth);
        && Value() == o.conn && sessions.sessions == o.sessions
        && tx.sent == old(tx.sent) + o.replies && open == o.open
    {
      open := true;
      if authenticated {
        tx.Send(AckErr(AlreadyAuthenticated));
        return;
      }
      if cfg.token.Some? && auth.password != cfg.token.value {
        authErrors := authErrors + 1;
        tx.Send(AckErr(AuthenticationFailed));
        return authErrors < MAX_AUTH_ERRORS;
      }
      var cid := if auth.clientId == "" then "anonymous" else auth.clientId;
      var filter := DEFAULT_FILTER;
      if auth.filter != "" {
        if Utf8Len(auth.filter) > MAX_FILTER_PATTERN_LEN {
          tx.Send(AckErr(FilterTooLong));
          return;
        }
        filter := FilterPattern(auth.filter, "");
        if !ValidFilter(cfg.re, filter) {
          tx.Send(AckErr(FilterInvalid));
          return;
        }
      }
      authenticated := true;
      sessions.Register(cid, auth.destination, filter);
      clientId := Some(cid);
      if auth.startTimestamp > 0 {
        currentPos := Some(LogPosition("", 0, Some(auth.startTimestamp), None, None));
      }
      tx.Send(AckOk);
    }

    /** `handle_sub`. */
    method HandleSub(cfg: Config, sub: SubBody, sessions: SessionManager, tx: Transport)
      modifies this, sessions, tx
      ensures
        var o := SubOutcome(cfg, old(Value()), old(sessions.sessions), sub);
        && Value() == o.conn && sessions.sessions == o.sessions
        && tx.sent == old(tx.sent) + o.replies && o.open
    {
      if clientId.Some? && sub.clientId != clientId.value {
        tx.Send(AckErr(ClientIdMismatch));
        return;
      }
      if Utf8Len(sub.filter) > MAX_FILTER_PATTERN_LEN {
        tx.Send(AckErr(FilterTooLong));
        return;
      }
      var blackList := "";
      if sub.clientId in sessions.sessions {
        blackList := sessions.sessions[sub.clientId].filter.blackList;
      }
      var filter := FilterPattern(sub.filter, blackList);
      if !ValidFilter(cfg.re, filter) {
        tx.Send(AckErr(FilterInvalid));
        return;
      }
      sessions.Register(sub.clientId, sub.destination, filter);
      clientId := Some(sub.clientId);
      tx.Send(AckOk);
    }

    /** `handle_get` up to the read: choose the cursor and refuse one that has lost events. */
    method BeginGet(requested: i32, store: MemoryEventStore, sessions: SessionManager, tx: Transport)
      returns (decision: GetDecision)
      requires store.Valid() && store.Ordered()
      modifies tx
      ensures decision == GetDecided(Value(), sessions.sessions, Watermark(store.log, store.capacity), requested)
      ensures tx.sent == old(tx.sent) + if decision.GetRefused? then [AckErr(BelowEvictionWatermark)] else []
    {
      hide BinlogSuffix;
      if clientId.None? {
        return GetBroken;
      }
      var sessionAck := AckOf(sessions.sessions, clientId.value);
      var hasOwnCursor := currentPos.Some? || sessionAck.Some?;
      var start :=
        if currentPos.Some? then currentPos.value
        else if sessionAck.Some? then sessionAck.value
        else DEFAULT_START;
      if hasOwnCursor && start.timestamp.None? {
        if store.evictedWatermark.Some? && Before(PosKey(start), PosKey(store.evictedWatermark.value)) {
          tx.Send(AckErr(BelowEvictionWatermark));
          return GetRefused;
        }
      }
      decision := GetFrom(start, FetchSize(requested));
    }

    /** `handle_get` from the read on, when the store has something (or, with `timedOut`, has had
        nothing for long enough). Without either it keeps waiting and nothing changes. */
    method FinishGet(cfg: Config, start: LogPosition, size: nat, timedOut: bool, store: MemoryEventStore,
                     sessions: SessionManager, tx: Transport)
      returns (done: bool, open: bool)
      requires store.Valid() && store.Ordered()
      modifies this, store`batchIdSeq, tx
      ensures
        var events := Read(Window(store.log, store.capacity), start, size);
        var batch := if events == [] then None else Some(WithEvents(events, old(store.batchIdSeq)));
        var o := GetOutcome(cfg, old(Value()), sessions.sessions, batch);
        if events == [] && !timedOut then
          && !done && open && Value() == old(Value()) && tx.sent == old(tx.sent)
          && store.batchIdSeq == old(store.batchIdSeq)
        else
          && done && Value() == o.conn && tx.sent == old(tx.sent) + o.replies && open == o.open
          && store.batchIdSeq == old(store.batchIdSeq) + if events == [] then 0 else 1
    {
      hide Read, Window, EventToEntry, Passes, BinlogSuffix, MemoryEventStore.Valid, MemoryEventStore.Ordered;
      open := true;
      var batch := store.TryGetBatch(start, size);
      if batch.None? {
        done := timedOut;
        if timedOut {
          tx.Send(Messages(0, []));
        }
        return;
      }
      done := true;
      var events := batch.value;
      currentPos := Some(events.rangeEnd);
      lastGetBatchId := events.batchId;
      lastGetEndPos := Some(events.rangeEnd);

      var filter := FilterOf(sessions.sessions, clientId);
      var toSend := ToSend(cfg.re, filter, events.events);
      var encoded := EncodeInOrder(cfg.prost, toSend);
      if encoded.None? {
        open := false;
      } else {
        tx.Send(Messages(events.batchId, encoded.value));
      }
    }

    /** `handle_client_ack`. */
    method HandleClientAck(batchId: int, sessions: SessionManager)
      modifies this, sessions
      ensures
        var o := AckOutcome(old(Value()), old(sessions.sessions), batchId);
        Value() == o.conn && sessions.sessions == o.sessions && o.replies == [] && o.open
    {
      if clientId.Some? && lastGetEndPos.Some? {
        if batchId != lastGetBatchId {
          return;
        }
        lastAckPos := lastGetEndPos;
        sessions.UpdateAck(clientId.value, lastGetEndPos.value);
      }
    }

    /** `handle_client_rollback`. */
    method HandleClientRollback()
      modifies this
      ensures Value() == old(Value()).(currentPos := old(lastAckPos))
    {
      if lastAckPos.Some? {
        currentPos := lastAckPos;
      } else {
        currentPos := None;
      }
    }

    /** One pass of the packet loop in `handle_client`. For a Get that goes on to read the store, the
        result says where from. */
    method HandleFrame(cfg: Config, frame: Frame, store: MemoryEventStore, sessions: SessionManager, tx: Transport)
      returns (open: bool, reading: Option<(LogPosition, nat)>)
      requires store.Valid() && store.Ordered()
      modifies this, sessions, tx
      ensures
        match Handle(cfg, old(Value()), old(sessions.sessions), Watermark(store.log, store.capacity), frame)
        case Done(o) =>
          && reading == None && Value() == o.conn && sessions.sessions == o.sessions
          && tx.sent == old(tx.sent) + o.replies && open == o.open
        case Reading(conn, start, size) =>
          && reading == Some((start, size)) && Value() == conn && sessions.sessions == old(sessions.sessions)
          && tx.sent == old(tx.sent) && open
    {
      hide Watermark, AuthOutcome, SubOutcome, GetDecided, AckOutcome, MemoryEventStore.Valid, MemoryEventStore.Ordered;
      open, reading := true, None;
      assert tx.sent + [] == tx.sent;
      if frame.KeepAlive? {
        return;
      }
      if frame.Undecodable? {
        return false, None;
      }
      if frame.Auth? {
        if frame.auth.None? {
          return false, None;
        }
        open := HandleAuth(cfg, frame.auth.value, sessions, tx);
        return;
      }
      if !authenticated {
        tx.Send(AckErr(NotAuthenticated));
        return;
      }
      if frame.Other? {
        unknownPackets := unknownPackets + 1;
        open := unknownPackets < MAX_UNKNOWN_PACKETS;
        return;
      }
      unknownPackets := 0;
      match frame {
        case Sub(sub) =>
          if sub.None? {
            return false, None;
          }
          HandleSub(cfg, sub.value, sessions, tx);
        case Get(n) =>
          if n.None? {
            return false, None;
          }
          var decision := BeginGet(n.value, store, sessions, tx);
          match decision {
            case GetBroken => open := false;
            case GetRefused =>
            case GetFrom(start, size) => reading := Some((start, size));
          }
        case Ack(id) =>
          if id.Some? {
            HandleClientAck(id.value, sessions);
          }
        case Rollback(decodes) =>
          if decodes {
            HandleClientRollback();
          }
        case Heartbeat =>
          tx.Send(AckOk);
      }
    }
  }
}
