/** One client connection at a time against the shared store, as a state machine over every
    interleaving of its packets with puts and with other clients. A Get is two steps, as in the
    server: the packet is handled, and later the store is read. */
module SessionRuns {
  import opened CanalTypes
  import opened JournalOrder
  import opened EventLog
  import opened Conversion
  import opened Session

  /** A Get that waits for the store. */
  datatype Wait = Wait(start: LogPosition, size: nat)

  /** A batch answered on this connection: which log entries it covers, under what filter, from what
      cursor it was read, and how long the log was then. */
  datatype Served = Served(
    from: nat,
    to: nat,
    batchId: nat,
    filter: Option<FilterPattern>,
    start: LogPosition,
    seen: nat)

  datatype System = System(
    log: seq<CanalEvent>,
    capacity: nat,
    nextId: nat,
    sessions: Sessions,
    // The connection; `out` and `served` are its history.
    open: bool,
    conn: Conn,
    waiting: Option<Wait>,
    out: seq<Reply>,
    served: seq<Served>)

  datatype Step =
    | Put(events: seq<CanalEvent>)
    | OtherClientReads
    | OtherSessions(sessions: Sessions)
    | Connect
    | Receive(frame: Frame)
    | Serve
    | TimeOut
    | Hangup
    | Abort

  function Start(capacity: nat): System {
    System([], capacity, 0, map[], false, NEW_CONN, None, [], [])
  }

  function After(s: System, o: Outcome): System {
    s.(conn := o.conn, sessions := o.sessions, out := s.out + o.replies, open := o.open, waiting := None)
  }

  /** Other connections have other client ids: they leave this client's session alone. */
  predicate LeavesOwnSession(s: System, sessions: Sessions) {
    s.open && s.conn.clientId.Some? ==>
      var cid := s.conn.clientId.value;
      && (cid in sessions <==> cid in s.sessions)
      && (cid in sessions && cid in s.sessions ==> sessions[cid] == s.sessions[cid])
  }

  predicate CanServe(s: System) {
    s.open && s.waiting.Some? && BoundedFrom(s.log, s.capacity, s.waiting.value.start) < |s.log|
  }

  function ServedNow(s: System): Served
    requires CanServe(s)
  {
    var w := s.waiting.value;
    Served(BoundedFrom(s.log, s.capacity, w.start), BoundedTo(s.log, s.capacity, w.start, w.size), s.nextId,
      FilterOf(s.sessions, s.conn.clientId), w.start, |s.log|)
  }

  function ServeOutcome(cfg: Config, s: System): Outcome
    requires CanServe(s)
  {
    var w := s.waiting.value;
    GetOutcome(cfg, s.conn, s.sessions,
      Some(WithEvents(Read(Window(s.log, s.capacity), w.start, w.size), s.nextId)))
  }

  /** One step; a step that is not enabled changes nothing. The packet loop does not take a frame while
      a Get waits. Only an orderly end of the stream unregisters the session. */
  ghost function Apply(cfg: Config, s: System, step: Step): System {
    match step
    case Put(events) =>
      if events != [] && FitsAfter(s.log, events) then s.(log := s.log + events, nextId := s.nextId + 1) else s
    case OtherClientReads =>
      if s.log != [] then s.(nextId := s.nextId + 1) else s
    case OtherSessions(sessions) =>
      if LeavesOwnSession(s, sessions) then s.(sessions := sessions) else s
    case Connect =>
      if s.open then s else s.(open := true, conn := NEW_CONN, waiting := None, out := [], served := [])
    case Receive(frame) =>
      if !s.open || s.waiting.Some? then s
      else
        (match Handle(cfg, s.conn, s.sessions, Watermark(s.log, s.capacity), frame)
         case Done(o) => After(s, o)
         case Reading(conn, start, size) => s.(conn := conn, waiting := Some(Wait(start, size))))
    case Serve =>
      if !CanServe(s) then s
      else
        var o := ServeOutcome(cfg, s);
        After(s, o).(nextId := s.nextId + 1, served := if o.open then s.served + [ServedNow(s)] else s.served)
    case TimeOut =>
      if s.open && s.waiting.Some? then After(s, GetOutcome(cfg, s.conn, s.sessions, None)) else s
    case Hangup =>
      if !s.open || s.waiting.Some? then s
      else
        s.(open := false,
           sessions := if s.conn.clientId.Some? then s.sessions - {s.conn.clientId.value} else s.sessions)
    case Abort => s.(open := false)
  }

  ghost function Run(cfg: Config, s: System, steps: seq<Step>): System
    decreases |steps|
  {
    if steps == [] then s else Run(cfg, Apply(cfg, s, steps[0]), steps[1..])
  }

  lemma {:induction false} RunConcat(cfg: Config, s: System, a: seq<Step>, b: seq<Step>)
    ensures Run(cfg, s, a + b) == Run(cfg, Run(cfg, s, a), b)
    decreases |a|
  {
    hide Apply;
    if a == [] {
      assert a + b == b;
    } else {
      assert (a + b)[0] == a[0] && (a + b)[1..] == a[1..] + b;
      RunConcat(cfg, Apply(cfg, s, a[0]), a[1..], b);
    }
  }

  // -- The session machine --------------------------------------------------

  function Failures(out: seq<Reply>): nat {
    if out == [] then 0
    else Failures(out[..|out| - 1]) + if out[|out| - 1] == AckErr(AuthenticationFailed) then 1 else 0
  }

  lemma {:induction false} FailuresConcat(a: seq<Reply>, b: seq<Reply>)
    ensures Failures(a + b) == Failures(a) + Failures(b)
  {
    if b == [] {
      assert a + b == a;
    } else {
      assert (a + b)[..|a + b| - 1] == a + b[..|b| - 1];
      FailuresConcat(a, b[..|b| - 1]);
    }
  }

  /** Authenticated exactly when the connection has an identity, which then has a session; nothing but
      refusals is sent before that; failed passwords and unknown packets are counted, and a connection
      that reaches either limit is closed. */
  ghost predicate SessionInv(s: System) {
    && (s.open ==> ConnInv(s.conn, s.sessions) && (s.waiting.Some? ==> s.conn.authenticated))
    && Failures(s.out) == s.conn.authErrors <= MAX_AUTH_ERRORS
    && (!s.conn.authenticated ==> forall r | r in s.out :: r.AckErr?)
  }

  /** What is right for a connection apart from its history. */
  predicate ConnInv(conn: Conn, sessions: Sessions) {
    && (conn.authenticated <==> conn.clientId.Some?)
    && (conn.clientId.Some? ==> conn.clientId.value in sessions)
    && (!conn.authenticated ==> conn.currentPos == None)
    && conn.unknownPackets < MAX_UNKNOWN_PACKETS
    && conn.authErrors < MAX_AUTH_ERRORS
  }

  /** What a handler may do: answer at most once, count a failed password if and only if it reports
      one, close the connection at a limit, and never take back an authentication. */
  predicate Permitted(conn: Conn, o: Outcome) {
    && (o.replies == [] || |o.replies| == 1)
    && o.conn.authErrors == conn.authErrors + (if o.replies == [AckErr(AuthenticationFailed)] then 1 else 0)
    && (o.open ==> ConnInv(o.conn, o.sessions))
    && (conn.authenticated ==> o.conn.authenticated && o.conn.clientId == conn.clientId)
    && (!o.conn.authenticated ==> o.replies == [] || o.replies[0].AckErr?)
  }

  lemma AuthPermitted(cfg: Config, conn: Conn, sessions: Sessions, auth: AuthBody)
    requires ConnInv(conn, sessions)
    ensures Permitted(conn, AuthOutcome(cfg, conn, sessions, auth))
  {
    hide Utf8Len, ValidFilter;
  }

  lemma SubPermitted(cfg: Config, conn: Conn, sessions: Sessions, sub: SubBody)
    requires ConnInv(conn, sessions) && conn.authenticated
    ensures Permitted(conn, SubOutcome(cfg, conn, sessions, sub))
  {
    hide Utf8Len, ValidFilter;
  }

  lemma HandlePermitted(cfg: Config, conn: Conn, sessions: Sessions, watermark: Option<Key>, frame: Frame)
    requires ConnInv(conn, sessions)
    ensures
      match Handle(cfg, conn, sessions, watermark, frame)
      case Done(o) => Permitted(conn, o)
      case Reading(conn', _, _) =>
        && ConnInv(conn', sessions) && conn.authenticated
        && conn' == conn.(unknownPackets := 0)
  {
    hide AuthOutcome, SubOutcome, BelowWatermark;
    if frame.Auth? && frame.auth.Some? {
      AuthPermitted(cfg, conn, sessions, frame.auth.value);
    } else if frame.Sub? && frame.sub.Some? && conn.authenticated {
      SubPermitted(cfg, conn.(unknownPackets := 0), sessions, frame.sub.value);
    }
  }

  lemma GetPermitted(cfg: Config, conn: Conn, sessions: Sessions, batch: Option<Events>)
    requires ConnInv(conn, sessions) && conn.authenticated
    ensures Permitted(conn, GetOutcome(cfg, conn, sessions, batch))
  {
    hide EncodeEvents, ToSend;
  }

  lemma PermittedKeepsSession(s: System, o: Outcome)
    requires SessionInv(s) && s.open && Permitted(s.conn, o)
    ensures SessionInv(After(s, o))
  {
    FailuresConcat(s.out, o.replies);
    if o.replies != [] {
      assert Failures(o.replies) == if o.replies[0] == AckErr(AuthenticationFailed) then 1 else 0 by {
        assert o.replies[..0] == [];
      }
    }
  }

  lemma StepKeepsSession(cfg: Config, s: System, step: Step)
    requires SessionInv(s)
    ensures SessionInv(Apply(cfg, s, step))
  {
    assert Failures([]) == 0;
    hide Handle, GetOutcome, FitsAfter, Watermark, Read, Window, BoundedFrom, BoundedTo, Failures, Permitted;
    if step.Receive? && s.open && s.waiting.None? {
      HandlePermitted(cfg, s.conn, s.sessions, Watermark(s.log, s.capacity), step.frame);
      match Handle(cfg, s.conn, s.sessions, Watermark(s.log, s.capacity), step.frame) {
        case Done(o) => PermittedKeepsSession(s, o);
        case Reading(_, _, _) =>
      }
    } else if step.Serve? && CanServe(s) {
      var batch := WithEvents(Read(Window(s.log, s.capacity), s.waiting.value.start, s.waiting.value.size), s.nextId);
      GetPermitted(cfg, s.conn, s.sessions, Some(batch));
      PermittedKeepsSession(s, ServeOutcome(cfg, s));
    } else if step.TimeOut? && s.open && s.waiting.Some? {
      GetPermitted(cfg, s.conn, s.sessions, None);
      PermittedKeepsSession(s, GetOutcome(cfg, s.conn, s.sessions, None));
    }
  }

  lemma {:induction false} RunKeepsSession(cfg: Config, s: System, steps: seq<Step>)
    requires SessionInv(s)
    ensures SessionInv(Run(cfg, s, steps))
    decreases |steps|
  {
    if steps != [] {
      StepKeepsSession(cfg, s, steps[0]);
      hide SessionInv, Apply;
      RunKeepsSession(cfg, Apply(cfg, s, steps[0]), steps[1..]);
    }
  }

  /** In every reachable state of every run: authentication and identity go together, nothing but
      refusals has been sent to a connection that has none, and at most three failed passwords have
      been answered, the third of which closed the connection. */
  lemma SessionMachine(cfg: Config, capacity: nat, steps: seq<Step>)
    ensures
      var s := Run(cfg, Start(capacity), steps);
      && (s.open ==> (s.conn.authenticated <==> s.conn.clientId.Some?))
      && (!s.conn.authenticated ==> forall r | r in s.out :: r.AckErr?)
      && Failures(s.out) <= 3
      && (s.open ==> Failures(s.out) < 3)
  {
    RunKeepsSession(cfg, Start(capacity), steps);
  }

  /** Once a connection has an identity, it keeps it until it is replaced by a new connection. */
  lemma {:induction false} IdentityNeverChanges(cfg: Config, s: System, steps: seq<Step>)
    requires SessionInv(s) && s.open && s.conn.clientId.Some?
    requires Connect !in steps
    ensures Run(cfg, s, steps).conn.clientId == s.conn.clientId
    decreases |steps|
  {
    if steps != [] {
      var s' := Apply(cfg, s, steps[0]);
      StepKeepsSession(cfg, s, steps[0]);
      StepKeepsIdentity(cfg, s, steps[0]);
      if s'.open {
        hide SessionInv, Apply;
        IdentityNeverChanges(cfg, s', steps[1..]);
      } else {
        ClosedStaysClosed(cfg, s', steps[1..]);
      }
    }
  }

  lemma StepKeepsIdentity(cfg: Config, s: System, step: Step)
    requires SessionInv(s) && s.open && s.conn.clientId.Some? && step != Connect
    ensures Apply(cfg, s, step).conn.clientId == s.conn.clientId
  {
    hide Handle, GetOutcome, FitsAfter, Watermark, Read, Window, BoundedFrom, BoundedTo, Failures;
    if step.Receive? && s.waiting.None? {
      HandlePermitted(cfg, s.conn, s.sessions, Watermark(s.log, s.capacity), step.frame);
    } else if step.Serve? && CanServe(s) {
      var batch := WithEvents(Read(Window(s.log, s.capacity), s.waiting.value.start, s.waiting.value.size), s.nextId);
      GetPermitted(cfg, s.conn, s.sessions, Some(batch));
    } else if step.TimeOut? && s.waiting.Some? {
      GetPermitted(cfg, s.conn, s.sessions, None);
    }
  }

  lemma {:induction false} ClosedStaysClosed(cfg: Config, s: System, steps: seq<Step>)
    requires !s.open && Connect !in steps
    ensures Run(cfg, s, steps).conn == s.conn && !Run(cfg, s, steps).open
    decreases |steps|
  {
    if steps != [] {
      ClosedStaysClosed(cfg, Apply(cfg, s, steps[0]), steps[1..]);
    }
  }

  function Unknowns(steps: seq<Step>): nat {
    if steps == [] then 0 else (if steps[0] == Receive(Other) then 1 else 0) + Unknowns(steps[1..])
  }

  /** Steps that do not reset the count of unknown packets. */
  predicate KeepsCount(step: Step) {
    && step != Connect
    && (step.Receive? ==> step.frame.KeepAlive? || step.frame.Auth? || step.frame.Other?)
  }

  /** Keepalives and repeated authentications do not reset the count of unknown packets: ten of these
      without one of the packets that do end the connection, whatever came before, and whatever puts,
      other clients, timeouts and other sessions come in between. */
  lemma {:induction false} UnknownPacketsDisconnect(cfg: Config, s: System, steps: seq<Step>)
    requires s.conn.authenticated && s.waiting.None?
    requires forall step | step in steps :: KeepsCount(step)
    requires s.conn.unknownPackets + Unknowns(steps) >= MAX_UNKNOWN_PACKETS > s.conn.unknownPackets
    ensures !Run(cfg, s, steps).open
    decreases |steps|
  {
    hide Apply;
    if !s.open {
      ClosedStaysClosed(cfg, s, steps);
    } else {
      var s' := Apply(cfg, s, steps[0]);
      assert forall step | step in steps[1..] :: step in steps;
      StepCountsUnknowns(cfg, s, steps[0]);
      if s'.open {
        UnknownPacketsDisconnect(cfg, s', steps[1..]);
      } else {
        ClosedStaysClosed(cfg, s', steps[1..]);
      }
    }
  }

  lemma StepCountsUnknowns(cfg: Config, s: System, step: Step)
    requires s.open && s.conn.authenticated && s.waiting.None? && KeepsCount(step)
    ensures
      var s' := Apply(cfg, s, step);
      s'.open ==>
        && s'.conn.authenticated && s'.waiting.None?
        && s'.conn.unknownPackets == s.conn.unknownPackets + (if step == Receive(Other) then 1 else 0)
        && (step == Receive(Other) ==> s'.conn.unknownPackets < MAX_UNKNOWN_PACKETS)
  {
    hide FitsAfter, Watermark;
  }

  // -- The password ---------------------------------------------------------

  /** Does the step carry a password that the server accepts? */
  predicate GivesPassword(cfg: Config, step: Step) {
    && step.Receive? && step.frame.Auth? && step.frame.auth.Some?
    && (cfg.token.None? || step.frame.auth.value.password == cfg.token.value)
  }

  /** Only the right password authenticates a connection, whatever has happened on it before. */
  lemma OnlyPasswordAuthenticates(cfg: Config, s: System, step: Step)
    requires !s.conn.authenticated && Apply(cfg, s, step).conn.authenticated
    ensures GivesPassword(cfg, step) && s.open
  {
    hide EncodeEvents, ToSend, Utf8Len, ValidFilter, FitsAfter, Watermark, BoundedFrom, BoundedTo, Read, Window;
  }

  /** A wrong one is answered with one refusal and changes nothing but the count, which ends the connection
      at three. */
  lemma WrongPasswordIsRefused(cfg: Config, s: System, auth: AuthBody)
    requires s.open && s.waiting.None? && !s.conn.authenticated
    requires cfg.token.Some? && auth.password != cfg.token.value
    ensures Apply(cfg, s, Receive(Auth(Some(auth)))) ==
            s.(conn := s.conn.(authErrors := s.conn.authErrors + 1), out := s.out + [AckErr(AuthenticationFailed)],
               open := s.conn.authErrors + 1 < 3)
  {
    hide Watermark;
  }

  lemma {:induction false} RunSnoc(cfg: Config, s: System, steps: seq<Step>, step: Step)
    ensures Run(cfg, s, steps + [step]) == Apply(cfg, Run(cfg, s, steps), step)
  {
    hide Apply;
    RunConcat(cfg, s, steps, [step]);
    assert [step][1..] == [];
    var t := Run(cfg, s, steps);
    assert Run(cfg, t, [step]) == Run(cfg, Apply(cfg, t, step), []);
  }

  /** In every run, an authenticated connection has given the right password, and no connection has been
      made since. */
  lemma {:induction false} AuthenticatedGavePassword(cfg: Config, capacity: nat, steps: seq<Step>)
    requires Run(cfg, Start(capacity), steps).conn.authenticated
    ensures
      exists k :: 0 <= k < |steps| && GivesPassword(cfg, steps[k])
        && forall j | k < j < |steps| && steps[j] == Connect :: Run(cfg, Start(capacity), steps[..j]).open
    decreases |steps|
  {
    hide Apply, GivesPassword;
    if steps == [] {
      assert false;
    } else {
      var n := |steps| - 1;
      var front := steps[..n];
      var s := Run(cfg, Start(capacity), front);
      assert steps == front + [steps[n]];
      RunSnoc(cfg, Start(capacity), front, steps[n]);
      if !s.conn.authenticated {
        OnlyPasswordAuthenticates(cfg, s, steps[n]);
        assert GivesPassword(cfg, steps[n]);
      } else {
        AuthenticatedGavePassword(cfg, capacity, front);
        var k :| 0 <= k < |front| && GivesPassword(cfg, front[k])
          && forall j | k < j < |front| && front[j] == Connect :: Run(cfg, Start(capacity), front[..j]).open;
        assert steps[k] == front[k];
        if steps[n] == Connect {
          ConnectForgets(cfg, s);
        }
        forall j | k < j < |steps| && steps[j] == Connect ensures Run(cfg, Start(capacity), steps[..j]).open {
          assert j < n ==> steps[..j] == front[..j] && steps[j] == front[j];
        }
      }
    }
  }

  lemma ConnectForgets(cfg: Config, s: System)
    ensures Apply(cfg, s, Connect).conn.authenticated ==> s.open
  {
  }

  // -- Limits from the other side -------------------------------------------

  function Repeat(frame: Frame, n: nat): seq<Step> {
    if n == 0 then [] else Repeat(frame, n - 1) + [Receive(frame)]
  }

  /** Three wrong passwords end a connection, two do not. */
  lemma {:induction false} ThreeWrongPasswords(cfg: Config, s: System, auth: AuthBody, n: nat)
    requires s.open && s.waiting.None? && s.conn == NEW_CONN && n <= 3
    requires cfg.token.Some? && auth.password != cfg.token.value
    ensures
      var s' := Run(cfg, s, Repeat(Auth(Some(auth)), n));
      && s'.conn == NEW_CONN.(authErrors := n) && s'.waiting.None? && (s'.open <==> n < 3)
  {
    hide Apply;
    if n > 0 {
      ThreeWrongPasswords(cfg, s, auth, n - 1);
      RunSnoc(cfg, s, Repeat(Auth(Some(auth)), n - 1), Receive(Auth(Some(auth))));
      WrongPasswordIsRefused(cfg, Run(cfg, s, Repeat(Auth(Some(auth)), n - 1)), auth);
    }
  }

  /** Ten unknown packets in a row end a connection, nine do not. */
  lemma {:induction false} TenUnknownPackets(cfg: Config, s: System, n: nat)
    requires s.open && s.waiting.None? && s.conn.authenticated && s.conn.unknownPackets == 0 && n <= 10
    ensures
      var s' := Run(cfg, s, Repeat(Other, n));
      s' == s.(conn := s.conn.(unknownPackets := n), open := n < 10)
  {
    hide Apply;
    if n > 0 {
      TenUnknownPackets(cfg, s, n - 1);
      RunSnoc(cfg, s, Repeat(Other, n - 1), Receive(Other));
      UnknownIsCounted(cfg, Run(cfg, s, Repeat(Other, n - 1)));
    }
  }

  lemma UnknownIsCounted(cfg: Config, s: System)
    requires s.open && s.waiting.None? && s.conn.authenticated
    ensures Apply(cfg, s, Receive(Other)) ==
            s.(conn := s.conn.(unknownPackets := s.conn.unknownPackets + 1), open := s.conn.unknownPackets + 1 < 10)
  {
    hide Watermark;
    assert s.out + [] == s.out;
  }

  // -- What each other packet does ------------------------------------------

  /** A heartbeat is answered with one acknowledgement, and a keepalive not at all. */
  lemma HeartbeatIsAnswered(cfg: Config, s: System)
    requires s.open && s.waiting.None?
    ensures s.conn.authenticated ==>
              Apply(cfg, s, Receive(Frame.Heartbeat)) ==
                s.(conn := s.conn.(unknownPackets := 0), out := s.out + [AckOk])
    ensures Apply(cfg, s, Receive(KeepAlive)) == s
  {
    hide Watermark;
    assert s.out + [] == s.out;
  }

  /** Before an authentication every packet that is not one is refused, and after it another one is. */
  lemma UnauthenticatedIsRefused(cfg: Config, s: System, frame: Frame)
    requires s.open && s.waiting.None?
    ensures !s.conn.authenticated && !frame.KeepAlive? && !frame.Undecodable? && !frame.Auth? ==>
              Apply(cfg, s, Receive(frame)) == s.(out := s.out + [AckErr(NotAuthenticated)])
    ensures s.conn.authenticated && frame.Auth? && frame.auth.Some? ==>
              Apply(cfg, s, Receive(frame)) == s.(out := s.out + [AckErr(AlreadyAuthenticated)])
  {
    hide Watermark;
  }

  /** A packet that does not decode ends the connection, and so does the body of an authentication, a
      subscription or a Get that does not; an ack or a rollback that does not is passed over. None of
      these answers anything or touches the sessions. */
  lemma UndecodableEndsConnection(cfg: Config, s: System, frame: Frame)
    requires s.open && s.waiting.None?
    ensures frame.Undecodable? || frame == Auth(None) ==>
              Apply(cfg, s, Receive(frame)) == s.(open := false)
    ensures s.conn.authenticated && (frame == Sub(None) || frame == Get(None)) ==>
              Apply(cfg, s, Receive(frame)) == s.(open := false, conn := s.conn.(unknownPackets := 0))
    ensures s.conn.authenticated && (frame == Ack(None) || frame == Rollback(false)) ==>
              Apply(cfg, s, Receive(frame)) == s.(conn := s.conn.(unknownPackets := 0))
  {
    hide Watermark;
    assert s.out + [] == s.out;
  }

  /** When the stream ends, the session of the connection, and no other, is unregistered; when a send
      fails, it stays. */
  lemma EndOfStreamUnregisters(cfg: Config, s: System)
    requires s.open && s.waiting.None?
    ensures
      var s' := Apply(cfg, s, Hangup);
      && !s'.open && s'.conn == s.conn && s'.out == s.out && s'.log == s.log
      && (forall cid :: cid in s'.sessions <==> cid in s.sessions && s.conn.clientId != Some(cid))
      && (forall cid | cid in s'.sessions :: s'.sessions[cid] == s.sessions[cid])
    ensures Apply(cfg, s, Abort) == s.(open := false)
  {
  }

  /** The size of a read is the one asked for, between 1 and 10000; it is 100 for a negative one. */
  lemma FetchSizeIsClamped(requested: i32)
    ensures requested < 0 ==> FetchSize(requested) == 100
    ensures requested == 0 ==> FetchSize(requested) == 1
    ensures 1 <= requested <= 10_000 ==> FetchSize(requested) == requested
    ensures requested > 10_000 ==> FetchSize(requested) == 10_000
  {
  }

  /** A subscription changes the sessions only: it is accepted if and only if it is for the connection's own
      client and its filter has at most 256 bytes and compiles, and it then replaces the session, keeping
      the black list and dropping the stored ack. */
  lemma SubscriptionReplacesSession(cfg: Config, s: System, sub: SubBody)
    requires s.open && s.waiting.None? && s.conn.authenticated && s.conn.clientId.Some?
    requires s.conn.clientId.value in s.sessions
    ensures
      var cid := s.conn.clientId.value;
      var s' := Apply(cfg, s, Receive(Sub(Some(sub))));
      var kept, blackList := s.(conn := s.conn.(unknownPackets := 0)), s.sessions[cid].filter.blackList;
      if sub.clientId != cid then s' == kept.(out := s.out + [AckErr(ClientIdMismatch)])
      else if Utf8Len(sub.filter) > 256 then s' == kept.(out := s.out + [AckErr(FilterTooLong)])
      else if !cfg.re.valid(sub.filter) || (blackList != "" && !cfg.re.valid(blackList)) then
        s' == kept.(out := s.out + [AckErr(FilterInvalid)])
      else
        s' == kept.(out := s.out + [AckOk],
                    sessions := s.sessions[cid := ClientSession(sub.destination,
                      FilterPattern(sub.filter, blackList), None)])
  {
    hide Watermark, Utf8Len;
  }

  /** An authentication with the right password is accepted if and only if its filter is empty or has at
      most 256 bytes and compiles; it registers a session without an ack or a black list, under the given
      id or as "anonymous". */
  lemma AuthenticationRegisters(cfg: Config, s: System, auth: AuthBody)
    requires s.open && s.waiting.None? && !s.conn.authenticated && GivesPassword(cfg, Receive(Auth(Some(auth))))
    ensures
      var cid := if auth.clientId == "" then "anonymous" else auth.clientId;
      var s' := Apply(cfg, s, Receive(Auth(Some(auth))));
      if auth.filter != "" && Utf8Len(auth.filter) > 256 then s' == s.(out := s.out + [AckErr(FilterTooLong)])
      else if auth.filter != "" && !cfg.re.valid(auth.filter) then s' == s.(out := s.out + [AckErr(FilterInvalid)])
      else
        s' == s.(out := s.out + [AckOk],
                 conn := s.conn.(authenticated := true, clientId := Some(cid),
                   currentPos :=
                     if auth.startTimestamp > 0 then Some(LogPosition("", 0, Some(auth.startTimestamp), None, None))
                     else s.conn.currentPos),
                 sessions := s.sessions[cid := ClientSession(auth.destination,
                   FilterPattern(if auth.filter == "" then ".*\\..*" else auth.filter, ""), None)])
  {
    hide Watermark, Utf8Len;
  }
}
