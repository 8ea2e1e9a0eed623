/**
 The client loop (client_loop.cpp): one reconnect controller, and for every connection a fresh transport and a
 fresh session. Old transports may still be draining when a new one opens, and old sessions may still be used.
 */
module ClientLoop {
  import opened OcppModel
  import S = Session
  import W = WsClient
  import R = Reconnect
  import Metrics

  datatype Life = Opening | Open | Closed

  // A WebSocket client, and how far its connection has come
  datatype Transport = Transport(ws: W.State, life: Life)

  // A session, and the transport it was made for
  datatype Client = Client(session: S.State, transport: nat)

  // drops counts the closes of open connections
  datatype State = State(rc: R.State, transports: seq<Transport>, sessions: seq<Client>, drops: nat)

  const INITIAL := State(R.INITIAL, [], [], 0)

  // The loop's timers fire later; the close guard and the policy are parameters.
  datatype Setup = Setup(config: R.Config, guard: W.Guard)

  ghost predicate IsSetup(u: Setup) {
    u.config.hasConnect && u.config.hasPostAfter && !u.config.syncTimers
  }

  datatype Event =
    | Start(made: bool)                       // start(); made says whether the factory returns a transport
    | BackoffFires(made: bool)
    | ResumeFires
    | Opened(id: S.Id)                        // the handshake completes; id is the boot call's message id
    | TransportCloses(t: nat, order: seq<S.Id>)  // transport t's on_close handler
    | SessionSteps(k: nat, step: S.Event)     // any step of session k, in any interleaving
    | TransportSteps(t: nat, move: W.Event)   // any strand task or completion of transport t

  ghost predicate Fresh(s: State, id: S.Id) {
    forall k | 0 <= k < |s.sessions| :: id !in s.sessions[k].session.log.calls
  }

  function IdOf(e: S.Event): set<S.Id> {
    match e
    case DoRegister(id, _, _) => {id}
    case DoHeartBeatFire(_, id) => {id}
    case _ => {}
  }

  ghost predicate Enabled(s: State, e: Event) {
    match e
    case Start(_) => s.rc.started == 0
    case BackoffFires(_) => s.rc.backoffTimers > 0
    case ResumeFires => s.rc.resumeTimers > 0 && s.sessions != []
    case Opened(id) =>
      && s.transports != [] && s.transports[|s.transports| - 1].life == Opening
      && s.rc.outstanding > 0 && Fresh(s, id)
    case TransportCloses(t, order) =>
      && t < |s.transports| && s.transports[t].life != Closed
      && (s.transports[t].life == Opening ==> s.rc.outstanding > 0)
      && s.sessions != [] && S.IsOrder(order, s.sessions[|s.sessions| - 1].session.pending.Keys)
    case SessionSteps(k, step) =>
      && k < |s.sessions| && s.sessions[k].transport < |s.transports|
      && !step.DoCloseBegin? && !step.DoClose? && !step.DoConnected? && (step.DoReply? ==> k == |s.sessions| - 1)
      && S.Enabled(s.sessions[k].session, step)
      && (forall id | id in IdOf(step) :: Fresh(s, id))
    case TransportSteps(t, move) => t < |s.transports| && !move.Send? && W.Enabled(s.transports[t].ws, move)
  }

  // A connect attempt: the factory makes a transport that is to open, or fails and completes the attempt at once
  function Attempt(u: Setup, s: State, rc: R.State, made: bool): State {
    var next := R.TryReconnect(u.config, rc, if made then [] else [false]);
    var more := if next.outstanding > rc.outstanding then [Transport(W.INITIAL, Opening)] else [];
    State(next, s.transports + more, s.sessions, s.drops)
  }

  // transport->send(line)
  function Post(t: Transport, line: Frame): Transport {
    t.(ws := t.ws.(tasks := t.ws.tasks + [W.SendTask(line)], log := t.ws.log.(posted := t.ws.log.posted + [line])))
  }

  // What the close handler does to the controller: the connect completion with false, then on_transport_close
  function CloseController(c: R.Config, rc: R.State): R.State {
    R.OnTransportClose(c, R.Completion(c, rc, false, []), R.TransportError, [])
  }

  // The last transport opens: the controller hears of it, and a new session sends its boot call.
  function OpenTransport(c: R.Config, s: State, id: S.Id): State
    requires s.transports != [] && s.rc.outstanding > 0
  {
    var t := |s.transports| - 1;
    s.(rc := R.Completion(c, s.rc.(outstanding := s.rc.outstanding - 1), true, []),
       transports := s.transports[t := Post(s.transports[t].(life := Open), CreateCall(id, S.BOOT))],
       sessions := s.sessions + [Client(S.OnTransportConnected(S.INITIAL, id), t)])
  }

  // Transport t closes: the controller hears of it, and every pending call of the current session is claimed.
  function CloseTransport(c: R.Config, s: State, t: nat, order: seq<S.Id>): State
    requires t < |s.transports| && (s.transports[t].life == Opening ==> s.rc.outstanding > 0)
    requires s.sessions != [] && forall id | id in order :: id in s.sessions[|s.sessions| - 1].session.pending
  {
    var k := |s.sessions| - 1;
    var wasOpen := s.transports[t].life == Open;
    var rc := if s.transports[t].life == Opening then s.rc.(outstanding := s.rc.outstanding - 1) else s.rc;
    State(CloseController(c, rc), s.transports[t := s.transports[t].(life := Closed)],
          s.sessions[k := s.sessions[k].(session := S.CloseNow(s.sessions[k].session, order))],
          s.drops + if wasOpen then 1 else 0)
  }

  // on_online starts the session's heartbeat, if a boot gave it an interval.
  function Resumed(session: S.State): S.State {
    if session.interval > 0 then session.(beats := S.StartHeartBeat(session.beats, session.interval)) else session
  }

  ghost function Step(u: Setup, s: State, e: Event): State
    requires Enabled(s, e)
  {
    match e
    case Start(made) => Attempt(u, s, s.rc, made)
    case BackoffFires(made) =>
      var rc := s.rc.(backoffTimers := s.rc.backoffTimers - 1);
      if rc.scheduled then Attempt(u, s, rc.(scheduled := false), made) else s.(rc := rc)
    case ResumeFires =>
      var k := |s.sessions| - 1;
      s.(rc := R.ResumeTimer(s.rc.(resumeTimers := s.rc.resumeTimers - 1)),
         sessions := s.sessions[k := s.sessions[k].(session := Resumed(s.sessions[k].session))])
    case Opened(id) => OpenTransport(u.config, s, id)
    case TransportCloses(t, order) => CloseTransport(u.config, s, t, order)
    case SessionSteps(k, step) =>
      var before := s.sessions[k].session;
      var after := S.Step(before, step);
      var t := s.sessions[k].transport;
      s.(sessions := s.sessions[k := s.sessions[k].(session := after)],
         transports := if step.DoTransmit? then s.transports[t := Post(s.transports[t], before.work.unsent[step.id])]
                       else s.transports,
         rc := if after.tally.bootSignals > before.tally.bootSignals then R.OnBootAccepted(u.config, s.rc) else s.rc)
    case TransportSteps(t, move) =>
      s.(transports := s.transports[t := s.transports[t].(ws := W.Step(u.guard, s.transports[t].ws, move))])
  }

  ghost predicate Moves(u: Setup, s: State, e: Event, s': State) {
    Enabled(s, e) && s' == Step(u, s, e)
  }

  ghost predicate IsRun(u: Setup, states: seq<State>, events: seq<Event>) {
    && IsSetup(u)
    && |states| == |events| + 1
    && states[0] == INITIAL
    && forall i {:trigger events[i]} | 0 <= i < |events| :: Moves(u, states[i], events[i], states[i + 1])
  }

  lemma RunMoves(u: Setup, states: seq<State>, events: seq<Event>, i: nat)
    requires IsRun(u, states, events) && i < |events|
    ensures Moves(u, states[i], events[i], states[i + 1])
  {}

  // ------------------------------------------------------------------------------------------
  // The object that holds the current connection, with the handlers it installs.
  // ------------------------------------------------------------------------------------------

  // An attempt is started exactly when the controller is idle; one whose transport cannot be made does not succeed.
  lemma AttemptCounts(c: R.Config, s: R.State, made: bool)
    requires c.hasConnect && c.hasPostAfter && !c.syncTimers
    ensures var t := R.TryReconnect(c, s, if made then [] else [false]);
            && t.succeeded == s.succeeded
            && t.started == s.started + (if s.cs == R.Disconnected then 1 else 0)
            && t.outstanding == s.outstanding + (if s.cs == R.Disconnected && made then 1 else 0)
  {
    if s.cs == R.Disconnected && !made {
      var t := s.(cs := R.Connecting, started := s.started + 1, signals := s.signals + [R.OnConnecting]);
      assert [false][1..] == [];
      assert R.TryReconnect(c, s, [false]) == R.Completion(c, t, false, []);
    }
  }

  // ------------------------------------------------------------------------------------------
  // What the object that runs the loop can see of a state: the controller, the current session, and the current
  // transport's pipeline, counters and gauges apart.
  // ------------------------------------------------------------------------------------------

  datatype Option<T> = None | Some(value: T)

  datatype Front = Front(rc: R.State, session: Option<S.State>, pipe: Option<W.State>)

  function Uncounted(ws: W.State): W.State {
    ws.(stats := W.NO_STATS)
  }

  function FrontOf(s: State): Front {
    Front(s.rc,
          if s.sessions == [] then None else Some(s.sessions[|s.sessions| - 1].session),
          if s.transports == [] then None else Some(Uncounted(s.transports[|s.transports| - 1].ws)))
  }

  // A connect attempt by the controller, and the pipeline after it
  function Attempted(u: Setup, f: Front, rc: R.State, made: bool): Front {
    Front(R.TryReconnect(u.config, rc, if made then [] else [false]), f.session,
          if rc.cs == R.Disconnected && made then Some(W.INITIAL) else f.pipe)
  }

  lemma AttemptFront(u: Setup, s: State, rc: R.State, made: bool)
    requires IsSetup(u)
    ensures FrontOf(Attempt(u, s, rc, made)) == Attempted(u, FrontOf(s), rc, made)
  {
    AttemptCounts(u.config, rc, made);
  }

  lemma BackoffFront(u: Setup, s: State, made: bool)
    requires IsSetup(u) && Enabled(s, BackoffFires(made))
    ensures var rc := s.rc.(backoffTimers := s.rc.backoffTimers - 1);
            FrontOf(Step(u, s, BackoffFires(made)))
            == if rc.scheduled then Attempted(u, FrontOf(s), rc.(scheduled := false), made) else FrontOf(s).(rc := rc)
  {
    var rc := s.rc.(backoffTimers := s.rc.backoffTimers - 1);
    AttemptFront(u, s, rc.(scheduled := false), made);
  }

  lemma ResumeFront(u: Setup, s: State)
    requires Enabled(s, ResumeFires)
    ensures FrontOf(s).session.Some?
    ensures FrontOf(Step(u, s, ResumeFires))
         == FrontOf(s).(rc := R.StepController(u.config, s.rc, R.ResumeFires),
                        session := Some(Resumed(FrontOf(s).session.value)))
  {}

  lemma OpenedFront(u: Setup, s: State, id: S.Id)
    requires Enabled(s, Opened(id))
    ensures FrontOf(s).pipe.Some?
    ensures FrontOf(Step(u, s, Opened(id)))
         == Front(R.StepController(u.config, s.rc, R.AttemptDone(true, [])),
                  Some(S.OnTransportConnected(S.INITIAL, id)),
                  Some(W.Step(u.guard, FrontOf(s).pipe.value, W.Send(CreateCall(id, S.BOOT)))))
  {}

  // The callbacks of the current session from claim first on have run.
  function AfterCallbacks(s: State, first: nat): State
    requires s.sessions != [] && first <= |s.sessions[|s.sessions| - 1].session.log.claims|
  {
    var k := |s.sessions| - 1;
    s.(sessions := s.sessions[k := s.sessions[k].(session := S.InvokeNew(s.sessions[k].session, first))])
  }

  lemma CallbacksFront(s: State, first: nat, session: S.State)
    requires FrontOf(s).session == Some(session) && first <= |session.log.claims|
    ensures s.sessions != [] && s.sessions[|s.sessions| - 1].session == session
    ensures FrontOf(AfterCallbacks(s, first)) == FrontOf(s).(session := Some(S.InvokeNew(session, first)))
  {}

  // An attempt not yet completed is completed now.
  function Completing(rc: R.State): R.State {
    if rc.outstanding > 0 then rc.(outstanding := rc.outstanding - 1) else rc
  }

  lemma ClosePipe(c: R.Config, s: State, t: nat, order: seq<S.Id>, session: S.State)
    requires FrontOf(s).session == Some(session) && forall id | id in order :: id in session.pending
    requires t < |s.transports| && (s.transports[t].life == Opening ==> s.rc.outstanding > 0)
    ensures s.sessions != [] && s.sessions[|s.sessions| - 1].session == session
    ensures FrontOf(CloseTransport(c, s, t, order)).pipe == FrontOf(s).pipe
  {
    var s', last := CloseTransport(c, s, t, order), |s.transports| - 1;
    assert s'.transports[last].ws == s.transports[last].ws;
  }

  lemma CloseFront(c: R.Config, s: State, t: nat, order: seq<S.Id>, session: S.State)
    requires FrontOf(s).session == Some(session) && forall id | id in order :: id in session.pending
    requires t < |s.transports| && s.transports[t].life == (if s.rc.outstanding > 0 then Opening else Open)
    ensures s.sessions != [] && s.sessions[|s.sessions| - 1].session == session
    ensures FrontOf(CloseTransport(c, s, t, order))
         == Front(CloseController(c, Completing(s.rc)), Some(S.CloseNow(session, order)), FrontOf(s).pipe)
  {
    ClosePipe(c, s, t, order, session);
    assert CloseTransport(c, s, t, order).rc == CloseController(c, Completing(s.rc));
  }

  // A transport closes, and the callbacks of the calls that were pending run.
  ghost function CloseAndCall(u: Setup, s: State, t: nat, order: seq<S.Id>): State
    requires Enabled(s, TransportCloses(t, order))
  {
    var session := s.sessions[|s.sessions| - 1].session;
    AfterCallbacks(CloseTransport(u.config, s, t, order), |session.log.claims|)
  }

  lemma CloseAndCallFront(u: Setup, s: State, t: nat, order: seq<S.Id>, session: S.State)
    requires FrontOf(s).session == Some(session) && S.IsOrder(order, session.pending.Keys)
    requires t < |s.transports| && s.transports[t].life == (if s.rc.outstanding > 0 then Opening else Open)
    ensures Enabled(s, TransportCloses(t, order))
    ensures FrontOf(CloseAndCall(u, s, t, order))
         == Front(CloseController(u.config, Completing(s.rc)), Some(S.OnClose(session, order)), FrontOf(s).pipe)
  {
    CloseFront(u.config, s, t, order, session);
    CallbacksFront(CloseTransport(u.config, s, t, order), |session.log.claims|, S.CloseNow(session, order));
  }

  datatype View = Offline | Trying | Online

  class ClientLoop {
    const rc: R.ReconnectController
    const metrics: Metrics.Metrics
    const guard: W.Guard
    var transport: W.WsClient?
    var session: S.Session?
    var view: View
    var everConnected: bool
    var connectAttempts: nat
    var reconnectAttempts: nat
    var successfulConnects: nat
    var onlineTransitions: nat

    ghost function SetupOf(): Setup {
      Setup(rc.c, guard)
    }

    // The controller's signals have each been counted.
    ghost predicate Valid()
      reads this, rc
    {
      && metrics.Valid()
      && IsSetup(SetupOf())
      && connectAttempts == rc.started && successfulConnects == rc.succeeded
      && reconnectAttempts <= connectAttempts
      && (everConnected <==> rc.succeeded > 0)
    }

    function CurrentSession(): Option<S.State>
      reads this, session
    {
      if session == null then None else Some(session.Model())
    }

    ghost function CurrentPipe(): Option<W.State>
      reads this, transport, if transport == null then {} else transport.Repr()
    {
      if transport == null then None else Some(Uncounted(transport.Model()))
    }

    // This is what can be seen of s; after a factory failure the transport before it is gone.
    ghost predicate Shows(s: State)
      reads this, rc, session, transport, if transport == null then {} else transport.Repr()
    {
      && rc.Model() == FrontOf(s).rc && CurrentSession() == FrontOf(s).session
      && (transport != null ==> CurrentPipe() == FrontOf(s).pipe)
    }

    // The objects do not overlap.
    ghost predicate Apart()
      reads this`session, this`transport
    {
      && (session != null ==> (session as object) !in {this, rc})
      && (transport != null ==> transport.metrics == metrics && (transport as object) !in {this, rc, session})
      && {this as object, rc, session} !! metrics.Repr()
    }

    constructor (c: R.Config, guard: W.Guard)
      requires c.hasConnect && c.hasPostAfter && !c.syncTimers
      ensures Valid() && Apart() && fresh(rc) && SetupOf() == Setup(c, guard) && Shows(INITIAL)
      ensures transport == null && session == null && view == Offline
    {
      rc := new R.ReconnectController(c);
      metrics := new Metrics.Metrics();
      this.guard := guard;
      transport, session, view, everConnected := null, null, Offline, false;
      connectAttempts, reconnectAttempts, successfulConnects, onlineTransitions := 0, 0, 0, 0;
    }

    // The on_connecting observer
    method NoteConnecting()
      modifies this`view, this`connectAttempts, this`reconnectAttempts
      ensures view == Trying && connectAttempts == old(connectAttempts) + 1
      ensures reconnectAttempts == old(reconnectAttempts) + if everConnected then 1 else 0
    {
      view := Trying;
      connectAttempts := connectAttempts + 1;
      if everConnected {
        reconnectAttempts := reconnectAttempts + 1;
      }
    }

    // The async_connect operation of the loop: the factory makes a transport, or fails
    method MakeTransport(made: bool)
      requires metrics.Valid()
      modifies this`transport
      ensures if made then
                transport != null && fresh(transport) && transport.Valid() && transport.guard == guard
                && transport.metrics == metrics && Uncounted(transport.Model()) == W.INITIAL
              else transport == null
    {
      if made {
        transport := new W.WsClient(guard, metrics);
      } else {
        transport := null;
      }
    }

    /**
     start() of a loop that has not been started: the controller makes its first attempt. If the factory fails, the
     attempt has failed at once and a backoff is scheduled.
     */
    method Begin(made: bool, ghost s: State)
      requires Valid() && Apart() && Shows(s) && Enabled(s, Start(made)) && rc.cs == R.Disconnected
      modifies this, rc
      ensures Valid() && Apart() && session == old(session)
      ensures view == Trying && connectAttempts == old(connectAttempts) + 1
      ensures Shows(Step(SetupOf(), s, Start(made)))
    {
      AttemptCounts(rc.c, rc.Model(), made);
      AttemptFront(SetupOf(), s, s.rc, made);
      rc.Start(if made then [] else [false]);
      NoteConnecting();
      MakeTransport(made);
    }

    // The controller is told of the backoff timer, and makes its next attempt unless the reconnect was called off.
    method Retry(made: bool)
      requires Valid() && Apart() && rc.backoffTimers > 0
      modifies this, rc
      ensures Valid() && Apart() && session == old(session)
      ensures rc.Model() == R.StepController(rc.c, old(rc.Model()), R.BackoffFires(if made then [] else [false]))
      ensures var attempts := old(rc.reconnectScheduled) && old(rc.cs) == R.Disconnected;
              && view == (if attempts then Trying else old(view))
              && reconnectAttempts == old(reconnectAttempts) + (if attempts && everConnected then 1 else 0)
      ensures if old(rc.reconnectScheduled) && old(rc.cs) == R.Disconnected then
                if made then transport != null && fresh(transport) && Uncounted(transport.Model()) == W.INITIAL
                else transport == null
              else transport == old(transport)
    {
      var attempts := rc.reconnectScheduled && rc.cs == R.Disconnected;
      AttemptCounts(rc.c, rc.Model().(backoffTimers := rc.backoffTimers - 1, scheduled := false), made);
      rc.BackoffRunsOut(if made then [] else [false]);
      if attempts {
        NoteConnecting();
        MakeTransport(made);
      }
    }

    /** The backoff timer fires: a fresh transport for the next attempt, unless the reconnect was called off. */
    method HandleBackoff(made: bool, ghost s: State)
      requires Valid() && Apart() && Shows(s) && Enabled(s, BackoffFires(made))
      modifies this, rc
      ensures Valid() && Apart() && session == old(session)
      ensures Shows(Step(SetupOf(), s, BackoffFires(made)))
      ensures view == if old(rc.reconnectScheduled) && old(rc.cs) == R.Disconnected then Trying else old(view)
    {
      BackoffFront(SetupOf(), s, made);
      Retry(made);
    }

    // A new session is made, then the connect completion runs, and its on_connected observer starts the boot
    method OpenSession(id: S.Id)
      requires Valid() && rc.outstanding > 0
      modifies this`session, this`view, this`everConnected, this`successfulConnects, rc
      ensures Valid() && view == Trying && everConnected
      ensures rc.Model() == R.StepController(rc.c, old(rc.Model()), R.AttemptDone(true, []))
      ensures session != null && fresh(session) && session.Model() == S.OnTransportConnected(S.INITIAL, id)
    {
      session := new S.Session();
      rc.AttemptCompletes(true, []);
      view := Trying;
      everConnected := true;
      session.TransportConnected(id);
      successfulConnects := successfulConnects + 1;
    }

    /** The transport's on_connected handler: a new session, the controller told, the boot call on the new transport. */
    method HandleConnected(id: S.Id, ghost s: State)
      requires Valid() && Apart() && Shows(s) && Enabled(s, Opened(id)) && transport != null && transport.Valid()
      modifies this`session, this`view, this`everConnected, this`successfulConnects, rc, transport`tasks, transport`log
      ensures Valid() && Apart() && view == Trying && everConnected && fresh(session)
      ensures Shows(Step(SetupOf(), s, Opened(id)))
    {
      OpenedFront(SetupOf(), s, id);
      OpenSession(id);
      transport.SendText(CreateCall(id, S.BOOT));
    }

    /** The resume timer fires: on_online starts the current session's heartbeat, if a boot gave it an interval. */
    method HandleOnline(ghost s: State)
      requires Valid() && Apart() && Shows(s) && Enabled(s, ResumeFires)
      modifies this`view, this`onlineTransitions, rc, session
      ensures Valid() && Apart() && view == Online && onlineTransitions == old(onlineTransitions) + 1
      ensures Shows(Step(SetupOf(), s, ResumeFires))
      ensures session != null && session == old(session) && session.heartbeatInterval == old(session.heartbeatInterval)
      ensures if session.heartbeatInterval > 0 then
                S.ArmsNew(old(session.beats), session.heartbeatInterval, session.beats)
              else session.beats == old(session.beats)
    {
      ResumeFront(SetupOf(), s);
      rc.ResumeRunsOut();
      view := Online;
      session.BeginHeartBeat();
      onlineTransitions := onlineTransitions + 1;
    }

    // The connect completion with false
    method FailConnect()
      requires Valid()
      modifies rc
      ensures rc.Model() == R.Completion(rc.c, Completing(old(rc.Model())), false, [])
      ensures rc.started == old(rc.started) && rc.succeeded == old(rc.succeeded)
    {
      if rc.outstanding > 0 {
        rc.AttemptCompletes(false, []);
      } else {
        rc.Complete(false, []);
      }
    }

    // The controller's on_transport_close, whose on_offline observer changes the view
    method TellClosed()
      requires Valid()
      modifies this`view, rc
      ensures rc.Model() == R.OnTransportClose(rc.c, old(rc.Model()), R.TransportError, []) && view == Offline
      ensures rc.started == old(rc.started) && rc.succeeded == old(rc.succeeded)
    {
      rc.TransportClosed(R.TransportError, []);
      view := Offline;
    }

    // The three reports of a close
    method ReportClose() returns (order: seq<S.Id>)
      requires Valid() && session != null && (session as object) !in {this, rc}
      modifies this`view, rc, session
      ensures Valid() && view == Offline
      ensures rc.Model() == CloseController(rc.c, Completing(old(rc.Model())))
      ensures S.IsOrder(order, old(session.pending).Keys) && session.Model() == S.OnClose(old(session.Model()), order)
    {
      FailConnect();
      order := session.HandleClose();
      TellClosed();
    }

    /**
     The on_close handler of transport t. The connect completion runs, for an open connection a second time and with
     false, and the session and the controller are told; every call that was pending gets its callback run.
     */
    method HandleClosed(t: nat, ghost s: State) returns (order: seq<S.Id>)
      requires Valid() && Apart() && Shows(s) && session != null && t < |s.transports|
      requires s.transports[t].life == (if s.rc.outstanding > 0 then Opening else Open)
      modifies this`view, rc, session
      ensures Valid() && Apart() && view == Offline
      ensures Enabled(s, TransportCloses(t, order))
      ensures Shows(CloseAndCall(SetupOf(), s, t, order))
    {
      order := ReportClose();
      CloseAndCallFront(SetupOf(), s, t, order, old(session.Model()));
    }
  }
}
