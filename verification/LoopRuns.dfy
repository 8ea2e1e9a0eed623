/**
 What holds of the client loop over any run, through any number of closes and reconnects.
 */
module LoopRuns {
  import opened OcppModel
  import opened Backoff
  import opened ClientLoop
  import CR = CallbackRuns
  import G = GateRuns
  import S = Session
  import SR = SessionRuns
  import SH = SessionHandlers
  import W = WsClient
  import R = Reconnect

  // ------------------------------------------------------------------------------------------
  // The controller in the loop.
  // ------------------------------------------------------------------------------------------

  // Every transport but the last has closed.
  ghost predicate OnlyLastAlive(transports: seq<Transport>) {
    forall t | 0 <= t < |transports| - 1 :: transports[t].life == Closed
  }

  function LastLife(transports: seq<Transport>): Life {
    if transports == [] then Closed else transports[|transports| - 1].life
  }

  ghost predicate ControllerInv(c: R.Config, rc: R.State, life: Life, drops: nat) {
    && rc.cs != R.Closing
    && (rc.cs == R.Connecting <==> life == Opening) && (rc.cs == R.Connected <==> life == Open)
    && rc.outstanding == (if rc.cs == R.Connecting then 1 else 0)
    && rc.backoffTimers == (if rc.scheduled then 1 else 0)
    && (rc.scheduled <==> rc.started > 0 && rc.cs == R.Disconnected)
    && (rc.started == 0 ==> rc.cs == R.Disconnected)
    && rc.started + drops == rc.succeeded + rc.failed + rc.outstanding
    && R.BackoffsInOrder(c, rc)
  }

  ghost predicate LoopInv(u: Setup, s: State) {
    OnlyLastAlive(s.transports) && ControllerInv(u.config, s.rc, LastLife(s.transports), s.drops)
  }

  /** The close handler reaches the controller twice; it schedules once. */
  lemma CloseControllerOnce(c: R.Config, rc: R.State)
    requires c.hasPostAfter && !c.syncTimers && R.BackoffsInOrder(c, rc)
    ensures var after := CloseController(c, rc);
            && after.cs == R.Disconnected && after.scheduled && R.BackoffsInOrder(c, after)
            && after.attempt == rc.attempt + (if rc.scheduled then 0 else 1)
            && after.backoffTimers == rc.backoffTimers + (if rc.scheduled then 0 else 1)
            && after.started == rc.started && after.succeeded == rc.succeeded && after.failed == rc.failed + 1
            && after.outstanding == rc.outstanding && after.resumeTimers == rc.resumeTimers
            && after.signals == rc.signals + [R.OnClosed(R.TransportError), R.OnOffline]
            && after.lastReason == R.Reason(R.TransportError)
  {
    var rc1 := rc.(cs := R.Disconnected, failed := rc.failed + 1);
    R.ScheduleOnce(c, rc1, []);
    var rc2 := R.ScheduleReconnect(c, rc1, []);
    assert R.Completion(c, rc, false, []) == rc2 && rc2.signals == rc.signals;
    var told := rc2.signals + [R.OnClosed(R.TransportError), R.OnOffline];
    R.ScheduleOnce(c, rc2.(lastReason := R.Reason(R.TransportError), signals := told, cs := R.Disconnected), []);
  }

  lemma AttemptKeepsLoop(u: Setup, s: State, rc: R.State, made: bool)
    requires IsSetup(u) && OnlyLastAlive(s.transports) && LastLife(s.transports) == Closed
    requires rc.cs == R.Disconnected && !rc.scheduled && rc.backoffTimers == 0 && rc.outstanding == 0
    requires rc.started + s.drops == rc.succeeded + rc.failed && R.BackoffsInOrder(u.config, rc)
    ensures LoopInv(u, Attempt(u, s, rc, made))
  {
    var rc1 := rc.(cs := R.Connecting, started := rc.started + 1, signals := rc.signals + [R.OnConnecting]);
    R.ScheduleOnce(u.config, rc1.(cs := R.Disconnected, failed := rc1.failed + 1), []);
    if !made {
      assert [false][1..] == [];
      assert R.TryReconnect(u.config, rc, [false]) == R.Completion(u.config, rc1, false, []);
    }
  }

  lemma CloseKeepsLoop(u: Setup, s: State, t: nat, order: seq<S.Id>)
    requires IsSetup(u) && LoopInv(u, s) && Enabled(s, TransportCloses(t, order))
    ensures LoopInv(u, Step(u, s, TransportCloses(t, order)))
    ensures t == |s.transports| - 1 && !s.rc.scheduled
  {
    var rc := if s.transports[t].life == Open then s.rc else s.rc.(outstanding := s.rc.outstanding - 1);
    CloseControllerOnce(u.config, rc);
  }

  // A session's step reaches the controller at most by accepting the boot, and its transport by posting a line.
  lemma SessionKeepsLoop(u: Setup, s: State, k: nat, step: S.Event)
    requires IsSetup(u) && LoopInv(u, s) && Enabled(s, SessionSteps(k, step))
    ensures LoopInv(u, Step(u, s, SessionSteps(k, step)))
  {
    var s' := Step(u, s, SessionSteps(k, step));
    assert |s'.transports| == |s.transports|;
    assert forall t | 0 <= t < |s.transports| :: s'.transports[t].life == s.transports[t].life;
  }

  lemma OpenedKeepsLoop(u: Setup, s: State, id: S.Id)
    requires IsSetup(u) && LoopInv(u, s) && Enabled(s, Opened(id))
    ensures LoopInv(u, Step(u, s, Opened(id)))
  {
    var s' := Step(u, s, Opened(id));
    assert |s'.transports| == |s.transports| && s'.transports[|s.transports| - 1].life == Open;
    assert forall t | 0 <= t < |s.transports| - 1 :: s'.transports[t] == s.transports[t];
  }

  lemma LoopStep(u: Setup, s: State, e: Event)
    requires IsSetup(u) && LoopInv(u, s) && Enabled(s, e)
    ensures LoopInv(u, Step(u, s, e))
  {
    match e
    case Start(made) => AttemptKeepsLoop(u, s, s.rc, made);
    case BackoffFires(made) =>
      AttemptKeepsLoop(u, s, s.rc.(backoffTimers := s.rc.backoffTimers - 1, scheduled := false), made);
    case Opened(id) => OpenedKeepsLoop(u, s, id);
    case TransportCloses(t, order) => CloseKeepsLoop(u, s, t, order);
    case SessionSteps(k, step) => SessionKeepsLoop(u, s, k, step);
    case _ =>
  }

  // ------------------------------------------------------------------------------------------
  // The wire: what sessions hand over, transports get, and nobody else's.
  // ------------------------------------------------------------------------------------------

  // What holds of every element survives the change of one element, and the addition of one
  ghost predicate All<T(!new)>(p: T -> bool, xs: seq<T>) {
    forall i | 0 <= i < |xs| :: p(xs[i])
  }

  lemma AllAfterChange<T(!new)>(p: T -> bool, xs: seq<T>, i: nat, x: T)
    requires All(p, xs) && i < |xs| && p(x)
    ensures All(p, xs[i := x])
  {}

  lemma AllAfterAdding<T(!new)>(p: T -> bool, xs: seq<T>, x: T)
    requires All(p, xs) && p(x)
    ensures All(p, xs + [x])
  {}

  ghost predicate SoundPipe(t: Transport) {
    W.QueueInv(t.ws) && W.Conserved(t.ws)
  }

  ghost predicate SoundSession(c: Client) {
    SR.Inv(c.session)
  }

  ghost predicate HasSession(cs: seq<Client>, t: nat) {
    exists k :: 0 <= k < |cs| && cs[k].transport == t
  }

  // A session's transport was given exactly the session's lines.
  ghost predicate Carries(ts: seq<Transport>, c: Client) {
    && c.transport < |ts|
    && ts[c.transport].ws.log.posted == c.session.log.lines
    && ts[c.transport].life != Opening
  }

  // Each session has its own transport; a transport without a session was given nothing.
  ghost predicate OwnersInv(ts: seq<Transport>, cs: seq<Client>) {
    && (forall k | 0 <= k < |cs| :: Carries(ts, cs[k]))
    && (forall k, l | 0 <= k < l < |cs| :: cs[k].transport != cs[l].transport)
    && (forall t | 0 <= t < |ts| :: HasSession(cs, t) || ts[t].ws.log.posted == [])
  }

  // No message id is used by two sessions.
  ghost predicate IdsApart(cs: seq<Client>) {
    forall k, l | 0 <= k < l < |cs| :: cs[k].session.log.calls.Keys !! cs[l].session.log.calls.Keys
  }

  ghost predicate WireInv(ts: seq<Transport>, cs: seq<Client>) {
    All(SoundPipe, ts) && All(SoundSession, cs) && OwnersInv(ts, cs) && IdsApart(cs)
  }

  ghost predicate Wired(s: State) {
    WireInv(s.transports, s.sessions)
  }

  ghost predicate Holds<T(!new)>(p: T -> bool, x: T) {
    p(x)
  }

  lemma PostIsSend(g: W.Guard, t: Transport, line: Frame)
    requires SoundPipe(t)
    ensures SoundPipe(Post(t, line))
    ensures Post(t, line).ws == W.Step(g, t.ws, W.Send(line)) && Post(t, line).life == t.life
  {
    W.QueueStep(g, t.ws, W.Send(line));
    W.ConservedStep(g, t.ws, W.Send(line));
  }

  // The sessions keep their transports, so the same transports have a session.
  lemma OwnersStay(cs: seq<Client>, cs': seq<Client>, t: nat)
    requires |cs| <= |cs'| && (forall k | 0 <= k < |cs| :: cs'[k].transport == cs[k].transport)
    ensures HasSession(cs, t) ==> HasSession(cs', t)
  {
    if HasSession(cs, t) {
      var k :| 0 <= k < |cs| && cs[k].transport == t;
      assert cs'[k].transport == t;
    }
  }

  // One transport may be replaced by one that was given the same messages.
  lemma OwnersWithTransport(ts: seq<Transport>, cs: seq<Client>, t: nat, x: Transport)
    requires OwnersInv(ts, cs) && t < |ts|
    requires x.ws.log.posted == ts[t].ws.log.posted && (x.life == Opening ==> ts[t].life == Opening)
    ensures OwnersInv(ts[t := x], cs)
  {
    forall k | 0 <= k < |cs|
      ensures Carries(ts[t := x], cs[k])
    {
      assert Carries(ts, cs[k]);
    }
  }

  lemma OwnersWithIdle(ts: seq<Transport>, cs: seq<Client>, x: Transport)
    requires OwnersInv(ts, cs) && x.ws.log.posted == []
    ensures OwnersInv(ts + [x], cs)
  {
    forall k | 0 <= k < |cs|
      ensures Carries(ts + [x], cs[k])
    {
      assert Carries(ts, cs[k]);
    }
  }

  // A session hands over more lines, or none, and they are posted on its own transport.
  lemma OwnersWithLines(ts: seq<Transport>, cs: seq<Client>, k: nat, x: Transport, after: S.State)
    requires OwnersInv(ts, cs) && k < |cs| && x.life != Opening && x.ws.log.posted == after.log.lines
    ensures OwnersInv(ts[cs[k].transport := x], cs[k := cs[k].(session := after)])
  {
    var ts', cs' := ts[cs[k].transport := x], cs[k := cs[k].(session := after)];
    forall l | 0 <= l < |cs'|
      ensures Carries(ts', cs'[l])
    {
      assert Carries(ts, cs[l]);
    }
    forall t | 0 <= t < |ts'|
      ensures HasSession(cs', t) || ts'[t].ws.log.posted == []
    {
      OwnersStay(cs, cs', t);
      assert cs'[k].transport == cs[k].transport;
    }
  }

  lemma IdleUntilOpen(ts: seq<Transport>, cs: seq<Client>)
    requires OwnersInv(ts, cs) && ts != [] && ts[|ts| - 1].life == Opening
    ensures ts[|ts| - 1].ws.log.posted == []
  {}

  lemma OwnersWithSession(ts: seq<Transport>, cs: seq<Client>, x: Transport, c: Client)
    requires OwnersInv(ts, cs) && ts != [] && ts[|ts| - 1].life == Opening
    requires c.transport == |ts| - 1 && x.life != Opening && x.ws.log.posted == c.session.log.lines
    ensures OwnersInv(ts[|ts| - 1 := x], cs + [c])
  {
    var ts', cs' := ts[|ts| - 1 := x], cs + [c];
    forall l | 0 <= l < |cs'|
      ensures Carries(ts', cs'[l])
    {
      if l < |cs| {
        assert Carries(ts, cs[l]);
      }
    }
    forall k | 0 <= k < |cs|
      ensures cs[k].transport != c.transport
    {
      assert Carries(ts, cs[k]);
    }
    forall t | 0 <= t < |ts'|
      ensures HasSession(cs', t) || ts'[t].ws.log.posted == []
    {
      OwnersStay(cs, cs', t);
      assert cs'[|cs|].transport == c.transport;
    }
  }

  // A session registers ids that no session has used.
  lemma ApartAfterChange(cs: seq<Client>, k: nat, after: S.State, ids: set<S.Id>)
    requires IdsApart(cs) && k < |cs| && after.log.calls.Keys <= cs[k].session.log.calls.Keys + ids
    requires forall l | 0 <= l < |cs| :: ids !! cs[l].session.log.calls.Keys
    ensures IdsApart(cs[k := cs[k].(session := after)])
  {}

  lemma ApartAfterAdding(cs: seq<Client>, c: Client)
    requires IdsApart(cs)
    requires forall l | 0 <= l < |cs| :: cs[l].session.log.calls.Keys !! c.session.log.calls.Keys
    ensures IdsApart(cs + [c])
  {}

  lemma TransportChanges(ts: seq<Transport>, cs: seq<Client>, t: nat, x: Transport)
    requires WireInv(ts, cs) && t < |ts| && SoundPipe(x)
    requires x.ws.log.posted == ts[t].ws.log.posted && (x.life == Opening ==> ts[t].life == Opening)
    ensures WireInv(ts[t := x], cs)
  {
    AllAfterChange(SoundPipe, ts, t, x);
    OwnersWithTransport(ts, cs, t, x);
  }

  lemma TransportAdded(ts: seq<Transport>, cs: seq<Client>)
    requires WireInv(ts, cs)
    ensures WireInv(ts + [Transport(W.INITIAL, Opening)], cs)
  {
    AllAfterAdding(SoundPipe, ts, Transport(W.INITIAL, Opening));
    OwnersWithIdle(ts, cs, Transport(W.INITIAL, Opening));
  }

  lemma SessionChanges(ts: seq<Transport>, cs: seq<Client>, k: nat, x: Transport, after: S.State, ids: set<S.Id>)
    requires WireInv(ts, cs) && k < |cs| && SR.Inv(after) && after.log.calls.Keys <= cs[k].session.log.calls.Keys + ids
    requires forall l | 0 <= l < |cs| :: ids !! cs[l].session.log.calls.Keys
    requires cs[k].transport < |ts| && SoundPipe(x) && x.life != Opening && x.ws.log.posted == after.log.lines
    ensures WireInv(ts[cs[k].transport := x], cs[k := cs[k].(session := after)])
  {
    AllAfterChange(SoundPipe, ts, cs[k].transport, x);
    AllAfterChange(SoundSession, cs, k, cs[k].(session := after));
    OwnersWithLines(ts, cs, k, x, after);
    ApartAfterChange(cs, k, after, ids);
  }

  lemma PipeAdded(ts: seq<Transport>, cs: seq<Client>, x: Transport, c: Client)
    requires All(SoundPipe, ts) && OwnersInv(ts, cs) && ts != [] && ts[|ts| - 1].life == Opening
    requires c.transport == |ts| - 1 && SoundPipe(x) && x.life != Opening && x.ws.log.posted == c.session.log.lines
    ensures All(SoundPipe, ts[|ts| - 1 := x]) && OwnersInv(ts[|ts| - 1 := x], cs + [c])
  {
    AllAfterChange(SoundPipe, ts, |ts| - 1, x);
    OwnersWithSession(ts, cs, x, c);
  }

  lemma SessionAdded(cs: seq<Client>, c: Client)
    requires All(SoundSession, cs) && IdsApart(cs) && SoundSession(c)
    requires forall l | 0 <= l < |cs| :: cs[l].session.log.calls.Keys !! c.session.log.calls.Keys
    ensures All(SoundSession, cs + [c]) && IdsApart(cs + [c])
  {
    AllAfterAdding(SoundSession, cs, c);
    ApartAfterAdding(cs, c);
  }

  lemma ConnectedLines(id: S.Id)
    ensures var s := S.OnTransportConnected(S.INITIAL, id);
            s.log.lines == [CreateCall(id, S.BOOT)] && s.log.calls.Keys == {id}
  {}

  // What one step of a session does to its calls and lines
  lemma StepLines(s: S.State, e: S.Event)
    requires S.Enabled(s, e)
    ensures var t := S.Step(s, e);
            && t.log.lines == s.log.lines + (if e.DoTransmit? then [s.work.unsent[e.id]] else [])
            && (forall id | id in t.log.calls :: id in s.log.calls || id in IdOf(e))
            && (e.DoTransmit? ==> t.log.calls == s.log.calls)
  {}

  lemma CloseLines(s: S.State, order: seq<S.Id>)
    requires forall id | id in order :: id in s.pending
    ensures S.CloseNow(s, order).log.lines == s.log.lines && S.CloseNow(s, order).log.calls == s.log.calls
  {}

  // The same for a session that hands nothing over
  lemma SessionStays(ts: seq<Transport>, cs: seq<Client>, k: nat, after: S.State, ids: set<S.Id>)
    requires WireInv(ts, cs) && k < |cs| && SR.Inv(after) && after.log.calls.Keys <= cs[k].session.log.calls.Keys + ids
    requires forall l | 0 <= l < |cs| :: ids !! cs[l].session.log.calls.Keys
    requires after.log.lines == cs[k].session.log.lines
    ensures WireInv(ts, cs[k := cs[k].(session := after)])
  {
    var x := ts[cs[k].transport];
    assert Carries(ts, cs[k]);
    SessionChanges(ts, cs, k, x, after, ids);
    assert ts[cs[k].transport := x] == ts;
  }

  lemma SessionStepsKeepsWire(u: Setup, s: State, k: nat, step: S.Event)
    requires Holds(Wired, s) && Enabled(s, SessionSteps(k, step))
    ensures Holds(Wired, Step(u, s, SessionSteps(k, step)))
  {
    var c := s.sessions[k];
    assert SoundSession(c) && Carries(s.transports, c);
    var before, after := c.session, S.Step(c.session, step);
    SR.StepKeepsInv(before, step);
    StepLines(before, step);
    if step.DoTransmit? {
      PostIsSend(u.guard, s.transports[c.transport], before.work.unsent[step.id]);
      var x := Post(s.transports[c.transport], before.work.unsent[step.id]);
      SessionChanges(s.transports, s.sessions, k, x, after, {});
    } else {
      SessionStays(s.transports, s.sessions, k, after, IdOf(step));
    }
  }

  // Every task and completion leaves what was handed over as it is.
  lemma PipeKeepsPosted(g: W.Guard, s: W.State, move: W.Event)
    requires W.Enabled(s, move) && !move.Send?
    ensures W.Step(g, s, move).log.posted == s.log.posted
  {
    match move
    case Strand => assert W.RunTask(g, s.(tasks := s.tasks[1..]), s.tasks[0]).log.posted == s.log.posted;
    case WriteDone => assert W.Popped(s).log.posted == s.log.posted;
    case _ =>
  }

  lemma PipeMoves(g: W.Guard, t: Transport, move: W.Event)
    requires SoundPipe(t) && W.Enabled(t.ws, move) && !move.Send?
    ensures SoundPipe(t.(ws := W.Step(g, t.ws, move)))
  {
    W.QueueStep(g, t.ws, move);
    W.ConservedStep(g, t.ws, move);
  }

  lemma TransportStepsKeepsWire(u: Setup, s: State, t: nat, move: W.Event)
    requires Holds(Wired, s) && Enabled(s, TransportSteps(t, move))
    ensures Holds(Wired, Step(u, s, TransportSteps(t, move)))
  {
    var x := s.transports[t];
    assert SoundPipe(x);
    PipeMoves(u.guard, x, move);
    PipeKeepsPosted(u.guard, x.ws, move);
    TransportChanges(s.transports, s.sessions, t, x.(ws := W.Step(u.guard, x.ws, move)));
  }

  lemma CloseKeepsWire(u: Setup, s: State, t: nat, order: seq<S.Id>)
    requires Holds(Wired, s) && Enabled(s, TransportCloses(t, order))
    ensures Holds(Wired, Step(u, s, TransportCloses(t, order)))
  {
    var k := |s.sessions| - 1;
    var c := s.sessions[k];
    assert SoundSession(c) && SoundPipe(s.transports[t]);
    CloseLines(c.session, order);
    SH.CloseTakes(c.session, order);
    SessionStays(s.transports, s.sessions, k, S.CloseNow(c.session, order), {});
    TransportChanges(s.transports, s.sessions[k := c.(session := S.CloseNow(c.session, order))], t,
                     s.transports[t].(life := Closed));
  }

  lemma ResumeKeepsWire(u: Setup, s: State)
    requires Holds(Wired, s) && Enabled(s, ResumeFires)
    ensures Holds(Wired, Step(u, s, ResumeFires))
  {
    var k := |s.sessions| - 1;
    var c := s.sessions[k];
    assert SoundSession(c);
    var beat := S.DoStartHeartBeat(c.session.interval);
    if c.session.interval > 0 {
      StepLines(c.session, beat);
      SR.StepKeepsInv(c.session, beat);
      SessionStays(s.transports, s.sessions, k, S.Step(c.session, beat), {});
    } else {
      SessionStays(s.transports, s.sessions, k, c.session, {});
    }
  }

  // The transport that opens is given the boot call and nothing else.
  lemma OpenedPipes(g: W.Guard, ts: seq<Transport>, cs: seq<Client>, id: S.Id, c: Client,
                    ts': seq<Transport>, cs': seq<Client>)
    requires All(SoundPipe, ts) && OwnersInv(ts, cs) && ts != [] && ts[|ts| - 1].life == Opening
    requires c.transport == |ts| - 1 && c.session.log.lines == [CreateCall(id, S.BOOT)]
    requires ts' == ts[|ts| - 1 := Post(ts[|ts| - 1].(life := Open), CreateCall(id, S.BOOT))] && cs' == cs + [c]
    ensures All(SoundPipe, ts') && OwnersInv(ts', cs')
  {
    var was := ts[|ts| - 1].(life := Open);
    assert SoundPipe(ts[|ts| - 1]) && SoundPipe(was);
    PostIsSend(g, was, CreateCall(id, S.BOOT));
    IdleUntilOpen(ts, cs);
    PipeAdded(ts, cs, Post(was, CreateCall(id, S.BOOT)), c);
  }

  // The session made for it is a new one, whose only call is the boot.
  lemma OpenedSessions(cs: seq<Client>, id: S.Id, t: nat, cs': seq<Client>)
    requires All(SoundSession, cs) && IdsApart(cs) && forall k | 0 <= k < |cs| :: id !in cs[k].session.log.calls
    requires cs' == cs + [Client(S.OnTransportConnected(S.INITIAL, id), t)]
    ensures All(SoundSession, cs') && IdsApart(cs')
  {
    SH.NewSessionConnects(S.INITIAL, id);
    ConnectedLines(id);
    SessionAdded(cs, Client(S.OnTransportConnected(S.INITIAL, id), t));
  }

  lemma OpenedKeepsPipes(u: Setup, s: State, id: S.Id)
    requires All(SoundPipe, s.transports) && OwnersInv(s.transports, s.sessions)
    requires s.transports != [] && s.transports[|s.transports| - 1].life == Opening && s.rc.outstanding > 0
    ensures var s' := OpenTransport(u.config, s, id);
            All(SoundPipe, s'.transports) && OwnersInv(s'.transports, s'.sessions)
  {
    var s' := OpenTransport(u.config, s, id);
    ConnectedLines(id);
    var c := Client(S.OnTransportConnected(S.INITIAL, id), |s.transports| - 1);
    OpenedPipes(u.guard, s.transports, s.sessions, id, c, s'.transports, s'.sessions);
  }

  lemma OpenedKeepsSessions(u: Setup, s: State, id: S.Id)
    requires All(SoundSession, s.sessions) && IdsApart(s.sessions)
    requires Fresh(s, id) && s.transports != [] && s.rc.outstanding > 0
    ensures var s' := OpenTransport(u.config, s, id); All(SoundSession, s'.sessions) && IdsApart(s'.sessions)
  {
    OpenedSessions(s.sessions, id, |s.transports| - 1, OpenTransport(u.config, s, id).sessions);
  }

  // The controller does not matter to the wire.
  lemma SameWire(s: State, s': State)
    requires Holds(Wired, s) && s'.transports == s.transports && s'.sessions == s.sessions
    ensures Holds(Wired, s')
  {
    assert Wired(s) == Wired(s');
  }

  lemma AddedWire(s: State, s': State)
    requires Holds(Wired, s)
    requires s'.transports == s.transports + [Transport(W.INITIAL, Opening)] && s'.sessions == s.sessions
    ensures Holds(Wired, s')
  {
    TransportAdded(s.transports, s.sessions);
  }

  lemma AttemptKeepsWire(u: Setup, s: State, rc: R.State, made: bool, s': State)
    requires Holds(Wired, s) && s' == Attempt(u, s, rc, made)
    ensures Holds(Wired, s')
  {
    if s'.transports == s.transports {
      SameWire(s, s');
    } else {
      AddedWire(s, s');
    }
  }

  lemma BackoffKeepsWire(u: Setup, s: State, made: bool, s': State)
    requires Holds(Wired, s) && Enabled(s, BackoffFires(made)) && s' == Step(u, s, BackoffFires(made))
    ensures Holds(Wired, s')
  {
    var rc := s.rc.(backoffTimers := s.rc.backoffTimers - 1);
    if rc.scheduled {
      AttemptKeepsWire(u, s, rc.(scheduled := false), made, s');
    } else {
      SameWire(s, s');
    }
  }

  lemma OpenedKeepsWire(u: Setup, s: State, id: S.Id)
    requires Holds(Wired, s) && Fresh(s, id)
    requires s.transports != [] && s.transports[|s.transports| - 1].life == Opening && s.rc.outstanding > 0
    ensures Holds(Wired, OpenTransport(u.config, s, id))
  {
    OpenedKeepsPipes(u, s, id);
    OpenedKeepsSessions(u, s, id);
  }

  lemma WireStep(u: Setup, s: State, e: Event)
    requires Holds(Wired, s) && Enabled(s, e)
    ensures Holds(Wired, Step(u, s, e))
  {
    match e
    case Start(made) => AttemptKeepsWire(u, s, s.rc, made, Step(u, s, e));
    case BackoffFires(made) => BackoffKeepsWire(u, s, made, Step(u, s, e));
    case ResumeFires => ResumeKeepsWire(u, s);
    case Opened(id) => OpenedKeepsWire(u, s, id);
    case TransportCloses(t, order) => CloseKeepsWire(u, s, t, order);
    case SessionSteps(k, step) => SessionStepsKeepsWire(u, s, k, step);
    case TransportSteps(t, move) => TransportStepsKeepsWire(u, s, t, move);
  }

  // ------------------------------------------------------------------------------------------
  // Whole runs.
  // ------------------------------------------------------------------------------------------

  lemma MoveKeepsLoop(u: Setup, s: State, e: Event, s': State)
    requires IsSetup(u) && LoopInv(u, s) && Moves(u, s, e, s')
    ensures LoopInv(u, s')
  {
    LoopStep(u, s, e);
  }

  lemma MoveKeepsWire(u: Setup, s: State, e: Event, s': State)
    requires Holds(Wired, s) && Moves(u, s, e, s')
    ensures Holds(Wired, s')
  {
    WireStep(u, s, e);
  }

  /**
   In every reachable state of the loop at most one transport is alive, and it is the last; the controller is
   Connecting exactly while it is opening and Connected exactly while it is open; a started loop that is Disconnected
   has exactly one backoff timer; and started + closes of open connections = succeeded + failed + outstanding.
   */
  lemma {:induction false} RunKeepsLoop(u: Setup, states: seq<State>, events: seq<Event>, n: nat)
    requires IsRun(u, states, events) && n < |states|
    ensures LoopInv(u, states[n])
  {
    if n > 0 {
      var i := n - 1;
      RunKeepsLoop(u, states, events, i);
      RunMoves(u, states, events, i);
      MoveKeepsLoop(u, states[i], events[i], states[i + 1]);
    }
  }

  lemma {:induction false} RunIsWired(u: Setup, states: seq<State>, events: seq<Event>, n: nat)
    requires IsRun(u, states, events) && n < |states|
    ensures Holds(Wired, states[n])
  {
    if n > 0 {
      var i := n - 1;
      RunIsWired(u, states, events, i);
      RunMoves(u, states, events, i);
      MoveKeepsWire(u, states[i], events[i], states[i + 1]);
    }
  }

  /**
   In every reachable state each session has its own transport, which was given exactly that session's lines; no message
   id is used by two sessions; and each pipeline and each session keeps its own invariants.
   */
  lemma RunKeepsWire(u: Setup, states: seq<State>, events: seq<Event>, n: nat)
    requires IsRun(u, states, events) && n < |states|
    ensures WireInv(states[n].transports, states[n].sessions)
  {
    RunIsWired(u, states, events, n);
    assert Wired(states[n]);
  }

  // What was given to transport t, and what it wrote
  function Posted(s: State, t: nat): seq<Frame>
    requires t < |s.transports|
  {
    s.transports[t].ws.log.posted
  }

  function Written(s: State, t: nat): seq<Frame>
    requires t < |s.transports|
  {
    s.transports[t].ws.log.issued
  }

  // xs has at i the message id that ys has at j.
  predicate SameId(xs: seq<Frame>, i: nat, ys: seq<Frame>, j: nat) {
    i < |xs| && j < |ys| && xs[i].messageId == ys[j].messageId
  }

  // The lines of one session are for different calls, each a call of that session.
  lemma LinesAreOwnCalls(c: Client)
    requires SoundSession(c)
    ensures DistinctIds(c.session.log.lines)
    ensures forall i | 0 <= i < |c.session.log.lines| :: c.session.log.lines[i].messageId in c.session.log.calls.Keys
  {
    assert SR.WireInv(c.session);
  }

  lemma FindOwner(ts: seq<Transport>, cs: seq<Client>, t: nat, i: nat) returns (k: nat)
    requires OwnersInv(ts, cs) && t < |ts| && i < |ts[t].ws.log.posted|
    ensures k < |cs| && cs[k].transport == t && ts[t].ws.log.posted == cs[k].session.log.lines
  {
    assert HasSession(cs, t);
    k :| 0 <= k < |cs| && cs[k].transport == t;
    assert Carries(ts, cs[k]);
  }

  // Two places on the transports with the same message id are the same place.
  lemma PostedOnce(ts: seq<Transport>, cs: seq<Client>, t: nat, i: nat, v: nat, j: nat)
    requires All(SoundSession, cs) && OwnersInv(ts, cs) && IdsApart(cs) && t < |ts| && v < |ts|
    requires i < |ts[t].ws.log.posted| && j < |ts[v].ws.log.posted|
    requires ts[t].ws.log.posted[i].messageId == ts[v].ws.log.posted[j].messageId
    ensures t == v && i == j
  {
    var k := FindOwner(ts, cs, t, i);
    var l := FindOwner(ts, cs, v, j);
    LinesAreOwnCalls(cs[k]);
    LinesAreOwnCalls(cs[l]);
  }

  lemma WrittenIsPosted(t: Transport)
    requires SoundPipe(t) && DistinctIds(t.ws.log.posted)
    ensures DistinctIds(t.ws.log.issued)
    ensures forall f | f in t.ws.log.issued :: f in t.ws.log.posted
  {
    W.IssuedArePosted(t.ws);
  }

  lemma PostedAreDistinct(ts: seq<Transport>, cs: seq<Client>, t: nat)
    requires All(SoundSession, cs) && OwnersInv(ts, cs) && IdsApart(cs) && t < |ts|
    ensures DistinctIds(ts[t].ws.log.posted)
  {
    forall a, b | 0 <= a < b < |ts[t].ws.log.posted|
      ensures ts[t].ws.log.posted[a].messageId != ts[t].ws.log.posted[b].messageId
    {
      if ts[t].ws.log.posted[a].messageId == ts[t].ws.log.posted[b].messageId {
        PostedOnce(ts, cs, t, a, t, b);
      }
    }
  }

  lemma WhereWrittenWasPosted(ts: seq<Transport>, cs: seq<Client>, t: nat, i: nat) returns (a: nat)
    requires WireInv(ts, cs) && t < |ts| && i < |ts[t].ws.log.issued|
    ensures a < |ts[t].ws.log.posted| && ts[t].ws.log.posted[a] == ts[t].ws.log.issued[i]
    ensures DistinctIds(ts[t].ws.log.issued)
  {
    PostedAreDistinct(ts, cs, t);
    WrittenIsPosted(ts[t]);
    assert ts[t].ws.log.issued[i] in ts[t].ws.log.posted;
    a :| 0 <= a < |ts[t].ws.log.posted| && ts[t].ws.log.posted[a] == ts[t].ws.log.issued[i];
  }

  lemma WrittenOnce(ts: seq<Transport>, cs: seq<Client>, t: nat, i: nat, v: nat, j: nat)
    requires WireInv(ts, cs) && t < |ts| && v < |ts|
    requires i < |ts[t].ws.log.issued| && j < |ts[v].ws.log.issued|
    requires ts[t].ws.log.issued[i].messageId == ts[v].ws.log.issued[j].messageId
    ensures t == v && i == j
  {
    var a := WhereWrittenWasPosted(ts, cs, t, i);
    var b := WhereWrittenWasPosted(ts, cs, v, j);
    PostedOnce(ts, cs, t, a, v, b);
  }

  lemma PipeOnlyAdds(g: W.Guard, s: W.State, move: W.Event)
    requires W.Enabled(s, move)
    ensures LogGrows(s, W.Step(g, s, move))
  {
    match move
    case Strand => TaskOnlyAdds(g, s.(tasks := s.tasks[1..]), s.tasks[0]);
    case WriteDone =>
      assert LogGrows(s, W.Popped(s));
      assert W.Popped(s).queue != [] ==> LogGrows(W.Popped(s), W.DoWrite(W.Popped(s)));
    case _ =>
  }

  ghost predicate LogGrows(a: W.State, b: W.State) {
    a.log.posted <= b.log.posted && a.log.issued <= b.log.issued
  }

  lemma TaskOnlyAdds(g: W.Guard, s: W.State, task: W.Task)
    ensures LogGrows(s, W.RunTask(g, s, task))
  {}

  // What was given and what was written stays where it is.
  lemma StepOnlyAdds(u: Setup, s: State, e: Event, t: nat)
    requires Enabled(s, e) && t < |s.transports|
    ensures var s' := Step(u, s, e);
            && t < |s'.transports| && Posted(s, t) <= Posted(s', t) && Written(s, t) <= Written(s', t)
  {
    match e
    case TransportSteps(v, move) => PipeOnlyAdds(u.guard, s.transports[v].ws, move);
    case SessionSteps(k, step) => LinesOnlyAdd(u, s, k, step, t);
    case _ =>
  }

  lemma LinesOnlyAdd(u: Setup, s: State, k: nat, step: S.Event, t: nat)
    requires Enabled(s, SessionSteps(k, step)) && t < |s.transports|
    ensures var s' := Step(u, s, SessionSteps(k, step));
            && t < |s'.transports| && Posted(s, t) <= Posted(s', t) && Written(s, t) <= Written(s', t)
  {}

  lemma {:induction false} RunOnlyAdds(u: Setup, states: seq<State>, events: seq<Event>, m: nat, n: nat, t: nat)
    requires IsRun(u, states, events) && m <= n < |states| && t < |states[m].transports|
    ensures t < |states[n].transports|
    ensures Posted(states[m], t) <= Posted(states[n], t) && Written(states[m], t) <= Written(states[n], t)
    decreases n
  {
    if m < n {
      var i := n - 1;
      RunOnlyAdds(u, states, events, m, i, t);
      RunMoves(u, states, events, i);
      StepOnlyAdds(u, states[i], events[i], t);
    }
  }

  /**
   No double send, over any run, through any number of closes and reconnects. If a call id was given to a transport by
   some moment, then at that and any later moment it has been given to no other transport and at no other place: a
   call pending at a close is never sent again. The same holds of what is written to the wire.
   */
  lemma NoDoubleSend(u: Setup, states: seq<State>, events: seq<Event>, m: nat, n: nat, t: nat, i: nat, v: nat, j: nat)
    requires IsRun(u, states, events) && m <= n < |states| && t < |states[m].transports| && v < |states[n].transports|
    ensures SameId(Posted(states[m], t), i, Posted(states[n], v), j) ==> t == v && i == j
    ensures SameId(Written(states[m], t), i, Written(states[n], v), j) ==> t == v && i == j
  {
    var s := states[n];
    RunKeepsWire(u, states, events, n);
    RunOnlyAdds(u, states, events, m, n, t);
    if SameId(Posted(states[m], t), i, Posted(s, v), j) {
      PostedOnce(s.transports, s.sessions, t, i, v, j);
    }
    if SameId(Written(states[m], t), i, Written(s, v), j) {
      WrittenOnce(s.transports, s.sessions, t, i, v, j);
    }
  }

  // ------------------------------------------------------------------------------------------
  // Online, and the delays.
  // ------------------------------------------------------------------------------------------

  // Some session runs the acceptance of its boot call.
  ghost predicate AcceptsBoot(s: State, e: Event)
    requires Enabled(s, e)
  {
    e.SessionSteps? && G.RunsBoot(s.sessions[e.k].session, e.step)
  }

  lemma SignalsStep(s: S.State, e: S.Event)
    requires S.Enabled(s, e)
    ensures S.Step(s, e).tally.bootSignals == s.tally.bootSignals + (if G.RunsBoot(s, e) then 1 else 0)
  {}

  // Attempts and closes leave online_ and the resume timers alone.
  ghost predicate SameOnline(a: R.State, b: R.State) {
    a.online == b.online && a.resumeTimers == b.resumeTimers
  }

  lemma AttemptKeepsOnline(c: R.Config, rc: R.State, made: bool)
    requires c.hasConnect && c.hasPostAfter && !c.syncTimers
    ensures SameOnline(R.TryReconnect(c, rc, if made then [] else [false]), rc)
  {
    if rc.cs == R.Disconnected && !made {
      var t := rc.(cs := R.Connecting, started := rc.started + 1, signals := rc.signals + [R.OnConnecting]);
      assert [false][1..] == [];
      assert R.TryReconnect(c, rc, [false]) == R.Completion(c, t, false, []);
      ScheduleKeepsOnline(c, t.(cs := R.Disconnected, failed := t.failed + 1));
    }
  }

  lemma ScheduleKeepsOnline(c: R.Config, rc: R.State)
    requires c.hasPostAfter && !c.syncTimers
    ensures SameOnline(R.ScheduleReconnect(c, rc, []), rc)
  {}

  lemma CloseKeepsOnline(c: R.Config, rc: R.State)
    requires c.hasPostAfter && !c.syncTimers
    ensures SameOnline(CloseController(c, rc), rc)
  {
    var rc1 := rc.(cs := R.Disconnected, failed := rc.failed + 1);
    ScheduleKeepsOnline(c, rc1);
    var rc2 := R.ScheduleReconnect(c, rc1, []);
    assert R.Completion(c, rc, false, []) == rc2;
    var told := rc2.signals + [R.OnClosed(R.TransportError), R.OnOffline];
    ScheduleKeepsOnline(c, rc2.(lastReason := R.Reason(R.TransportError), signals := told, cs := R.Disconnected));
  }

  lemma OnlineStep(u: Setup, s: State, e: Event)
    requires IsSetup(u) && Enabled(s, e)
    ensures var rc := Step(u, s, e).rc;
            && (rc.online <==> s.rc.online || e.ResumeFires?)
            && rc.resumeTimers + (if e.ResumeFires? then 1 else 0)
               == s.rc.resumeTimers + (if AcceptsBoot(s, e) then 1 else 0)
  {
    match e
    case Start(made) => AttemptKeepsOnline(u.config, s.rc, made);
    case BackoffFires(made) =>
      AttemptKeepsOnline(u.config, s.rc.(backoffTimers := s.rc.backoffTimers - 1, scheduled := false), made);
    case TransportCloses(t, order) =>
      var opening := s.transports[t].life == Opening;
      CloseKeepsOnline(u.config, if opening then s.rc.(outstanding := s.rc.outstanding - 1) else s.rc);
    case SessionSteps(k, step) => SignalsStep(s.sessions[k].session, step);
    case _ =>
  }

  // How many resume timers have fired, and how many boots have been accepted, before event n
  function Resumes(events: seq<Event>, n: nat): nat
    requires n <= |events|
  {
    if n == 0 then 0 else Resumes(events, n - 1) + (if events[n - 1].ResumeFires? then 1 else 0)
  }

  ghost predicate AcceptsAt(states: seq<State>, events: seq<Event>, j: nat)
    requires |states| == |events| + 1 && j < |events|
  {
    Enabled(states[j], events[j]) && AcceptsBoot(states[j], events[j])
  }

  ghost function Accepts(states: seq<State>, events: seq<Event>, n: nat): nat
    requires |states| == |events| + 1 && n <= |events|
  {
    if n == 0 then 0 else Accepts(states, events, n - 1) + (if AcceptsAt(states, events, n - 1) then 1 else 0)
  }

  lemma {:induction false} AcceptsMeansSome(states: seq<State>, events: seq<Event>, n: nat)
    requires |states| == |events| + 1 && n <= |events| && Accepts(states, events, n) > 0
    ensures exists j: nat :: j < n && AcceptsAt(states, events, j)
  {
    if !AcceptsAt(states, events, n - 1) {
      AcceptsMeansSome(states, events, n - 1);
    }
  }

  /**
   In the loop, each accepted boot of any session arms one resume timer, each such timer fires at most once, and the
   controller is online exactly when one of them has fired: on some connection, not necessarily the present one.
   */
  lemma {:induction false} OnlineExactlyWhen(u: Setup, states: seq<State>, events: seq<Event>, n: nat)
    requires IsRun(u, states, events) && n <= |events|
    ensures states[n].rc.online <==> Resumes(events, n) > 0
    ensures states[n].rc.resumeTimers + Resumes(events, n) == Accepts(states, events, n)
    ensures states[n].rc.online ==> exists j: nat :: j < n && AcceptsAt(states, events, j)
  {
    if n > 0 {
      var i := n - 1;
      OnlineExactlyWhen(u, states, events, i);
      RunMoves(u, states, events, i);
      OnlineStep(u, states[i], events[i]);
      if states[n].rc.online {
        AcceptsMeansSome(states, events, n);
      }
    }
  }

  /** The loop's i-th backoff is the jittered min(cap, initial * 2^max(0, i-1)), whatever connections lie between. */
  lemma DelaysInTheLoop(u: Setup, states: seq<State>, events: seq<Event>, n: nat, i: nat)
    requires IsRun(u, states, events) && n < |states| && i < |states[n].rc.backoffs|
    requires R.Plausible(u.config) && u.config.policy.initialBackoff >= 1
    ensures var d := CappedDoubling(u.config.policy.initialBackoff, u.config.policy.maxBackoff, i);
            WithinJitter(states[n].rc.backoffs[i], d, u.config.policy.jitterRatio) && d <= u.config.policy.maxBackoff
  {
    RunKeepsLoop(u, states, events, n);
    DelayBounds(u.config.policy, i, u.config.draw(i));
  }

  // ------------------------------------------------------------------------------------------
  // One close, one reconnect.
  // ------------------------------------------------------------------------------------------

  // Among these claims, id has exactly one, which is its ConnectionClosed.
  ghost predicate ClosedOnce(claims: seq<S.Claim>, first: nat, id: S.Id, resolve: S.Callback) {
    exists i ::
      && first <= i < |claims| && IsClosed(claims[i], id, resolve)
      && forall j | 0 <= j < |claims| :: claims[j].id == id ==> j == i
  }

  predicate IsClosed(c: S.Claim, id: S.Id, resolve: S.Callback) {
    && c.id == id && c.resolve == resolve && c.cause == S.ByClose
    && CR.IsErrorOf(id, "ConnectionClosed", "Connection closed before reply", c.frame)
  }

  lemma CloseClaimIsClosed(pending: map<S.Id, S.Entry>, id: S.Id)
    requires id in pending
    ensures IsClosed(S.CloseClaim(pending, id), id, pending[id].resolve)
  {}

  lemma OnceAmong(claims: seq<S.Claim>, first: nat, i: nat, id: S.Id, resolve: S.Callback)
    requires first <= i < |claims| && IsClosed(claims[i], id, resolve)
    requires forall j, l | 0 <= j < l < |claims| :: claims[j].id != claims[l].id
    ensures ClosedOnce(claims, first, id, resolve)
  {}

  lemma CloseNowClaims(s: S.State, order: seq<S.Id>)
    requires forall id | id in order :: id in s.pending
    ensures S.CloseNow(s, order).log.claims == S.CloseAll(s, order).log.claims
    ensures S.CloseAll(s, order).log.claims == s.log.claims + S.CloseClaims(s.pending, order)
  {}

  lemma CloseClaimsOnce(s: S.State, order: seq<S.Id>, id: S.Id)
    requires SR.LedgerInv(s) && S.IsOrder(order, s.pending.Keys) && id in s.pending
    ensures ClosedOnce(S.CloseNow(s, order).log.claims, |s.log.claims|, id, s.pending[id].resolve)
  {
    CloseNowClaims(s, order);
    assert id in order;
    var k :| 0 <= k < |order| && order[k] == id;
    SR.CloseKeepsDistinct(s, order);
    CloseClaimIsClosed(s.pending, id);
    OnceAmong(S.CloseNow(s, order).log.claims, |s.log.claims|, |s.log.claims| + k, id, s.pending[id].resolve);
  }

  // Nothing is pending any more, and what was is claimed once each, for ConnectionClosed.
  ghost predicate ClosesPending(before: S.State, after: S.State) {
    && after.pending == map[] && after.phase == S.Disconnected
    && |after.log.claims| == |before.log.claims| + |before.pending.Keys|
    && forall id | id in before.pending ::
         ClosedOnce(after.log.claims, |before.log.claims|, id, before.pending[id].resolve)
  }

  lemma CloseGivesEachOnce(s: S.State, order: seq<S.Id>)
    requires SR.LedgerInv(s) && S.IsOrder(order, s.pending.Keys)
    ensures ClosesPending(s, S.CloseNow(s, order))
  {
    SR.OrderLength(order, s.pending.Keys);
    forall id | id in s.pending
      ensures ClosedOnce(S.CloseNow(s, order).log.claims, |s.log.claims|, id, s.pending[id].resolve)
    {
      CloseClaimsOnce(s, order, id);
    }
  }

  /**
   One close, one reconnect. Whichever way a transport's close finds the loop, its three reports (the connect
   completion with false, the session's on_close, and on_transport_close) arm exactly one backoff timer where there was
   none and take exactly one backoff index; and every call pending in the current session gets exactly one claim, for
   ConnectionClosed, while no other session changes.
   */
  lemma OneCloseOneReconnect(u: Setup, states: seq<State>, events: seq<Event>, n: nat)
    requires IsRun(u, states, events) && n < |events| && events[n].TransportCloses?
    ensures var rc, after := states[n].rc, states[n + 1].rc;
            && !rc.scheduled && rc.backoffTimers == 0
            && after.scheduled && after.backoffTimers == 1 && after.cs == R.Disconnected
            && after.attempt == rc.attempt + 1 && after.failed == rc.failed + 1
            && after.backoffs == rc.backoffs + [R.Delay(u.config, rc.attempt)]
            && after.signals == rc.signals + [R.OnClosed(R.TransportError), R.OnOffline]
    ensures var k := |states[n].sessions| - 1;
            && |states[n + 1].sessions| == k + 1 > 0
            && (forall l | 0 <= l < k :: states[n + 1].sessions[l] == states[n].sessions[l])
            && ClosesPending(states[n].sessions[k].session, states[n + 1].sessions[k].session)
  {
    RunKeepsLoop(u, states, events, n);
    RunKeepsWire(u, states, events, n);
    RunMoves(u, states, events, n);
    CloseOfController(u, states[n], events[n]);
    SessionsAfterClose(u.config, states[n], events[n].t, events[n].order);
    var k := |states[n].sessions| - 1;
    PendingOrdered(states[n], events[n]);
    CurrentLedger(states[n].sessions);
    CloseGivesEachOnce(states[n].sessions[k].session, events[n].order);
  }

  lemma CloseOfController(u: Setup, s: State, e: Event)
    requires IsSetup(u) && LoopInv(u, s) && Enabled(s, e) && e.TransportCloses?
    ensures var rc, after := s.rc, Step(u, s, e).rc;
            && !rc.scheduled && rc.backoffTimers == 0
            && after.scheduled && after.backoffTimers == 1 && after.cs == R.Disconnected
            && after.attempt == rc.attempt + 1 && after.failed == rc.failed + 1
            && after.backoffs == rc.backoffs + [R.Delay(u.config, rc.attempt)]
            && after.signals == rc.signals + [R.OnClosed(R.TransportError), R.OnOffline]
  {
    CloseKeepsLoop(u, s, e.t, e.order);
    var rc := if s.transports[e.t].life == Open then s.rc else s.rc.(outstanding := s.rc.outstanding - 1);
    CloseControllerOnce(u.config, rc);
  }

  /**
   The loop's own async_close runs the close handler before its completion, and that handler's first report is the
   connect completion with false: it takes the controller out of Closing, so a stop() of an open connection is undone
   as soon as that connection closes.
   */
  lemma StopIsUndoneInLoop(u: Setup, states: seq<State>, events: seq<Event>, n: nat)
    requires IsRun(u, states, events) && n < |states| && u.config.hasClose
    requires LastLife(states[n].transports) == Open
    ensures var rc := R.Stop(u.config, states[n].rc);
            var after := CloseController(u.config, rc);
            && rc.cs == R.Closing && !rc.scheduled && rc.closeRequests > 0
            && after.closeRequests == rc.closeRequests
            && R.CloseCompleted(after).scheduled && R.CloseCompleted(after).cs == R.Disconnected
            && R.CloseCompleted(after).backoffTimers == 1
            && R.CloseCompleted(after).backoffs == rc.backoffs + [R.Delay(u.config, rc.attempt)]
  {
    RunKeepsLoop(u, states, events, n);
    CloseControllerOnce(u.config, R.Stop(u.config, states[n].rc));
    CloseAsksNothing(u.config, R.Stop(u.config, states[n].rc));
  }

  lemma CloseAsksNothing(c: R.Config, rc: R.State)
    requires c.hasPostAfter && !c.syncTimers
    ensures CloseController(c, rc).closeRequests == rc.closeRequests
  {
    var rc1 := rc.(cs := R.Disconnected, failed := rc.failed + 1);
    R.ScheduleAsksNothing(c, rc1, []);
    var rc2 := R.ScheduleReconnect(c, rc1, []);
    assert R.Completion(c, rc, false, []) == rc2;
    var told := rc2.signals + [R.OnClosed(R.TransportError), R.OnOffline];
    R.ScheduleAsksNothing(c, rc2.(lastReason := R.Reason(R.TransportError), signals := told, cs := R.Disconnected), []);
  }

  lemma CurrentLedger(cs: seq<Client>)
    requires All(SoundSession, cs) && cs != []
    ensures SR.LedgerInv(cs[|cs| - 1].session)
  {
    assert SoundSession(cs[|cs| - 1]);
  }

  lemma SessionsAfterClose(c: R.Config, s: State, t: nat, order: seq<S.Id>)
    requires t < |s.transports| && (s.transports[t].life == Opening ==> s.rc.outstanding > 0)
    requires s.sessions != [] && forall id | id in order :: id in s.sessions[|s.sessions| - 1].session.pending
    ensures var s', k := CloseTransport(c, s, t, order), |s.sessions| - 1;
            && |s'.sessions| == k + 1
            && (forall l | 0 <= l < k :: s'.sessions[l] == s.sessions[l])
            && s'.sessions[k].session == S.CloseNow(s.sessions[k].session, order)
  {}

  lemma PendingOrdered(s: State, e: Event)
    requires Enabled(s, e) && e.TransportCloses?
    ensures s.sessions != [] && S.IsOrder(e.order, s.sessions[|s.sessions| - 1].session.pending.Keys)
  {}

  // ------------------------------------------------------------------------------------------
  // A close before any session.
  // ------------------------------------------------------------------------------------------

  // Transport t reports its close, and the handler finds no session to tell.
  ghost predicate FindsNoSession(s: State, t: nat) {
    && t < |s.transports| && s.transports[t].life != Closed
    && (s.transports[t].life == Opening ==> s.rc.outstanding > 0) && s.sessions == []
  }

  lemma SessionsStep(u: Setup, s: State, e: Event)
    requires Enabled(s, e)
    ensures Step(u, s, e).sessions == [] <==> s.sessions == [] && !e.Opened?
  {}

  lemma {:induction false} NoSessionExactlyWhen(u: Setup, states: seq<State>, events: seq<Event>, n: nat)
    requires IsRun(u, states, events) && n <= |events|
    ensures states[n].sessions == [] <==> forall m | 0 <= m < n :: !events[m].Opened?
  {
    if n > 0 {
      var i := n - 1;
      NoSessionExactlyWhen(u, states, events, i);
      RunMoves(u, states, events, i);
      SessionsStep(u, states[i], events[i]);
    }
  }

  /** The close of a live transport finds no session exactly when no transport has opened yet. */
  lemma CloseFindsNoSessionExactlyWhen(u: Setup, states: seq<State>, events: seq<Event>, n: nat, t: nat)
    requires IsRun(u, states, events) && n <= |events|
    requires t < |states[n].transports| && states[n].transports[t].life != Closed
    ensures FindsNoSession(states[n], t) <==> forall m | 0 <= m < n :: !events[m].Opened?
  {
    NoSessionExactlyWhen(u, states, events, n);
    RunKeepsLoop(u, states, events, n);
  }

  /** The handshake of the first connection may be the one that fails. */
  lemma FirstHandshakeFindsNoSession(u: Setup) returns (states: seq<State>)
    requires IsSetup(u)
    ensures IsRun(u, states, [Start(true)]) && FindsNoSession(states[1], 0)
  {
    states := [INITIAL, Step(u, INITIAL, Start(true))];
  }

  // ------------------------------------------------------------------------------------------
  // The object's close handler takes steps of the loop.
  // ------------------------------------------------------------------------------------------

  // The current session has callbacks to run from claim first on, none of which accepts a boot.
  ghost predicate HasCallbacks(s: State, first: nat) {
    && s.sessions != [] && s.sessions[|s.sessions| - 1].transport < |s.transports|
    && var session := s.sessions[|s.sessions| - 1].session;
       && first <= |session.log.claims|
       && forall i | first <= i < |session.log.claims| ::
            i in session.work.open && !G.AcceptsBoot(session.log.claims[i])
  }

  lemma CallbackIsStep(u: Setup, s: State, first: nat)
    requires HasCallbacks(s, first) && first < |s.sessions[|s.sessions| - 1].session.log.claims|
    ensures var e := SessionSteps(|s.sessions| - 1, S.DoInvoke(first));
            && Enabled(s, e) && HasCallbacks(Step(u, s, e), first + 1)
            && |Step(u, s, e).sessions| == |s.sessions|
            && Step(u, s, e).sessions[|s.sessions| - 1].session == S.Invoke(s.sessions[|s.sessions| - 1].session, first)
            && AfterCallbacks(Step(u, s, e), first + 1) == AfterCallbacks(s, first)
  {
    var k := |s.sessions| - 1;
    var s' := Step(u, s, SessionSteps(k, S.DoInvoke(first)));
    SignalsStep(s.sessions[k].session, S.DoInvoke(first));
    assert s' == s.(sessions := s.sessions[k := s.sessions[k].(session := S.Invoke(s.sessions[k].session, first))]);
  }

  // The callbacks of session k, one after the other
  function Callbacks(k: nat, first: nat, count: nat): (events: seq<Event>)
    ensures |events| == count && forall i | 0 <= i < count :: events[i] == SessionSteps(k, S.DoInvoke(first + i))
  {
    seq(count, i requires 0 <= i < count => SessionSteps(k, S.DoInvoke(first + i)))
  }

  // A piece of a run, from s to s'
  ghost predicate IsPath(u: Setup, states: seq<State>, events: seq<Event>, s: State, s': State) {
    && |states| == |events| + 1 && states[0] == s && states[|events|] == s'
    && forall i {:trigger events[i]} | 0 <= i < |events| :: Moves(u, states[i], events[i], states[i + 1])
  }

  lemma LongerPath(u: Setup, s: State, e: Event, m: State, states: seq<State>, events: seq<Event>, s': State)
    requires Moves(u, s, e, m) && IsPath(u, states, events, m, s')
    ensures IsPath(u, [s] + states, [e] + events, s, s')
  {}

  lemma FirstCallback(k: nat, first: nat, count: nat)
    requires count > 0
    ensures Callbacks(k, first, count) == [SessionSteps(k, S.DoInvoke(first))] + Callbacks(k, first + 1, count - 1)
  {}

  lemma NoCallbacks(s: State, first: nat)
    requires HasCallbacks(s, first) && first == |s.sessions[|s.sessions| - 1].session.log.claims|
    ensures AfterCallbacks(s, first) == s
  {
    var k := |s.sessions| - 1;
    assert s.sessions[k := s.sessions[k]] == s.sessions;
  }

  lemma {:induction false} CallbacksAreSteps(u: Setup, s: State, first: nat, count: nat) returns (states: seq<State>)
    requires HasCallbacks(s, first) && first + count == |s.sessions[|s.sessions| - 1].session.log.claims|
    ensures IsPath(u, states, Callbacks(|s.sessions| - 1, first, count), s, AfterCallbacks(s, first))
    decreases count
  {
    var k := |s.sessions| - 1;
    if count == 0 {
      states := [s];
      NoCallbacks(s, first);
    } else {
      var e := SessionSteps(k, S.DoInvoke(first));
      CallbackIsStep(u, s, first);
      var s' := Step(u, s, e);
      var more := CallbacksAreSteps(u, s', first + 1, count - 1);
      FirstCallback(k, first, count);
      LongerPath(u, s, e, s', more, Callbacks(k, first + 1, count - 1), AfterCallbacks(s, first));
      states := [s] + more;
    }
  }

  lemma ClaimHasCallback(s: S.State, order: seq<S.Id>, i: nat)
    requires S.IsOrder(order, s.pending.Keys)
    requires |s.log.claims| <= i < |s.log.claims| + |order|
    ensures forall id | id in order :: id in s.pending
    ensures |S.CloseNow(s, order).log.claims| == |s.log.claims| + |order|
    ensures i in S.CloseNow(s, order).work.open && !G.AcceptsBoot(S.CloseNow(s, order).log.claims[i])
  {}

  lemma ClaimsHaveCallbacks(s: S.State, order: seq<S.Id>, s': S.State)
    requires S.IsOrder(order, s.pending.Keys)
    requires (forall id | id in order :: id in s.pending) && s' == S.CloseNow(s, order)
    ensures |s'.log.claims| == |s.log.claims| + |order|
    ensures forall i | |s.log.claims| <= i < |s'.log.claims| :: i in s'.work.open && !G.AcceptsBoot(s'.log.claims[i])
  {
    assert |s'.log.claims| == |s.log.claims| + |order|;
    forall i | |s.log.claims| <= i < |s'.log.claims|
      ensures i in s'.work.open && !G.AcceptsBoot(s'.log.claims[i])
    {
      ClaimHasCallback(s, order, i);
    }
  }

  lemma TheseAreCallbacks(s: State, first: nat, session: S.State)
    requires s.sessions != [] && s.sessions[|s.sessions| - 1].transport < |s.transports|
    requires s.sessions[|s.sessions| - 1].session == session && first <= |session.log.claims|
    requires forall i | first <= i < |session.log.claims| ::
               i in session.work.open && !G.AcceptsBoot(session.log.claims[i])
    ensures HasCallbacks(s, first)
  {}

  lemma CloseHasCallbacks(c: R.Config, s: State, t: nat, order: seq<S.Id>, session: S.State)
    requires t < |s.transports| && (s.transports[t].life == Opening ==> s.rc.outstanding > 0)
    requires s.sessions != [] && s.sessions[|s.sessions| - 1].transport < |s.transports|
    requires session == s.sessions[|s.sessions| - 1].session && S.IsOrder(order, session.pending.Keys)
    ensures var s' := CloseTransport(c, s, t, order);
            && HasCallbacks(s', |session.log.claims|) && |s'.sessions| == |s.sessions|
            && |s'.sessions[|s.sessions| - 1].session.log.claims| == |session.log.claims| + |order|
  {
    ClaimsHaveCallbacks(session, order, S.CloseNow(session, order));
    SessionsAfterClose(c, s, t, order);
    TheseAreCallbacks(CloseTransport(c, s, t, order), |session.log.claims|, S.CloseNow(session, order));
  }

  lemma CloseMoves(u: Setup, s: State, t: nat, order: seq<S.Id>, s': State, first: nat)
    requires Enabled(s, TransportCloses(t, order)) && s' == Step(u, s, TransportCloses(t, order))
    requires HasCallbacks(s', first) && s.sessions != []
    requires first == |s.sessions[|s.sessions| - 1].session.log.claims|
    ensures Moves(u, s, TransportCloses(t, order), s')
    ensures CloseAndCall(u, s, t, order) == AfterCallbacks(s', first)
  {}

  lemma EventThenCallbacks(u: Setup, s: State, e: Event, s': State, first: nat, count: nat) returns (states: seq<State>)
    requires Moves(u, s, e, s') && HasCallbacks(s', first)
    requires first + count == |s'.sessions[|s'.sessions| - 1].session.log.claims|
    ensures IsPath(u, states, [e] + Callbacks(|s'.sessions| - 1, first, count), s, AfterCallbacks(s', first))
  {
    var calls := Callbacks(|s'.sessions| - 1, first, count);
    var more := CallbacksAreSteps(u, s', first, count);
    LongerPath(u, s, e, s', more, calls, AfterCallbacks(s', first));
    states := [s] + more;
  }

  /** What the object's close handler does is the close of its transport, then each callback in order. */
  lemma CloseAndCallIsSteps(u: Setup, s: State, t: nat, order: seq<S.Id>)
    returns (states: seq<State>, events: seq<Event>)
    requires Enabled(s, TransportCloses(t, order)) && s.sessions[|s.sessions| - 1].transport < |s.transports|
    ensures var first := |s.sessions[|s.sessions| - 1].session.log.claims|;
            events == [TransportCloses(t, order)] + Callbacks(|s.sessions| - 1, first, |order|)
    ensures IsPath(u, states, events, s, CloseAndCall(u, s, t, order))
  {
    var first, s' := |s.sessions[|s.sessions| - 1].session.log.claims|, CloseTransport(u.config, s, t, order);
    CloseHasCallbacks(u.config, s, t, order, s.sessions[|s.sessions| - 1].session);
    CloseMoves(u, s, t, order, s', first);
    states := EventThenCallbacks(u, s, TransportCloses(t, order), s', first, |order|);
    events := [TransportCloses(t, order)] + Callbacks(|s.sessions| - 1, first, |order|);
  }
}
