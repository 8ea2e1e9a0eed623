/**
 The sessions of the client loop, one by one: each takes a run of its own steps, begins with its boot call, and gets its
 heartbeat from its own boot.
 */
module LoopSessions {
  import opened Json
  import opened OcppModel
  import opened ClientLoop
  import G = GateRuns
  import H = HeartBeatRuns
  import LR = LoopRuns
  import S = Session
  import SR = SessionRuns
  import R = Reconnect

  // ------------------------------------------------------------------------------------------
  // Each session takes a run.
  // ------------------------------------------------------------------------------------------

  // What event e of the loop is for session k: the steps it takes
  function StepsOf(s: State, e: Event, k: nat): seq<S.Event> {
    match e
    case Opened(id) =>
      if k == |s.sessions| then [S.DoConnected, S.DoRegister(id, S.BOOT, S.BootCallback), S.DoTransmit(id)] else []
    case SessionSteps(l, step) => if l == k then [step] else []
    case ResumeFires =>
      if k == |s.sessions| - 1 && s.sessions[k].session.interval > 0 then
        [S.DoStartHeartBeat(s.sessions[k].session.interval)]
      else []
    case TransportCloses(_, order) =>
      if k == |s.sessions| - 1 then [S.DoCloseBegin, S.DoClose(s.sessions[k].session.closes.begun, order)] else []
    case _ => []
  }

  function HistoryOf(states: seq<State>, events: seq<Event>, n: nat, k: nat): seq<S.Event>
    requires |states| == |events| + 1 && n <= |events|
  {
    if n == 0 then [] else HistoryOf(states, events, n - 1, k) + StepsOf(states[n - 1], events[n - 1], k)
  }

  // A piece of a session's run, from s to s'
  ghost predicate Leads(es: seq<S.Event>, s: S.State, s': S.State) {
    if es == [] then s' == s
    else S.Enabled(s, es[0]) && Leads(es[1..], S.Step(s, es[0]), s')
  }

  lemma FirstOf(es: seq<S.Event>, more: seq<S.Event>)
    requires more != []
    ensures es + [more[0]] + more[1..] == es + more
  {}

  lemma {:induction false} ExtendBy(ss: seq<S.State>, es: seq<S.Event>, more: seq<S.Event>, s': S.State)
    returns (ss': seq<S.State>)
    requires S.IsRun(ss, es) && Leads(more, ss[|es|], s')
    ensures S.IsRun(ss', es + more) && ss'[|es + more|] == s'
    decreases |more|
  {
    if more == [] {
      ss' := ss;
      assert es + more == es;
    } else {
      var t := S.Step(ss[|es|], more[0]);
      ExtendOnce(ss, es, more[0], t);
      FirstOf(es, more);
      ss' := ExtendBy(ss + [t], es + [more[0]], more[1..], s');
    }
  }

  lemma ExtendOnce(ss: seq<S.State>, es: seq<S.Event>, e: S.Event, t: S.State)
    requires S.IsRun(ss, es) && S.Moves(ss[|es|], e, t)
    ensures S.IsRun(ss + [t], es + [e])
  {
    var ss', es' := ss + [t], es + [e];
    forall i {:trigger es'[i]} | 0 <= i < |es'|
      ensures S.Moves(ss'[i], es'[i], ss'[i + 1])
    {
      if i < |es| {
        S.RunMoves(ss, es, i);
      }
    }
  }

  lemma ConnectLeads(id: S.Id, es: seq<S.Event>)
    requires es == [S.DoConnected, S.DoRegister(id, S.BOOT, S.BootCallback), S.DoTransmit(id)]
    ensures Leads(es, S.INITIAL, S.OnTransportConnected(S.INITIAL, id))
  {
    var s1 := S.INITIAL.(phase := S.Booting);
    var s2 := S.Register(s1, id, S.BOOT, S.BootCallback);
    var s3 := S.Transmit(s2, id);
    assert Leads([], s3, s3);
    assert es[2..] == [S.DoTransmit(id)] && es[2..][1..] == [];
    assert Leads(es[2..], s2, s3);
    assert es[1..][1..] == es[2..];
    assert Leads(es[1..], s1, s3);
  }

  lemma CloseLeads(s: S.State, order: seq<S.Id>, es: seq<S.Event>)
    requires S.IsOrder(order, s.pending.Keys) && es == [S.DoCloseBegin, S.DoClose(s.closes.begun, order)]
    ensures Leads(es, s, S.CloseNow(s, order))
  {
    assert es[1..][1..] == [];
    assert Leads(es[1..], S.BeginClose(s), S.CloseNow(s, order));
  }

  lemma OneLeads(s: S.State, e: S.Event)
    requires S.Enabled(s, e)
    ensures Leads([e], s, S.Step(s, e))
  {
    assert [e][1..] == [];
  }

  // The sessions that were there take their steps, and a new one takes its first.
  ghost predicate SessionsLead(s: State, e: Event, s': State) {
    && |s'.sessions| == |s.sessions| + (if e.Opened? then 1 else 0)
    && (forall k: nat | k < |s.sessions| ::
          Leads(StepsOf(s, e, k), s.sessions[k].session, s'.sessions[k].session))
    && (e.Opened? ==> Leads(StepsOf(s, e, |s.sessions|), S.INITIAL, s'.sessions[|s.sessions|].session))
  }

  // Only the session that the event is for changes.
  lemma OneSessionLeads(s: State, e: Event, s': State, l: nat, after: S.State)
    requires l < |s.sessions| && s'.sessions == s.sessions[l := s.sessions[l].(session := after)] && !e.Opened?
    requires Leads(StepsOf(s, e, l), s.sessions[l].session, after)
    requires forall k: nat | k < |s.sessions| && k != l :: StepsOf(s, e, k) == []
    ensures SessionsLead(s, e, s')
  {}

  lemma NoSessionLeads(s: State, e: Event, s': State)
    requires s'.sessions == s.sessions && (e.Start? || e.BackoffFires? || e.TransportSteps?)
    ensures SessionsLead(s, e, s')
  {}

  lemma SessionLeads(u: Setup, s: State, l: nat, step: S.Event)
    requires Enabled(s, SessionSteps(l, step))
    ensures SessionsLead(s, SessionSteps(l, step), Step(u, s, SessionSteps(l, step)))
  {
    var session := s.sessions[l].session;
    OneLeads(session, step);
    OneSessionLeads(s, SessionSteps(l, step), Step(u, s, SessionSteps(l, step)), l, S.Step(session, step));
  }

  lemma ResumeLeads(u: Setup, s: State)
    requires Enabled(s, ResumeFires)
    ensures SessionsLead(s, ResumeFires, Step(u, s, ResumeFires))
  {
    var l := |s.sessions| - 1;
    var session := s.sessions[l].session;
    if session.interval > 0 {
      OneLeads(session, S.DoStartHeartBeat(session.interval));
    }
    OneSessionLeads(s, ResumeFires, Step(u, s, ResumeFires), l, Resumed(session));
  }

  lemma TransportCloseLeads(u: Setup, s: State, t: nat, order: seq<S.Id>)
    requires Enabled(s, TransportCloses(t, order))
    ensures SessionsLead(s, TransportCloses(t, order), Step(u, s, TransportCloses(t, order)))
  {
    var l := |s.sessions| - 1;
    var session := s.sessions[l].session;
    CloseLeads(session, order, StepsOf(s, TransportCloses(t, order), l));
    OneSessionLeads(s, TransportCloses(t, order), Step(u, s, TransportCloses(t, order)), l, S.CloseNow(session, order));
  }

  lemma OpenLeads(u: Setup, s: State, id: S.Id)
    requires Enabled(s, Opened(id))
    ensures SessionsLead(s, Opened(id), Step(u, s, Opened(id)))
  {
    ConnectLeads(id, StepsOf(s, Opened(id), |s.sessions|));
  }

  lemma StepLeads(u: Setup, s: State, e: Event)
    requires Enabled(s, e)
    ensures SessionsLead(s, e, Step(u, s, e))
  {
    match e
    case Opened(id) => OpenLeads(u, s, id);
    case ResumeFires => ResumeLeads(u, s);
    case TransportCloses(t, order) => TransportCloseLeads(u, s, t, order);
    case SessionSteps(l, step) => SessionLeads(u, s, l, step);
    case _ => NoSessionLeads(s, e, Step(u, s, e));
  }

  lemma MoveLeads(u: Setup, s: State, e: Event, s': State)
    requires Moves(u, s, e, s')
    ensures SessionsLead(s, e, s')
  {
    StepLeads(u, s, e);
  }

  // A session that does not exist yet takes no steps.
  lemma {:induction false} NoHistoryBefore(u: Setup, states: seq<State>, events: seq<Event>, n: nat, k: nat)
    requires IsRun(u, states, events) && n <= |events| && k >= |states[n].sessions|
    ensures HistoryOf(states, events, n, k) == []
  {
    if n > 0 {
      var m := n - 1;
      RunMoves(u, states, events, m);
      MoveLeads(u, states[m], events[m], states[n]);
      NoHistoryBefore(u, states, events, m, k);
    }
  }

  /**
   In every run of the loop each session takes a run of its own steps: its connect and its boot call, then the steps the
   loop's events are for it. So whatever holds in every interleaving of a session's steps holds of it.
   */
  lemma {:induction false} SessionRunInLoop(u: Setup, states: seq<State>, events: seq<Event>, n: nat, k: nat)
    returns (ss: seq<S.State>)
    requires IsRun(u, states, events) && n <= |events| && k < |states[n].sessions|
    ensures var es := HistoryOf(states, events, n, k);
            S.IsRun(ss, es) && ss[|es|] == states[n].sessions[k].session
  {
    assert n > 0;
    var m := n - 1;
    RunMoves(u, states, events, m);
    MoveLeads(u, states[m], events[m], states[n]);
    var more := StepsOf(states[m], events[m], k);
    if k < |states[m].sessions| {
      var before := SessionRunInLoop(u, states, events, m, k);
      ss := ExtendBy(before, HistoryOf(states, events, m, k), more, states[n].sessions[k].session);
    } else {
      NoHistoryBefore(u, states, events, m, k);
      ss := ExtendBy([S.INITIAL], [], more, states[n].sessions[k].session);
    }
  }

  // ------------------------------------------------------------------------------------------
  // The boot call comes first.
  // ------------------------------------------------------------------------------------------

  // The first line of the session, as it goes out
  ghost predicate BootsFirst(c: Client) {
    && c.session.log.lines != []
    && var first := c.session.log.lines[0];
       EncodeFrame(first)
       == Arr([Int(2), Str(first.messageId), Str("BootNotification"), Arr([Str("X100"), Str("OpenAI")])])
  }

  lemma {:induction false} LinesStay(es: seq<S.Event>, s: S.State, s': S.State)
    requires Leads(es, s, s')
    ensures s.log.lines <= s'.log.lines
    decreases |es|
  {
    if es != [] {
      LR.StepLines(s, es[0]);
      LinesStay(es[1..], S.Step(s, es[0]), s');
    }
  }

  lemma NewBootsFirst(u: Setup, s: State, id: S.Id)
    requires Enabled(s, Opened(id))
    ensures var cs := Step(u, s, Opened(id)).sessions; |cs| == |s.sessions| + 1 && BootsFirst(cs[|s.sessions|])
  {
    LR.ConnectedLines(id);
  }

  lemma MoveBootsFirst(u: Setup, s: State, e: Event, s': State, k: nat)
    requires Moves(u, s, e, s') && k < |s'.sessions| && (k < |s.sessions| ==> BootsFirst(s.sessions[k]))
    ensures BootsFirst(s'.sessions[k])
  {
    MoveLeads(u, s, e, s');
    if k < |s.sessions| {
      LinesStay(StepsOf(s, e, k), s.sessions[k].session, s'.sessions[k].session);
    } else {
      NewBootsFirst(u, s, e.id);
    }
  }

  /** Whatever else a session sends, the first line it gives to its transport is its boot call. */
  lemma {:induction false} BootCallComesFirst(u: Setup, states: seq<State>, events: seq<Event>, n: nat, k: nat)
    requires IsRun(u, states, events) && n <= |events| && k < |states[n].sessions|
    ensures BootsFirst(states[n].sessions[k])
  {
    assert n > 0;
    var m := n - 1;
    RunMoves(u, states, events, m);
    if k < |states[m].sessions| {
      BootCallComesFirst(u, states, events, m, k);
    }
    MoveBootsFirst(u, states[m], events[m], states[n], k);
  }

  // ------------------------------------------------------------------------------------------
  // The heartbeat.
  // ------------------------------------------------------------------------------------------

  // Event e runs the acceptance of a boot call of session k.
  ghost predicate RunsBootOf(s: State, e: Event, k: nat) {
    e.SessionSteps? && e.k == k && k < |s.sessions| && G.RunsBoot(s.sessions[k].session, e.step)
  }

  // The interval of the last boot acceptance that session k ran before n, or 0 when it has run none
  ghost function LastInterval(states: seq<State>, events: seq<Event>, n: nat, k: nat): Int32
    requires |states| == |events| + 1 && n <= |events|
  {
    if n == 0 then 0
    else if RunsBootOf(states[n - 1], events[n - 1], k) then
      H.IntervalIn(states[n - 1].sessions[k].session.log.claims[events[n - 1].step.i].frame.payload)
    else LastInterval(states, events, n - 1, k)
  }

  // No other event changes a session's interval, and a new session has none.
  lemma StepInterval(u: Setup, s: State, e: Event, k: nat)
    requires Enabled(s, e) && k < |Step(u, s, e).sessions| && !RunsBootOf(s, e, k)
    ensures Step(u, s, e).sessions[k].session.interval == if k < |s.sessions| then s.sessions[k].session.interval else 0
  {}

  lemma StepGivesInterval(u: Setup, s: State, e: Event, k: nat)
    requires Enabled(s, e) && RunsBootOf(s, e, k)
    ensures |Step(u, s, e).sessions| == |s.sessions|
    ensures Step(u, s, e).sessions[k].session.interval
         == H.IntervalIn(s.sessions[k].session.log.claims[e.step.i].frame.payload)
  {
    var session := s.sessions[k].session;
    H.IntervalStep(session, e.step, S.Step(session, e.step));
  }

  lemma MoveInterval(u: Setup, s: State, e: Event, s': State, k: nat)
    requires Moves(u, s, e, s') && k < |s'.sessions|
    ensures s'.sessions[k].session.interval
         == if RunsBootOf(s, e, k) then H.IntervalIn(s.sessions[k].session.log.claims[e.step.i].frame.payload)
            else if k < |s.sessions| then s.sessions[k].session.interval
            else 0
  {
    if RunsBootOf(s, e, k) {
      StepGivesInterval(u, s, e, k);
    } else {
      StepInterval(u, s, e, k);
    }
  }

  lemma MoveKeepsSessions(u: Setup, s: State, e: Event, s': State)
    requires Moves(u, s, e, s')
    ensures |s.sessions| <= |s'.sessions|
  {
    MoveLeads(u, s, e, s');
  }

  // A session that does not exist yet has run no boot.
  lemma {:induction false} NoIntervalBefore(u: Setup, states: seq<State>, events: seq<Event>, n: nat, k: nat)
    requires IsRun(u, states, events) && n <= |events| && k >= |states[n].sessions|
    ensures LastInterval(states, events, n, k) == 0
  {
    if n > 0 {
      var m := n - 1;
      RunMoves(u, states, events, m);
      MoveKeepsSessions(u, states[m], events[m], states[n]);
      NoIntervalBefore(u, states, events, m, k);
    }
  }

  /** Each session's interval is that of the last boot acceptance it has run; no other session's boot gives it one. */
  lemma {:induction false} IntervalInLoop(u: Setup, states: seq<State>, events: seq<Event>, n: nat, k: nat)
    requires IsRun(u, states, events) && n <= |events| && k < |states[n].sessions|
    ensures states[n].sessions[k].session.interval == LastInterval(states, events, n, k)
  {
    assert n > 0;
    var m := n - 1;
    RunMoves(u, states, events, m);
    MoveInterval(u, states[m], events[m], states[n], k);
    if k < |states[m].sessions| {
      IntervalInLoop(u, states, events, m, k);
    } else {
      NoIntervalBefore(u, states, events, m, k);
    }
  }

  lemma MoveResumes(u: Setup, s: State, s': State, k: nat)
    requires Moves(u, s, ResumeFires, s') && k + 1 == |s.sessions| && SR.BeatInv(s.sessions[k].session.beats)
    ensures |s'.sessions| == k + 1 && s'.sessions[..k] == s.sessions[..k]
    ensures var before, after := s.sessions[k].session, s'.sessions[k].session;
            && after == before.(beats := after.beats)
            && (before.interval > 0 ==> H.Starts(before.beats, before.interval, after.beats))
            && (before.interval <= 0 ==> after.beats == before.beats)
  {
    var before := s.sessions[k].session;
    H.StartStarts(before.beats, before.interval);
  }

  /**
   When a resume timer fires, the current session's heartbeat starts: exactly one timer is then armed, a new one, with
   the interval of the last boot acceptance that session has run. If it has run none, or the interval is not positive,
   nothing is started: a resume timer armed on an earlier connection starts no heartbeat on one that has not booted.
   */
  lemma HeartBeatStartsOnline(u: Setup, states: seq<State>, events: seq<Event>, n: nat, k: nat)
    requires IsRun(u, states, events) && n < |events| && events[n].ResumeFires? && k + 1 == |states[n].sessions|
    ensures |states[n + 1].sessions| == k + 1 && states[n + 1].sessions[..k] == states[n].sessions[..k]
    ensures var before, after := states[n].sessions[k].session, states[n + 1].sessions[k].session;
            var interval := LastInterval(states, events, n, k);
            && after == before.(beats := after.beats)
            && (interval > 0 ==> H.Starts(before.beats, interval, after.beats))
            && (interval <= 0 ==> after.beats == before.beats)
  {
    LR.RunKeepsWire(u, states, events, n);
    assert LR.SoundSession(states[n].sessions[k]);
    RunMoves(u, states, events, n);
    IntervalInLoop(u, states, events, n, k);
    MoveResumes(u, states[n], states[n + 1], k);
  }
}
