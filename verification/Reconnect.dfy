/**
 The reconnect controller (reconnect.hpp): connect, back off, retry. Its transport and timer
 operations are passed in by the owner and may complete later or before they return.
 */
module Reconnect {
  import opened Backoff

  datatype ConnState = Disconnected | Connecting | Connected | Closing
  datatype CloseReason = Clean | TransportError | ProtocolError
  datatype LastReason = NoReason | Reason(why: CloseReason)

  // Calls of the ReconnectSignals observers, other than on_backoff_scheduled
  datatype Signal = OnConnecting | OnConnected | OnClosed(why: CloseReason) | OnOnline | OnOffline

  // Which operations the owner supplied, whether its timers run their callback at once, and the
  // random number drawn for each backoff.
  datatype Config = Config(
    policy: Policy, hasConnect: bool, hasClose: bool, hasPostAfter: bool, syncTimers: bool, draw: nat -> real)

  // The controller's fields; then what it has announced; then the operations its owner still holds:
  // connect attempts and timers whose callbacks have not run, and close requests.
  datatype State = State(
    cs: ConnState, attempt: nat, online: bool, scheduled: bool,
    started: nat, succeeded: nat, failed: nat, lastReason: LastReason,
    signals: seq<Signal>, backoffs: seq<int>,
    outstanding: nat, backoffTimers: nat, resumeTimers: nat, closeRequests: nat)

  const INITIAL := State(Disconnected, 0, false, false, 0, 0, 0, NoReason, [], [], 0, 0, 0, 0)

  function Delay(c: Config, i: nat): int {
    ComputeBackoff(c.policy, i, c.draw(i))
  }

  function OnTransportOpen(s: State): State {
    s.(cs := Connected, succeeded := s.succeeded + 1, signals := s.signals + [OnConnected])
  }

  // In the next four functions sync lists the outcomes of the connect attempts that complete before
  // async_connect returns; when it is used up, attempts stay outstanding.

  function TryReconnect(c: Config, s: State, sync: seq<bool>): State
    decreases |sync|, 0
  {
    if s.cs != Disconnected then s
    else
      var t := s.(cs := Connecting, started := s.started + 1, signals := s.signals + [OnConnecting]);
      if !c.hasConnect then t
      else if sync == [] then t.(outstanding := t.outstanding + 1)
      else Completion(c, t, sync[0], sync[1..])
  }

  // The callback given to async_connect
  function Completion(c: Config, s: State, ok: bool, sync: seq<bool>): State
    decreases |sync|, 3
  {
    if ok then OnTransportOpen(s)
    else ScheduleReconnect(c, s.(cs := Disconnected, failed := s.failed + 1), sync)
  }

  function ScheduleReconnect(c: Config, s: State, sync: seq<bool>): State
    decreases |sync|, 2
  {
    if s.scheduled then s
    else
      var t := s.(scheduled := true, attempt := s.attempt + 1, backoffs := s.backoffs + [Delay(c, s.attempt)]);
      if !c.hasPostAfter then t.(scheduled := false)
      else if c.syncTimers then BackoffTimer(c, t, sync)
      else t.(backoffTimers := t.backoffTimers + 1)
  }

  // The callback given to post_after by ScheduleReconnect
  function BackoffTimer(c: Config, s: State, sync: seq<bool>): State
    decreases |sync|, 1
  {
    if !s.scheduled then s else TryReconnect(c, s.(scheduled := false), sync)
  }

  function OnTransportClose(c: Config, s: State, why: CloseReason, sync: seq<bool>): State {
    var t := s.(lastReason := Reason(why), signals := s.signals + [OnClosed(why), OnOffline]);
    if t.cs == Closing then t.(cs := Disconnected)
    else ScheduleReconnect(c, t.(cs := Disconnected), sync)
  }

  // The callback given to post_after by OnBootAccepted
  function ResumeTimer(s: State): State {
    s.(online := true, signals := s.signals + [OnOnline])
  }

  function OnBootAccepted(c: Config, s: State): State {
    if c.hasPostAfter && !c.syncTimers then s.(resumeTimers := s.resumeTimers + 1) else ResumeTimer(s)
  }

  function Stop(c: Config, s: State): State {
    if s.cs == Disconnected then s
    else if c.hasClose then s.(cs := Closing, scheduled := false, closeRequests := s.closeRequests + 1)
    else s.(scheduled := false)
  }

  // The callback given to async_close by Stop
  function CloseCompleted(s: State): State
    requires s.closeRequests > 0
  {
    s.(closeRequests := s.closeRequests - 1, cs := Disconnected)
  }

  predicate CanSend(s: State) {
    s.online && s.cs == Connected
  }

  class ReconnectController {
    const c: Config
    var cs: ConnState
    var attempt: nat
    var online: bool
    var reconnectScheduled: bool
    var started: nat
    var succeeded: nat
    var failed: nat
    var lastReason: LastReason
    var signals: seq<Signal>
    var backoffs: seq<int>
    var outstanding: nat
    var backoffTimers: nat
    var resumeTimers: nat
    var closeRequests: nat

    function Model(): State
      reads this
    {
      State(cs, attempt, online, reconnectScheduled, started, succeeded, failed, lastReason,
            signals, backoffs, outstanding, backoffTimers, resumeTimers, closeRequests)
    }

    constructor (c: Config)
      ensures this.c == c && Model() == INITIAL
    {
      this.c := c;
      cs, attempt, online, reconnectScheduled := Disconnected, 0, false, false;
      started, succeeded, failed, lastReason := 0, 0, 0, NoReason;
      signals, backoffs := [], [];
      outstanding, backoffTimers, resumeTimers, closeRequests := 0, 0, 0, 0;
    }

    method Start(sync: seq<bool>)
      modifies this
      ensures Model() == TryReconnect(c, old(Model()), sync)
    {
      if cs != Disconnected {
        return;
      }
      TryReconnectNow(sync);
    }

    method TransportOpened()
      modifies this
      ensures Model() == OnTransportOpen(old(Model()))
    {
      cs := Connected;
      succeeded := succeeded + 1;
      signals := signals + [OnConnected];
    }

    method TransportClosed(why: CloseReason, sync: seq<bool>)
      modifies this
      ensures Model() == OnTransportClose(c, old(Model()), why, sync)
    {
      lastReason := Reason(why);
      signals := signals + [OnClosed(why)];
      signals := signals + [OnOffline];
      assert signals == old(signals) + [OnClosed(why), OnOffline];
      if cs == Closing {
        cs := Disconnected;
        return;
      }
      cs := Disconnected;
      Schedule(sync);
    }

    method BootAccepted()
      modifies this
      ensures Model() == OnBootAccepted(c, old(Model()))
    {
      if c.hasPostAfter {
        if c.syncTimers {
          Resume();
        } else {
          resumeTimers := resumeTimers + 1;
        }
      } else {
        online := true;
        signals := signals + [OnOnline];
      }
    }

    method Resume()
      modifies this
      ensures Model() == ResumeTimer(old(Model()))
    {
      online := true;
      signals := signals + [OnOnline];
    }

    method StopNow()
      modifies this
      ensures Model() == Stop(c, old(Model()))
    {
      if cs == Disconnected {
        return;
      }
      if c.hasClose {
        cs := Closing;
        closeRequests := closeRequests + 1;
      }
      reconnectScheduled := false;
    }

    // The close that stop() asked for is done.
    method CloseDone()
      requires closeRequests > 0
      modifies this
      ensures Model() == CloseCompleted(old(Model()))
    {
      closeRequests := closeRequests - 1;
      cs := Disconnected;
    }

    method TryReconnectNow(sync: seq<bool>)
      modifies this
      ensures Model() == TryReconnect(c, old(Model()), sync)
      decreases |sync|, 0
    {
      if cs != Disconnected {
        return;
      }
      cs := Connecting;
      started := started + 1;
      signals := signals + [OnConnecting];
      if c.hasConnect {
        if sync == [] {
          outstanding := outstanding + 1;
        } else {
          Complete(sync[0], sync[1..]);
        }
      }
    }

    method Complete(ok: bool, sync: seq<bool>)
      modifies this
      ensures Model() == Completion(c, old(Model()), ok, sync)
      decreases |sync|, 3
    {
      if ok {
        TransportOpened();
      } else {
        cs := Disconnected;
        failed := failed + 1;
        Schedule(sync);
      }
    }

    method Schedule(sync: seq<bool>)
      modifies this
      ensures Model() == ScheduleReconnect(c, old(Model()), sync)
      decreases |sync|, 2
    {
      if reconnectScheduled {
        return;
      }
      reconnectScheduled := true;
      var delay := ComputeBackoff(c.policy, attempt, c.draw(attempt));
      attempt := attempt + 1;
      backoffs := backoffs + [delay];
      if c.hasPostAfter {
        if c.syncTimers {
          BackoffExpired(sync);
        } else {
          backoffTimers := backoffTimers + 1;
        }
      } else {
        reconnectScheduled := false;
      }
    }

    method BackoffExpired(sync: seq<bool>)
      modifies this
      ensures Model() == BackoffTimer(c, old(Model()), sync)
      decreases |sync|, 1
    {
      if !reconnectScheduled {
        return;
      }
      reconnectScheduled := false;
      TryReconnectNow(sync);
    }

    // The outstanding attempt completes, a backoff timer fires, a resume timer fires.
    method AttemptCompletes(ok: bool, sync: seq<bool>)
      requires outstanding > 0
      modifies this
      ensures Model() == StepController(c, old(Model()), AttemptDone(ok, sync))
    {
      outstanding := outstanding - 1;
      Complete(ok, sync);
    }

    method BackoffRunsOut(sync: seq<bool>)
      requires backoffTimers > 0
      modifies this
      ensures Model() == StepController(c, old(Model()), BackoffFires(sync))
    {
      backoffTimers := backoffTimers - 1;
      BackoffExpired(sync);
    }

    method ResumeRunsOut()
      requires resumeTimers > 0
      modifies this
      ensures Model() == StepController(c, old(Model()), ResumeFires)
    {
      resumeTimers := resumeTimers - 1;
      Resume();
    }
  }

  // ------------------------------------------------------------------------------------------
  // Whole lives of a controller that is never stopped. Timers fire later; the transport completes
  // each attempt once, at once or later, and reports a close only for an open connection.
  // ------------------------------------------------------------------------------------------

  datatype World = World(rc: State, open: bool)

  datatype Event =
    | StartCalled(sync: seq<bool>)
    | AttemptDone(ok: bool, sync: seq<bool>)
    | ConnectionClosed(why: CloseReason, sync: seq<bool>)
    | BootReported
    | BackoffFires(sync: seq<bool>)
    | ResumeFires

  predicate Enabled(w: World, e: Event) {
    match e
    case StartCalled(_) => true
    case AttemptDone(_, _) => w.rc.outstanding > 0
    case ConnectionClosed(_, _) => w.open
    case BootReported => true
    case BackoffFires(_) => w.rc.backoffTimers > 0
    case ResumeFires => w.rc.resumeTimers > 0
  }

  function StepController(c: Config, s: State, e: Event): State
    requires e.AttemptDone? ==> s.outstanding > 0
    requires e.BackoffFires? ==> s.backoffTimers > 0
    requires e.ResumeFires? ==> s.resumeTimers > 0
  {
    match e
    case StartCalled(sync) => TryReconnect(c, s, sync)
    case AttemptDone(ok, sync) => Completion(c, s.(outstanding := s.outstanding - 1), ok, sync)
    case ConnectionClosed(why, sync) => OnTransportClose(c, s, why, sync)
    case BootReported => OnBootAccepted(c, s)
    case BackoffFires(sync) => BackoffTimer(c, s.(backoffTimers := s.backoffTimers - 1), sync)
    case ResumeFires => ResumeTimer(s.(resumeTimers := s.resumeTimers - 1))
  }

  // A connection is open from a successful attempt to its close.
  function Step(c: Config, w: World, e: Event): World
    requires Enabled(w, e)
  {
    var s := StepController(c, w.rc, e);
    World(s, (w.open && !e.ConnectionClosed?) || s.succeeded > w.rc.succeeded)
  }

  ghost predicate Moves(c: Config, w: World, e: Event, w': World) {
    Enabled(w, e) && w' == Step(c, w, e)
  }

  ghost predicate IsRun(c: Config, worlds: seq<World>, events: seq<Event>) {
    && c.hasConnect && c.hasPostAfter && !c.syncTimers
    && |worlds| == |events| + 1
    && worlds[0] == World(INITIAL, false)
    && forall i {:trigger events[i]} | 0 <= i < |events| :: Moves(c, worlds[i], events[i], worlds[i + 1])
  }

  lemma RunMoves(c: Config, worlds: seq<World>, events: seq<Event>, i: nat)
    requires IsRun(c, worlds, events) && i < |events|
    ensures Moves(c, worlds[i], events[i], worlds[i + 1])
  {}

  // The i-th backoff ever announced was computed from index i.
  ghost predicate BackoffsInOrder(c: Config, s: State) {
    && s.attempt == |s.backoffs|
    && forall i | 0 <= i < |s.backoffs| :: s.backoffs[i] == Delay(c, i)
  }

  ghost predicate Inv(c: Config, w: World) {
    var s := w.rc;
    && s.cs != Closing
    && s.outstanding == (if s.cs == Connecting then 1 else 0)
    && (w.open <==> s.cs == Connected)
    && s.backoffTimers == (if s.scheduled then 1 else 0)
    && (s.started > 0 && s.cs == Disconnected ==> s.scheduled)
    && (s.started == 0 ==> s.cs == Disconnected && !s.scheduled)
    && s.started == s.succeeded + s.failed + s.outstanding
    && BackoffsInOrder(c, s)
  }

  // With timers that fire later, scheduling does not recurse.
  lemma ScheduleOnce(c: Config, s: State, sync: seq<bool>)
    requires c.hasPostAfter && !c.syncTimers && BackoffsInOrder(c, s)
    ensures var t := ScheduleReconnect(c, s, sync);
            && t == (if s.scheduled then s
                     else s.(scheduled := true, attempt := s.attempt + 1,
                             backoffs := s.backoffs + [Delay(c, s.attempt)], backoffTimers := s.backoffTimers + 1))
            && BackoffsInOrder(c, t)
  {}

  lemma StepKeepsInv(c: Config, w: World, e: Event)
    requires c.hasConnect && c.hasPostAfter && !c.syncTimers
    requires Inv(c, w) && Enabled(w, e)
    ensures Inv(c, Step(c, w, e))
  {
    var s := w.rc;
    match e
    case StartCalled(sync) => TryKeepsInv(c, s, sync);
    case AttemptDone(ok, sync) =>
      var t := s.(outstanding := s.outstanding - 1);
      ScheduleOnce(c, t.(cs := Disconnected, failed := t.failed + 1), sync);
    case ConnectionClosed(why, sync) =>
      var told := s.signals + [OnClosed(why), OnOffline];
      ScheduleOnce(c, s.(lastReason := Reason(why), signals := told, cs := Disconnected), sync);
    case BootReported =>
    case BackoffFires(sync) => TryKeepsInv(c, s.(backoffTimers := 0, scheduled := false), sync);
    case ResumeFires =>
  }

  lemma TryKeepsInv(c: Config, s: State, sync: seq<bool>)
    requires c.hasConnect && c.hasPostAfter && !c.syncTimers
    requires s.cs != Closing && s.outstanding == (if s.cs == Connecting then 1 else 0)
    requires s.backoffTimers == (if s.scheduled then 1 else 0)
    requires s.started == 0 ==> s.cs == Disconnected && !s.scheduled
    requires s.started == s.succeeded + s.failed + s.outstanding && BackoffsInOrder(c, s)
    ensures var t := TryReconnect(c, s, sync);
            && Inv(c, World(t, t.cs == Connected))
            && (t.cs == Connected <==> s.cs == Connected || t.succeeded > s.succeeded)
  {
    if s.cs == Disconnected && sync != [] {
      var t := s.(cs := Connecting, started := s.started + 1, signals := s.signals + [OnConnecting]);
      ScheduleOnce(c, t.(cs := Disconnected, failed := t.failed + 1), sync[1..]);
      assert TryReconnect(c, s, sync) == Completion(c, t, sync[0], sync[1..]);
    }
  }

  /**
   The controller neither sticks nor doubles. At every point of every run: it is Connecting exactly when one
   attempt is outstanding, never more; Connected exactly while a connection is open; a reconnect is scheduled
   exactly when one backoff timer is live, never more; once started, being Disconnected implies that timer;
   and started = succeeded + failed + outstanding.
   */
  lemma {:induction false} NeverSticksNorDoubles(c: Config, worlds: seq<World>, events: seq<Event>, n: nat)
    requires IsRun(c, worlds, events) && n < |worlds|
    ensures Inv(c, worlds[n])
    ensures var s := worlds[n].rc;
            && s.outstanding <= 1 && (s.cs == Connecting <==> s.outstanding == 1)
            && (s.cs == Connected <==> worlds[n].open)
            && s.backoffTimers <= 1 && (s.scheduled <==> s.backoffTimers == 1)
            && (s.started > 0 && s.cs == Disconnected ==> s.backoffTimers == 1)
            && s.started == s.succeeded + s.failed + s.outstanding
  {
    if n > 0 {
      var i := n - 1;
      NeverSticksNorDoubles(c, worlds, events, i);
      RunMoves(c, worlds, events, i);
      StepKeepsInv(c, worlds[i], events[i]);
    }
  }

  // start() is called while the caller can see a backoff running: attempts were made and state() is Disconnected.
  ghost predicate StartsInBackoff(w: World, e: Event) {
    e.StartCalled? && w.rc.cs == Disconnected && w.rc.started > 0
  }

  // That start() was event m; since then state() has not been Disconnected and the backoff timer has not fired.
  ghost predicate OverlapsSince(worlds: seq<World>, events: seq<Event>, m: nat, n: nat)
    requires |worlds| == |events| + 1 && n < |worlds|
  {
    && m < n && StartsInBackoff(worlds[m], events[m])
    && (forall k | m < k <= n :: worlds[k].rc.cs != Disconnected)
    && (forall k | m < k < n :: !events[k].BackoffFires?)
  }

  ghost predicate Overlaps(worlds: seq<World>, events: seq<Event>, n: nat)
    requires |worlds| == |events| + 1 && n < |worlds|
  {
    exists m: nat :: OverlapsSince(worlds, events, m, n)
  }

  lemma OverlapStep(c: Config, w: World, e: Event)
    requires c.hasConnect && c.hasPostAfter && !c.syncTimers && Inv(c, w) && Enabled(w, e)
    ensures var t := Step(c, w, e).rc;
            t.cs != Disconnected ==>
              (t.scheduled <==>
                StartsInBackoff(w, e) || (w.rc.scheduled && w.rc.cs != Disconnected && !e.BackoffFires?))
  {
    match e
    case StartCalled(sync) => TryKeepsScheduled(c, w.rc, sync);
    case BackoffFires(sync) =>
      TryKeepsScheduled(c, w.rc.(backoffTimers := w.rc.backoffTimers - 1, scheduled := false), sync);
    case AttemptDone(ok, sync) =>
      var left, failed := w.rc.outstanding - 1, w.rc.failed + 1;
      ScheduleStaysDown(c, w.rc.(outstanding := left, cs := Disconnected, failed := failed), sync);
    case ConnectionClosed(why, sync) =>
      var told := w.rc.signals + [OnClosed(why), OnOffline];
      ScheduleStaysDown(c, w.rc.(lastReason := Reason(why), signals := told, cs := Disconnected), sync);
    case _ =>
  }

  lemma ScheduleStaysDown(c: Config, s: State, sync: seq<bool>)
    requires c.hasPostAfter && !c.syncTimers && s.cs == Disconnected
    ensures ScheduleReconnect(c, s, sync).cs == Disconnected
  {}

  lemma TryKeepsScheduled(c: Config, s: State, sync: seq<bool>)
    requires c.hasConnect && c.hasPostAfter && !c.syncTimers
    ensures var t := TryReconnect(c, s, sync); t.cs != Disconnected ==> t.scheduled == s.scheduled
  {
    if s.cs == Disconnected && sync != [] {
      var t := s.(cs := Connecting, started := s.started + 1, signals := s.signals + [OnConnecting]);
      assert TryReconnect(c, s, sync) == Completion(c, t, sync[0], sync[1..]);
      ScheduleStaysDown(c, t.(cs := Disconnected, failed := t.failed + 1), sync[1..]);
    }
  }

  lemma OverlapMoves(worlds: seq<World>, events: seq<Event>, i: nat)
    requires |worlds| == |events| + 1 && i < |events|
    ensures Overlaps(worlds, events, i + 1)
       <==> worlds[i + 1].rc.cs != Disconnected
            && (StartsInBackoff(worlds[i], events[i]) || (Overlaps(worlds, events, i) && !events[i].BackoffFires?))
  {
    if Overlaps(worlds, events, i + 1) {
      var m: nat :| OverlapsSince(worlds, events, m, i + 1);
      if m < i {
        assert OverlapsSince(worlds, events, m, i);
      }
    }
    if worlds[i + 1].rc.cs != Disconnected {
      if StartsInBackoff(worlds[i], events[i]) {
        assert OverlapsSince(worlds, events, i, i + 1);
      } else if Overlaps(worlds, events, i) && !events[i].BackoffFires? {
        var m: nat :| OverlapsSince(worlds, events, m, i);
        assert OverlapsSince(worlds, events, m, i + 1);
      }
    }
  }

  /** A reconnect is scheduled beside an attempt or a connection exactly when a start() during a backoff overlaps it. */
  lemma {:induction false} ScheduledBesideExactlyWhen(c: Config, worlds: seq<World>, events: seq<Event>, n: nat)
    requires IsRun(c, worlds, events) && n < |worlds|
    ensures worlds[n].rc.scheduled && worlds[n].rc.cs != Disconnected <==> Overlaps(worlds, events, n)
  {
    if n > 0 {
      var i := n - 1;
      ScheduledBesideExactlyWhen(c, worlds, events, i);
      NeverSticksNorDoubles(c, worlds, events, i);
      RunMoves(c, worlds, events, i);
      OverlapStep(c, worlds[i], events[i]);
      OverlapMoves(worlds, events, i);
    }
  }

  /**
   A close leaves exactly one backoff timer, and advances the attempt number by one, except exactly when a start()
   during a backoff overlaps the connection: then the pending backoff is the one that is left.
   */
  lemma CloseSchedulesOneBackoff(c: Config, worlds: seq<World>, events: seq<Event>, n: nat)
    requires IsRun(c, worlds, events) && n < |events| && events[n].ConnectionClosed?
    ensures var before, after := worlds[n].rc, worlds[n + 1].rc;
            && after.cs == Disconnected && after.scheduled && after.backoffTimers == 1
            && after.attempt == before.attempt + (if Overlaps(worlds, events, n) then 0 else 1)
  {
    NeverSticksNorDoubles(c, worlds, events, n);
    ScheduledBesideExactlyWhen(c, worlds, events, n);
    RunMoves(c, worlds, events, n);
    var s := worlds[n].rc;
    var told := s.signals + [OnClosed(events[n].why), OnOffline];
    ScheduleOnce(c, s.(lastReason := Reason(events[n].why), signals := told, cs := Disconnected), events[n].sync);
  }

  lemma ExtendRun(c: Config, worlds: seq<World>, events: seq<Event>, e: Event) returns (more: seq<World>)
    requires IsRun(c, worlds, events) && Enabled(worlds[|events|], e)
    ensures more == worlds + [Step(c, worlds[|events|], e)] && IsRun(c, more, events + [e])
  {
    more := worlds + [Step(c, worlds[|events|], e)];
    forall i {:trigger (events + [e])[i]} | 0 <= i < |events| + 1
      ensures Moves(c, more[i], (events + [e])[i], more[i + 1])
    {
      if i < |events| {
        RunMoves(c, worlds, events, i);
      }
    }
  }

  /** A run in which a start() during a backoff costs the next close its attempt number. */
  lemma StartDuringBackoff(c: Config) returns (worlds: seq<World>, events: seq<Event>)
    requires c.hasConnect && c.hasPostAfter && !c.syncTimers
    ensures events == [StartCalled([]), AttemptDone(false, []), StartCalled([]), AttemptDone(true, []),
                       ConnectionClosed(TransportError, [])]
    ensures IsRun(c, worlds, events)
    ensures worlds[4].open && worlds[4].rc.scheduled && worlds[5].rc.attempt == worlds[4].rc.attempt
  {
    worlds := ExtendRun(c, [World(INITIAL, false)], [], StartCalled([]));
    worlds := ExtendRun(c, worlds, [StartCalled([])], AttemptDone(false, []));
    worlds := ExtendRun(c, worlds, [StartCalled([]), AttemptDone(false, [])], StartCalled([]));
    worlds := ExtendRun(c, worlds, [StartCalled([]), AttemptDone(false, []), StartCalled([])], AttemptDone(true, []));
    worlds := ExtendRun(c, worlds, [StartCalled([]), AttemptDone(false, []), StartCalled([]), AttemptDone(true, [])],
                        ConnectionClosed(TransportError, []));
    events := [StartCalled([]), AttemptDone(false, []), StartCalled([]), AttemptDone(true, []),
               ConnectionClosed(TransportError, [])];
  }

  /**
   can_send() says less than its name: it holds exactly when a connection is open and some connection,
   this one or an earlier one, was once reported online. Nothing ever clears online_.
   */
  lemma {:induction false} CanSendExactlyWhen(c: Config, worlds: seq<World>, events: seq<Event>, n: nat)
    requires IsRun(c, worlds, events) && n < |worlds|
    ensures worlds[n].rc.online <==> OnOnline in worlds[n].rc.signals
    ensures CanSend(worlds[n].rc) <==> worlds[n].open && OnOnline in worlds[n].rc.signals
    ensures worlds[n].rc.online <==> exists m :: 0 <= m < n && events[m].ResumeFires?
  {
    NeverSticksNorDoubles(c, worlds, events, n);
    if n > 0 {
      var i := n - 1;
      CanSendExactlyWhen(c, worlds, events, i);
      NeverSticksNorDoubles(c, worlds, events, i);
      RunMoves(c, worlds, events, i);
      OnlineOnlyByResume(c, worlds[i].rc, events[i]);
    }
  }

  lemma OnlineOnlyByResume(c: Config, s: State, e: Event)
    requires c.hasConnect && c.hasPostAfter && !c.syncTimers && BackoffsInOrder(c, s)
    requires Enabled(World(s, e.ConnectionClosed?), e)
    ensures var t := StepController(c, s, e);
            && (t.online <==> s.online || e.ResumeFires?)
            && (OnOnline in t.signals <==> OnOnline in s.signals || e.ResumeFires?)
  {
    match e
    case StartCalled(sync) => TryKeepsOnline(c, s, sync);
    case AttemptDone(ok, sync) =>
      var t := s.(outstanding := s.outstanding - 1);
      ScheduleOnce(c, t.(cs := Disconnected, failed := t.failed + 1), sync);
    case ConnectionClosed(why, sync) =>
      var told := s.signals + [OnClosed(why), OnOffline];
      ScheduleOnce(c, s.(lastReason := Reason(why), signals := told, cs := Disconnected), sync);
    case BootReported =>
    case BackoffFires(sync) => TryKeepsOnline(c, s.(backoffTimers := s.backoffTimers - 1, scheduled := false), sync);
    case ResumeFires =>
  }

  lemma TryKeepsOnline(c: Config, s: State, sync: seq<bool>)
    requires c.hasConnect && c.hasPostAfter && !c.syncTimers && BackoffsInOrder(c, s)
    ensures var t := TryReconnect(c, s, sync);
            t.online == s.online && (OnOnline in t.signals <==> OnOnline in s.signals)
  {
    if s.cs == Disconnected && sync != [] {
      var t := s.(cs := Connecting, started := s.started + 1, signals := s.signals + [OnConnecting]);
      ScheduleOnce(c, t.(cs := Disconnected, failed := t.failed + 1), sync[1..]);
      assert TryReconnect(c, s, sync) == Completion(c, t, sync[0], sync[1..]);
    }
  }

  // A connection is opened, its boot reported, and the resume timer fires.
  lemma OnlineRun(c: Config) returns (worlds: seq<World>, events: seq<Event>)
    requires c.hasConnect && c.hasPostAfter && !c.syncTimers
    ensures events == [StartCalled([]), AttemptDone(true, []), BootReported, ResumeFires]
    ensures IsRun(c, worlds, events) && worlds[4].rc.online && worlds[4].open
  {
    worlds := ExtendRun(c, [World(INITIAL, false)], [], StartCalled([]));
    worlds := ExtendRun(c, worlds, [StartCalled([])], AttemptDone(true, []));
    worlds := ExtendRun(c, worlds, [StartCalled([]), AttemptDone(true, [])], BootReported);
    worlds := ExtendRun(c, worlds, [StartCalled([]), AttemptDone(true, []), BootReported], ResumeFires);
    events := [StartCalled([]), AttemptDone(true, []), BootReported, ResumeFires];
  }

  /** A run that ends with can_send() true on a connection for which no boot was reported. */
  lemma CanSendUnbooted(c: Config) returns (worlds: seq<World>, events: seq<Event>)
    requires c.hasConnect && c.hasPostAfter && !c.syncTimers
    ensures |events| == 7 && events[4] == ConnectionClosed(TransportError, [])
    ensures events[5..] == [BackoffFires([]), AttemptDone(true, [])]
    ensures IsRun(c, worlds, events) && worlds[7].open && CanSend(worlds[7].rc)
  {
    worlds, events := OnlineRun(c);
    NeverSticksNorDoubles(c, worlds, events, 4);
    var close := ConnectionClosed(TransportError, []);
    worlds := ExtendRun(c, worlds, events, close);
    CloseSchedulesOneBackoff(c, worlds, events + [close], 4);
    worlds := ExtendRun(c, worlds, events + [close], BackoffFires([]));
    worlds := ExtendRun(c, worlds, events + [close] + [BackoffFires([])], AttemptDone(true, []));
    events := events + [close] + [BackoffFires([])] + [AttemptDone(true, [])];
  }

  // The draws of a config are uniform random numbers and its policy is a usable one.
  ghost predicate Plausible(c: Config) {
    && c.policy.maxBackoff >= 0
    && 0.0 <= c.policy.jitterRatio <= 1.0
    && forall i: nat :: 0.0 <= c.draw(i) <= 1.0
  }

  /**
   Over a controller's whole life, whatever successes lie between: the i-th backoff is the jittered
   min(cap, initial * 2^max(0, i - 1)).
   */
  lemma DelaysOverALife(c: Config, worlds: seq<World>, events: seq<Event>, n: nat, i: nat)
    requires IsRun(c, worlds, events) && n < |worlds| && i < |worlds[n].rc.backoffs|
    requires Plausible(c) && c.policy.initialBackoff >= 1
    ensures var d := CappedDoubling(c.policy.initialBackoff, c.policy.maxBackoff, i);
            WithinJitter(worlds[n].rc.backoffs[i], d, c.policy.jitterRatio) && d <= c.policy.maxBackoff
  {
    NeverSticksNorDoubles(c, worlds, events, n);
    DelayBounds(c.policy, i, c.draw(i));
  }

  /** With the default jitter and at least 7 ms of delay and cap, no backoff is below 0.6 times an earlier one. */
  lemma LaterDelaysDoNotCollapse(c: Config, worlds: seq<World>, events: seq<Event>, n: nat, i: nat, j: nat)
    requires IsRun(c, worlds, events) && n < |worlds| && Plausible(c)
    requires c.policy.jitterRatio == 0.2 && c.policy.initialBackoff >= 7 && c.policy.maxBackoff >= 7
    requires i <= j < |worlds[n].rc.backoffs|
    ensures worlds[n].rc.backoffs[j] as real >= 0.6 * worlds[n].rc.backoffs[i] as real
  {
    NeverSticksNorDoubles(c, worlds, events, n);
    DelaysKeepRatio(c.policy, i, j, c.draw(i), c.draw(j));
  }

  // A run of failures only: it announces as many backoffs as it has events.
  lemma {:induction false} FailingRun(c: Config, k: nat) returns (worlds: seq<World>, events: seq<Event>)
    requires c.hasConnect && c.hasPostAfter && !c.syncTimers
    ensures IsRun(c, worlds, events) && |events| == k + 1
    ensures |worlds[k + 1].rc.backoffs| == k + 1 && worlds[k + 1].rc.cs == Disconnected && worlds[k + 1].rc.scheduled
  {
    if k == 0 {
      worlds := ExtendRun(c, [World(INITIAL, false)], [], StartCalled([false]));
      events := [StartCalled([false])];
      FailsAtOnce(c, INITIAL);
    } else {
      worlds, events := FailingRun(c, k - 1);
      NeverSticksNorDoubles(c, worlds, events, k);
      var s := worlds[k].rc;
      FailsAtOnce(c, s.(backoffTimers := s.backoffTimers - 1, scheduled := false));
      worlds := ExtendRun(c, worlds, events, BackoffFires([false]));
      events := events + [BackoffFires([false])];
    }
  }

  lemma FailsAtOnce(c: Config, s: State)
    requires c.hasConnect && c.hasPostAfter && !c.syncTimers && s.cs == Disconnected && !s.scheduled
    ensures var t := TryReconnect(c, s, [false]);
            t.cs == Disconnected && t.scheduled && t.backoffs == s.backoffs + [Delay(c, s.attempt)]
  {
    var t := s.(cs := Connecting, started := s.started + 1, signals := s.signals + [OnConnecting]);
    assert [false][1..] == [];
    assert TryReconnect(c, s, [false]) == Completion(c, t, false, []);
  }

  // No backoff announced in any run exceeds the cap.
  ghost predicate KeepsCap(c: Config) {
    forall worlds: seq<World>, events: seq<Event>, n: nat, i: nat
      {:trigger worlds[n].rc.backoffs[i], IsRun(c, worlds, events)} |
      IsRun(c, worlds, events) && n < |worlds| && i < |worlds[n].rc.backoffs| ::
      worlds[n].rc.backoffs[i] <= c.policy.maxBackoff
  }

  /**
   The documented bound on the delays, over every run of every controller with this policy: no backoff exceeds the cap
   exactly when the jitter of the cap is less than one millisecond.
   */
  lemma RunsKeepCapExactlyWhen(p: Policy)
    requires p.maxBackoff >= 0 && 0.0 <= p.jitterRatio <= 1.0
    ensures (forall c: Config | c.policy == p && Plausible(c) :: KeepsCap(c))
       <==> p.jitterRatio * p.maxBackoff as real < 1.0
  {
    CapIsKeptExactlyWhen(p);
    if p.jitterRatio * p.maxBackoff as real < 1.0 {
      forall c: Config | c.policy == p && Plausible(c)
        ensures KeepsCap(c)
      {
        DelaysKeepCap(c);
      }
    } else {
      var i: nat, draw: real :| 0.0 <= draw <= 1.0 && ComputeBackoff(p, i, draw) > p.maxBackoff;
      SomeRunExceedsCap(p, i, draw);
      assert Plausible(Drawing(p, draw));
    }
  }

  ghost predicate DrawsBelowOne(c: Config) {
    forall i: nat :: c.draw(i) < 1.0
  }

  /** With draws below 1, as the generator is specified to give: exactly when it is at most one millisecond. */
  lemma RunsKeepCapBelowOneExactlyWhen(p: Policy)
    requires p.maxBackoff >= 0 && 0.0 <= p.jitterRatio <= 1.0
    ensures (forall c: Config | c.policy == p && Plausible(c) && DrawsBelowOne(c) :: KeepsCap(c))
       <==> p.jitterRatio * p.maxBackoff as real <= 1.0
  {
    CapIsKeptBelowOneExactlyWhen(p);
    if p.jitterRatio * p.maxBackoff as real <= 1.0 {
      forall c: Config | c.policy == p && Plausible(c) && DrawsBelowOne(c)
        ensures KeepsCap(c)
      {
        DelaysKeepCap(c);
      }
    } else {
      var i: nat, draw: real :| 0.0 <= draw < 1.0 && ComputeBackoff(p, i, draw) > p.maxBackoff;
      SomeRunExceedsCap(p, i, draw);
      assert Plausible(Drawing(p, draw)) && DrawsBelowOne(Drawing(p, draw));
    }
  }

  // A controller with this policy whose every draw is the same
  ghost function Drawing(p: Policy, draw: real): Config {
    Config(p, true, false, true, false, i => draw)
  }

  lemma DelaysKeepCap(c: Config)
    requires forall i: nat :: Delay(c, i) <= c.policy.maxBackoff
    ensures KeepsCap(c)
  {
    forall worlds: seq<World>, events: seq<Event>, n: nat, i: nat |
      IsRun(c, worlds, events) && n < |worlds| && i < |worlds[n].rc.backoffs|
      ensures worlds[n].rc.backoffs[i] <= c.policy.maxBackoff
    {
      NeverSticksNorDoubles(c, worlds, events, n);
    }
  }

  lemma SomeRunExceedsCap(p: Policy, i: nat, draw: real)
    requires ComputeBackoff(p, i, draw) > p.maxBackoff
    ensures !KeepsCap(Drawing(p, draw))
  {
    var c := Drawing(p, draw);
    var worlds, events := FailingRun(c, i);
    NeverSticksNorDoubles(c, worlds, events, i + 1);
    assert worlds[i + 1].rc.backoffs[i] == Delay(c, i) == ComputeBackoff(p, i, draw);
  }

  // ------------------------------------------------------------------------------------------
  // What the observers are told, and in which order.
  // ------------------------------------------------------------------------------------------

  // What an attempt tells them, if one is made
  function Attempting(s: State, sync: seq<bool>): seq<Signal> {
    if s.cs != Disconnected then []
    else if sync != [] && sync[0] then [OnConnecting, OnConnected]
    else [OnConnecting]
  }

  function Telling(s: State, e: Event): seq<Signal> {
    match e
    case StartCalled(sync) => Attempting(s, sync)
    case AttemptDone(ok, _) => if ok then [OnConnected] else []
    case ConnectionClosed(why, _) => [OnClosed(why), OnOffline]
    case BootReported => []
    case BackoffFires(sync) => if s.scheduled then Attempting(s, sync) else []
    case ResumeFires => [OnOnline]
  }

  lemma ScheduleTells(c: Config, s: State, sync: seq<bool>)
    requires c.hasPostAfter && !c.syncTimers
    ensures ScheduleReconnect(c, s, sync).signals == s.signals
    ensures ScheduleReconnect(c, s, sync).lastReason == s.lastReason
  {}

  lemma TryTells(c: Config, s: State, sync: seq<bool>)
    requires c.hasConnect && c.hasPostAfter && !c.syncTimers
    ensures TryReconnect(c, s, sync).signals == s.signals + Attempting(s, sync)
    ensures TryReconnect(c, s, sync).lastReason == s.lastReason
  {
    if s.cs == Disconnected && sync != [] {
      var t := s.(cs := Connecting, started := s.started + 1, signals := s.signals + [OnConnecting]);
      assert TryReconnect(c, s, sync) == Completion(c, t, sync[0], sync[1..]);
      if sync[0] {
        assert t.signals + [OnConnected] == s.signals + [OnConnecting, OnConnected];
      } else {
        ScheduleTells(c, t.(cs := Disconnected, failed := t.failed + 1), sync[1..]);
      }
    }
  }

  lemma StepTells(c: Config, s: State, e: Event)
    requires c.hasConnect && c.hasPostAfter && !c.syncTimers && Enabled(World(s, e.ConnectionClosed?), e)
    ensures StepController(c, s, e).signals == s.signals + Telling(s, e)
    ensures StepController(c, s, e).lastReason == if e.ConnectionClosed? then Reason(e.why) else s.lastReason
  {
    match e
    case StartCalled(sync) => TryTells(c, s, sync);
    case AttemptDone(_, sync) =>
      ScheduleTells(c, s.(outstanding := s.outstanding - 1, cs := Disconnected, failed := s.failed + 1), sync);
    case ConnectionClosed(why, sync) =>
      var told := s.signals + [OnClosed(why), OnOffline];
      ScheduleTells(c, s.(lastReason := Reason(why), signals := told, cs := Disconnected), sync);
    case BootReported =>
    case BackoffFires(sync) => TryTells(c, s.(backoffTimers := s.backoffTimers - 1, scheduled := false), sync);
    case ResumeFires =>
  }

  // The order they may come in: attempts, a connection, its close, and again. on_online comes at any moment but between
  // on_closed and on_offline.
  datatype Stage = Silent | Trying | Up | Shut | Down | OutOfOrder

  function StageAfter(p: Stage, x: Signal): Stage {
    match x
    case OnConnecting => if p in {Silent, Trying, Down} then Trying else OutOfOrder
    case OnConnected => if p == Trying then Up else OutOfOrder
    case OnClosed(_) => if p == Up then Shut else OutOfOrder
    case OnOffline => if p == Shut then Down else OutOfOrder
    case OnOnline => if p == Shut then OutOfOrder else p
  }

  function StageOf(signals: seq<Signal>): Stage {
    if signals == [] then Silent else StageAfter(StageOf(signals[..|signals| - 1]), signals[|signals| - 1])
  }

  lemma StageOfOneMore(signals: seq<Signal>, x: Signal)
    ensures StageOf(signals + [x]) == StageAfter(StageOf(signals), x)
  {
    assert (signals + [x])[..|signals|] == signals;
  }

  lemma StageOfTwoMore(signals: seq<Signal>, x: Signal, y: Signal)
    ensures StageOf(signals + [x, y]) == StageAfter(StageAfter(StageOf(signals), x), y)
  {
    assert signals + [x, y] == signals + [x] + [y];
    StageOfOneMore(signals + [x], y);
    StageOfOneMore(signals, x);
  }

  lemma StageOfMore(signals: seq<Signal>, more: seq<Signal>)
    requires |more| <= 2
    ensures StageOf(signals + more) == match |more|
                                       case 0 => StageOf(signals)
                                       case 1 => StageAfter(StageOf(signals), more[0])
                                       case _ => StageAfter(StageAfter(StageOf(signals), more[0]), more[1])
  {
    if |more| == 0 {
      assert signals + more == signals;
    } else if |more| == 1 {
      assert more == [more[0]];
      StageOfOneMore(signals, more[0]);
    } else {
      assert more == [more[0], more[1]];
      StageOfTwoMore(signals, more[0], more[1]);
    }
  }

  // The observers know the state: the last thing they heard, on_online apart, fits it.
  ghost predicate StageFitsState(s: State, p: Stage) {
    match s.cs
    case Connected => p == Up
    case Connecting => p == Trying
    case _ => if s.started == 0 then p == Silent else p == Trying || p == Down
  }

  function StageAfterEvent(p: Stage, s: State, e: Event): Stage {
    var more := Telling(s, e);
    if |more| == 0 then p
    else if |more| == 1 then StageAfter(p, more[0])
    else StageAfter(StageAfter(p, more[0]), more[1])
  }

  lemma StageStep(c: Config, w: World, e: Event, p: Stage)
    requires c.hasConnect && c.hasPostAfter && !c.syncTimers && Inv(c, w) && Enabled(w, e)
    requires StageFitsState(w.rc, p)
    ensures StageFitsState(Step(c, w, e).rc, StageAfterEvent(p, w.rc, e))
  {
    var s := w.rc;
    match e
    case StartCalled(sync) => StageOfTry(c, s, sync, p);
    case AttemptDone(ok, sync) =>
      var t := s.(outstanding := s.outstanding - 1);
      ScheduleOnce(c, t.(cs := Disconnected, failed := t.failed + 1), sync);
    case ConnectionClosed(why, sync) =>
      var told := s.signals + [OnClosed(why), OnOffline];
      ScheduleOnce(c, s.(lastReason := Reason(why), signals := told, cs := Disconnected), sync);
    case BootReported =>
    case BackoffFires(sync) => StageOfTry(c, s.(backoffTimers := s.backoffTimers - 1, scheduled := false), sync, p);
    case ResumeFires =>
  }

  lemma StageOfTry(c: Config, s: State, sync: seq<bool>, p: Stage)
    requires c.hasConnect && c.hasPostAfter && !c.syncTimers && s.cs != Closing && BackoffsInOrder(c, s)
    requires StageFitsState(s, p)
    ensures var more, t := Attempting(s, sync), TryReconnect(c, s, sync);
            StageFitsState(t, if |more| == 0 then p
                              else if |more| == 1 then StageAfter(p, more[0])
                              else StageAfter(StageAfter(p, more[0]), more[1]))
  {
    if s.cs == Disconnected && sync != [] {
      var t := s.(cs := Connecting, started := s.started + 1, signals := s.signals + [OnConnecting]);
      ScheduleOnce(c, t.(cs := Disconnected, failed := t.failed + 1), sync[1..]);
      assert TryReconnect(c, s, sync) == Completion(c, t, sync[0], sync[1..]);
    }
  }

  function LastWhy(events: seq<Event>, n: nat): LastReason
    requires n <= |events|
  {
    if n == 0 then NoReason
    else if events[n - 1].ConnectionClosed? then Reason(events[n - 1].why)
    else LastWhy(events, n - 1)
  }

  /**
   What the observers are told comes in order: attempts, a connection, its on_closed and then at once its on_offline,
   and attempts again; what they were told last fits the state. The last disconnect reason is that of the last close.
   */
  lemma {:induction false} SignalsInOrder(c: Config, worlds: seq<World>, events: seq<Event>, n: nat)
    requires IsRun(c, worlds, events) && n <= |events|
    ensures StageFitsState(worlds[n].rc, StageOf(worlds[n].rc.signals))
    ensures worlds[n].rc.lastReason == LastWhy(events, n)
    ensures n < |events| ==> worlds[n + 1].rc.signals == worlds[n].rc.signals + Telling(worlds[n].rc, events[n])
  {
    if n < |events| {
      RunMoves(c, worlds, events, n);
      StepTells(c, worlds[n].rc, events[n]);
    }
    if n > 0 {
      var i := n - 1;
      SignalsInOrder(c, worlds, events, i);
      NeverSticksNorDoubles(c, worlds, events, i);
      RunMoves(c, worlds, events, i);
      StepTells(c, worlds[i].rc, events[i]);
      StageOfMore(worlds[i].rc.signals, Telling(worlds[i].rc, events[i]));
      StageStep(c, worlds[i], events[i], StageOf(worlds[i].rc.signals));
    }
  }

  // ------------------------------------------------------------------------------------------
  // stop().
  // ------------------------------------------------------------------------------------------

  lemma AsksNothing(c: Config, s: State, e: Event)
    requires c.hasConnect && c.hasPostAfter && !c.syncTimers && Enabled(World(s, e.ConnectionClosed?), e)
    ensures StepController(c, s, e).closeRequests == s.closeRequests
  {
    match e
    case StartCalled(sync) => TryAsksNothing(c, s, sync);
    case AttemptDone(_, sync) =>
      ScheduleAsksNothing(c, s.(outstanding := s.outstanding - 1, cs := Disconnected, failed := s.failed + 1), sync);
    case ConnectionClosed(why, sync) =>
      var told := s.signals + [OnClosed(why), OnOffline];
      ScheduleAsksNothing(c, s.(lastReason := Reason(why), signals := told, cs := Disconnected), sync);
    case BackoffFires(sync) => TryAsksNothing(c, s.(backoffTimers := s.backoffTimers - 1, scheduled := false), sync);
    case _ =>
  }

  lemma ScheduleAsksNothing(c: Config, s: State, sync: seq<bool>)
    requires c.hasPostAfter && !c.syncTimers
    ensures ScheduleReconnect(c, s, sync).closeRequests == s.closeRequests
  {}

  lemma TryAsksNothing(c: Config, s: State, sync: seq<bool>)
    requires c.hasConnect && c.hasPostAfter && !c.syncTimers
    ensures TryReconnect(c, s, sync).closeRequests == s.closeRequests
  {
    if s.cs == Disconnected && sync != [] {
      var t := s.(cs := Connecting, started := s.started + 1, signals := s.signals + [OnConnecting]);
      assert TryReconnect(c, s, sync) == Completion(c, t, sync[0], sync[1..]);
      ScheduleAsksNothing(c, t.(cs := Disconnected, failed := t.failed + 1), sync[1..]);
    }
  }

  lemma {:induction false} NeverAsksToClose(c: Config, worlds: seq<World>, events: seq<Event>, n: nat)
    requires IsRun(c, worlds, events) && n < |worlds|
    ensures worlds[n].rc.closeRequests == 0
  {
    if n > 0 {
      var i := n - 1;
      NeverAsksToClose(c, worlds, events, i);
      NeverSticksNorDoubles(c, worlds, events, i);
      RunMoves(c, worlds, events, i);
      AsksNothing(c, worlds[i].rc, events[i]);
    }
  }

  /**
   stop() while a backoff runs does nothing: the state is Disconnected, so the backoff timer will start the next attempt
   all the same.
   */
  lemma StopDuringBackoff(c: Config, worlds: seq<World>, events: seq<Event>, n: nat)
    requires IsRun(c, worlds, events) && n < |worlds| && worlds[n].rc.started > 0 && worlds[n].rc.cs == Disconnected
    ensures Stop(c, worlds[n].rc) == worlds[n].rc && worlds[n].rc.backoffTimers == 1
    ensures StepController(c, worlds[n].rc, BackoffFires([])).started == worlds[n].rc.started + 1
  {
    NeverSticksNorDoubles(c, worlds, events, n);
  }

  /**
   stop() during an attempt does not end it: the attempt may still succeed, and then the controller is Connected, or
   fail, and then it backs off. Without an async_close operation a connection stays Connected, and its close is followed
   by a reconnect.
   */
  lemma StopDoesNotEnd(c: Config, worlds: seq<World>, events: seq<Event>, n: nat, why: CloseReason)
    requires IsRun(c, worlds, events) && n < |worlds|
    ensures worlds[n].rc.cs == Connecting ==>
              var s := Stop(c, worlds[n].rc);
              && s.outstanding == 1 && !s.scheduled
              && StepController(c, s, AttemptDone(true, [])).cs == Connected
              && StepController(c, s, AttemptDone(false, [])).scheduled
    ensures worlds[n].open && !c.hasClose ==>
              Stop(c, worlds[n].rc).cs == Connected
              && StepController(c, Stop(c, worlds[n].rc), ConnectionClosed(why, [])).scheduled
  {
    NeverSticksNorDoubles(c, worlds, events, n);
  }

  // What happens after a stop(): anything but another start() or stop()
  datatype Later = Ordinary(e: Event) | CloseCompletes

  predicate CanFollow(w: World, l: Later) {
    match l
    case Ordinary(e) => Enabled(w, e) && !e.StartCalled?
    case CloseCompletes => w.rc.closeRequests > 0
  }

  function Follow(c: Config, w: World, l: Later): World
    requires CanFollow(w, l)
  {
    match l
    case Ordinary(e) => Step(c, w, e)
    case CloseCompletes => w.(rc := CloseCompleted(w.rc))
  }

  ghost predicate Follows(c: Config, w: World, l: Later, w': World) {
    CanFollow(w, l) && w' == Follow(c, w, l)
  }

  // stop() is called in world w, and this is what follows.
  ghost predicate IsStopped(c: Config, w: World, worlds: seq<World>, later: seq<Later>) {
    && |worlds| == |later| + 1
    && worlds[0] == w.(rc := Stop(c, w.rc))
    && forall i {:trigger later[i]} | 0 <= i < |later| :: Follows(c, worlds[i], later[i], worlds[i + 1])
  }

  lemma StoppedFollows(c: Config, w: World, worlds: seq<World>, later: seq<Later>, i: nat)
    requires IsStopped(c, w, worlds, later) && i < |later|
    ensures Follows(c, worlds[i], later[i], worlds[i + 1])
  {}

  predicate Reports(l: Later) {
    l.Ordinary? && l.e.ConnectionClosed?
  }

  // How far the stop has come: asked for; completed, and the connection's close not reported; over; or undone
  datatype Stopping = Asked | Completed | Over | Undone

  function StoppingAfter(p: Stopping, l: Later): Stopping {
    match p
    case Asked => if l.CloseCompletes? then Completed else if Reports(l) then Over else Asked
    case Completed => if Reports(l) then Undone else Completed
    case _ => p
  }

  function StoppingAt(later: seq<Later>, k: nat): Stopping
    requires k <= |later|
  {
    if k == 0 then Asked else StoppingAfter(StoppingAt(later, k - 1), later[k - 1])
  }

  // No attempt was started and no backoff announced since s, none is scheduled or outstanding, and where w stands.
  ghost predicate StandsStill(s: State, w: World, p: Stopping) {
    && w.rc.started == s.started && w.rc.backoffs == s.backoffs && w.rc.attempt == s.attempt
    && !w.rc.scheduled && w.rc.outstanding == 0
    && w.rc.cs == (if p == Asked then Closing else Disconnected)
    && w.open == (p != Over) && (p != Over ==> w.rc.closeRequests == (if p == Asked then 1 else 0))
  }

  ghost predicate StopInv(s: State, w: World, p: Stopping) {
    if p == Undone then |w.rc.backoffs| > |s.backoffs| else StandsStill(s, w, p)
  }

  lemma ScheduleAddsBackoffs(c: Config, s: State, sync: seq<bool>)
    requires c.hasPostAfter && !c.syncTimers
    ensures |ScheduleReconnect(c, s, sync).backoffs| >= |s.backoffs|
  {}

  lemma BackoffsStay(c: Config, s: State, e: Event)
    requires c.hasConnect && c.hasPostAfter && !c.syncTimers && !e.StartCalled?
    requires Enabled(World(s, e.ConnectionClosed?), e)
    ensures |StepController(c, s, e).backoffs| >= |s.backoffs|
  {
    match e
    case AttemptDone(_, sync) =>
      ScheduleAddsBackoffs(c, s.(outstanding := s.outstanding - 1, cs := Disconnected, failed := s.failed + 1), sync);
    case ConnectionClosed(why, sync) =>
      var told := s.signals + [OnClosed(why), OnOffline];
      ScheduleAddsBackoffs(c, s.(lastReason := Reason(why), signals := told, cs := Disconnected), sync);
    case BackoffFires(sync) => TryAddsBackoffs(c, s.(backoffTimers := s.backoffTimers - 1, scheduled := false), sync);
    case _ =>
  }

  lemma TryAddsBackoffs(c: Config, s: State, sync: seq<bool>)
    requires c.hasConnect && c.hasPostAfter && !c.syncTimers
    ensures |TryReconnect(c, s, sync).backoffs| >= |s.backoffs|
  {
    if s.cs == Disconnected && sync != [] {
      var t := s.(cs := Connecting, started := s.started + 1, signals := s.signals + [OnConnecting]);
      assert TryReconnect(c, s, sync) == Completion(c, t, sync[0], sync[1..]);
      ScheduleAddsBackoffs(c, t.(cs := Disconnected, failed := t.failed + 1), sync[1..]);
    }
  }

  lemma StopFollows(c: Config, s: State, w: World, p: Stopping, l: Later)
    requires c.hasConnect && c.hasPostAfter && !c.syncTimers
    requires StopInv(s, w, p) && CanFollow(w, l)
    ensures StopInv(s, Follow(c, w, l), StoppingAfter(p, l))
  {
    if p == Undone && l.Ordinary? {
      BackoffsStay(c, w.rc, l.e);
    }
  }

  lemma {:induction false} StoppedInv(c: Config, w: World, worlds: seq<World>, later: seq<Later>, k: nat)
    requires c.hasConnect && c.hasClose && c.hasPostAfter && !c.syncTimers
    requires Inv(c, w) && w.open && w.rc.closeRequests == 0
    requires IsStopped(c, w, worlds, later) && k <= |later|
    ensures StopInv(w.rc, worlds[k], StoppingAt(later, k))
  {
    if k > 0 {
      var i := k - 1;
      StoppedInv(c, w, worlds, later, i);
      StoppedFollows(c, w, worlds, later, i);
      StopFollows(c, w.rc, worlds[i], StoppingAt(later, i), later[i]);
    }
  }

  // The close that stop() asked for completed before any close was reported.
  predicate CompletesFirst(later: seq<Later>, i: nat) {
    i < |later| && later[i].CloseCompletes? && forall m | 0 <= m < i :: !Reports(later[m])
  }

  ghost predicate ReportedLate(later: seq<Later>, k: nat)
    requires k <= |later|
  {
    exists i: nat, j: nat :: i < j < k && CompletesFirst(later, i) && Reports(later[j])
  }

  // The close was reported before the close that stop() asked for completed.
  predicate ReportsFirst(later: seq<Later>, j: nat) {
    j < |later| && Reports(later[j]) && forall m | 0 <= m < j :: !later[m].CloseCompletes?
  }

  // What each stage says of what has happened
  ghost predicate StageFits(later: seq<Later>, k: nat)
    requires k <= |later|
  {
    match StoppingAt(later, k)
    case Asked => forall m | 0 <= m < k :: !later[m].CloseCompletes? && !Reports(later[m])
    case Completed =>
      (forall m | 0 <= m < k :: !Reports(later[m])) && exists i: nat :: i < k && CompletesFirst(later, i)
    case Over => exists j: nat :: j < k && ReportsFirst(later, j)
    case Undone => ReportedLate(later, k)
  }

  lemma {:induction false} StageAlwaysFits(later: seq<Later>, k: nat)
    requires k <= |later|
    ensures StageFits(later, k)
  {
    if k > 0 {
      var m := k - 1;
      StageAlwaysFits(later, m);
      match StoppingAt(later, m)
      case Asked =>
        assert later[m].CloseCompletes? ==> CompletesFirst(later, m);
        assert Reports(later[m]) ==> ReportsFirst(later, m);
      case Completed =>
        var i: nat :| i < m && CompletesFirst(later, i);
        assert i < k;
      case Over =>
        var j: nat :| j < m && ReportsFirst(later, j);
        assert j < k;
      case Undone =>
        var i: nat, j: nat :| i < j < m && CompletesFirst(later, i) && Reports(later[j]);
        assert j < k;
    }
  }

  lemma UndoneExactlyWhen(later: seq<Later>, k: nat)
    requires k <= |later|
    ensures StoppingAt(later, k) == Undone <==> ReportedLate(later, k)
  {
    StageAlwaysFits(later, k);
  }

  /**
   stop() on an open connection, whatever follows but another start() or stop(): it keeps the controller from
   reconnecting exactly unless the close it asked for completes before the transport reports the connection closed. Then
   that report finds the controller Disconnected and no longer Closing, and a backoff is announced; otherwise no attempt
   is ever started again.
   */
  lemma StopEndsExactlyWhen(c: Config, worlds: seq<World>, events: seq<Event>, n: nat,
                            after: seq<World>, later: seq<Later>, k: nat)
    requires IsRun(c, worlds, events) && n < |worlds| && worlds[n].open && c.hasClose
    requires IsStopped(c, worlds[n], after, later) && k <= |later|
    ensures |after[k].rc.backoffs| > |worlds[n].rc.backoffs| <==> ReportedLate(later, k)
    ensures !ReportedLate(later, k) ==>
              after[k].rc.started == worlds[n].rc.started && !after[k].rc.scheduled && after[k].rc.outstanding == 0
  {
    NeverSticksNorDoubles(c, worlds, events, n);
    NeverAsksToClose(c, worlds, events, n);
    StoppedInv(c, worlds[n], after, later, k);
    UndoneExactlyWhen(later, k);
  }

  // ------------------------------------------------------------------------------------------
  // Timers that run their callback before post_after returns.
  // ------------------------------------------------------------------------------------------

  function FailuresThenSuccess(k: nat): (sync: seq<bool>)
    ensures |sync| == k + 1
  {
    if k == 0 then [true] else [false] + FailuresThenSuccess(k - 1)
  }

  function DelaysFrom(c: Config, first: nat, k: nat): (ds: seq<int>)
    ensures |ds| == k && forall i | 0 <= i < k :: ds[i] == Delay(c, first + i)
  {
    seq(k, i requires 0 <= i < k => Delay(c, first + i))
  }

  /**
   The mutual recursion of try_reconnect_ and schedule_reconnect_ unwinds correctly: after k immediate
   failures and a success the controller is Connected, having announced k backoffs at consecutive
   indices, started k + 1 attempts and failed k, with nothing left scheduled or outstanding.
   */
  lemma {:induction false} SynchronousRetriesEndConnected(c: Config, s: State, k: nat)
    requires c.hasConnect && c.hasPostAfter && c.syncTimers
    requires s.cs == Disconnected && !s.scheduled
    ensures var t := TryReconnect(c, s, FailuresThenSuccess(k));
            && t.cs == Connected && !t.scheduled
            && t.attempt == s.attempt + k && t.backoffs == s.backoffs + DelaysFrom(c, s.attempt, k)
            && t.started == s.started + k + 1 && t.failed == s.failed + k && t.succeeded == s.succeeded + 1
            && t.outstanding == s.outstanding && t.backoffTimers == s.backoffTimers
    decreases k
  {
    var sync := FailuresThenSuccess(k);
    var t := s.(cs := Connecting, started := s.started + 1, signals := s.signals + [OnConnecting]);
    assert TryReconnect(c, s, sync) == Completion(c, t, sync[0], sync[1..]);
    if k > 0 {
      assert sync[1..] == FailuresThenSuccess(k - 1);
      var u := t.(cs := Disconnected, failed := t.failed + 1);
      var v := u.(scheduled := true, attempt := u.attempt + 1, backoffs := u.backoffs + [Delay(c, u.attempt)]);
      assert Completion(c, t, false, sync[1..]) == ScheduleReconnect(c, u, sync[1..]);
      assert ScheduleReconnect(c, u, sync[1..]) == BackoffTimer(c, v, sync[1..]);
      assert BackoffTimer(c, v, sync[1..]) == TryReconnect(c, v.(scheduled := false), sync[1..]);
      SynchronousRetriesEndConnected(c, v.(scheduled := false), k - 1);
      assert DelaysFrom(c, s.attempt, k) == [Delay(c, s.attempt)] + DelaysFrom(c, s.attempt + 1, k - 1);
    }
  }
}
