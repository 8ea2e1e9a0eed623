/**
 A session whose handlers run one after the other, as on a single-threaded io_context: each handler of the
 Session class is one event, made of the steps of module Session.
 */
module SessionHandlers {
  import opened Json
  import opened OcppModel
  import opened Session
  import opened SessionRuns

  datatype Handler =
    | Sends(id: Id, request: Request, resolve: Callback)  // the application, or one of its callbacks, calls send_call
    | Connects(id: Id)                                    // on_transport_connected, which sends a boot call
    | SendsBoot(id: Id)                                   // send_boot on its own
    | FrameArrives(f: Frame)
    | TimerRunsOut(id: Id)
    | TimeoutRuns(id: Id)
    | Closes(order: seq<Id>)
    | BeginsHeartBeat(interval: Int32)
    | BeatRunsOut(token: nat)
    | BeatRuns(token: nat, id: Id)

  ghost predicate CanHandle(s: State, h: Handler) {
    match h
    case Sends(id, request, resolve) =>
      id !in s.log.calls && resolve != BootCallback && (resolve == HeartBeatCallback ==> request == HeartBeat)
    case Connects(id) => id !in s.log.calls
    case SendsBoot(id) => id !in s.log.calls
    case FrameArrives(_) => true
    case TimerRunsOut(id) => id in s.timers && s.timers[id] == Armed
    case TimeoutRuns(id) => id in s.timers && s.timers[id] == Expired
    case Closes(order) => IsOrder(order, s.pending.Keys)
    case BeginsHeartBeat(_) => true
    case BeatRunsOut(token) => token in s.beats.armed
    case BeatRuns(token, id) => token in s.beats.queued && (s.phase == Ready ==> id !in s.log.calls)
  }

  ghost function Handle(s: State, h: Handler): State
    requires CanHandle(s, h)
  {
    match h
    case Sends(id, request, resolve) => SendCall(s, id, request, resolve)
    case Connects(id) => OnTransportConnected(s, id)
    case SendsBoot(id) => SendCall(s, id, BOOT, BootCallback)
    case FrameArrives(f) => OnFrame(s, f)
    case TimerRunsOut(id) => s.(timers := s.timers[id := Expired])
    case TimeoutRuns(id) => TimeoutHandler(s, id)
    case Closes(order) => OnClose(s, order)
    case BeginsHeartBeat(interval) => s.(beats := StartHeartBeat(s.beats, interval))
    case BeatRunsOut(token) => s.(beats := HeartBeatExpire(s.beats, token))
    case BeatRuns(token, id) => HeartBeatHandler(s, token, id)
  }

  ghost predicate Handles(s: State, h: Handler, s': State) {
    CanHandle(s, h) && s' == Handle(s, h)
  }

  ghost predicate IsHistory(states: seq<State>, hs: seq<Handler>) {
    && |states| == |hs| + 1
    && states[0] == INITIAL
    && forall i {:trigger hs[i]} | 0 <= i < |hs| :: Handles(states[i], hs[i], states[i + 1])
  }

  lemma HistoryHandles(states: seq<State>, hs: seq<Handler>, i: nat)
    requires IsHistory(states, hs) && i < |hs|
    ensures Handles(states[i], hs[i], states[i + 1])
  {}

  // ------------------------------------------------------------------------------------------
  // Handlers are made of steps, so what holds in every interleaving holds here, and nothing is left half done.
  // ------------------------------------------------------------------------------------------

  // No line unsent, no timeout handler under way, no claimed callback still to run
  ghost predicate Quiet(s: State) {
    s.work.unsent == map[] && s.work.counted == {} && s.work.open == {} && s.closes.running == {}
  }

  lemma SendKeepsInv(s: State, id: Id, request: Request, resolve: Callback)
    requires Inv(s) && Quiet(s) && Enabled(s, DoRegister(id, request, resolve))
    ensures Inv(SendCall(s, id, request, resolve)) && Quiet(SendCall(s, id, request, resolve))
  {
    StepKeepsInv(s, DoRegister(id, request, resolve));
    assert Register(s, id, request, resolve).work.unsent.Keys == {id};
    TransmitKeepsInv(Register(s, id, request, resolve), id);
  }

  lemma InvokeKeepsInv(s: State, i: nat)
    requires Inv(s) && i in s.work.open && i < |s.log.claims|
    ensures Inv(Invoke(s, i))
  {
    StepKeepsInv(s, DoInvoke(i));
  }

  // Only claims from first on have callbacks still to run.
  ghost predicate ToInvoke(s: State, first: nat) {
    && first <= |s.log.claims|
    && s.work.unsent == map[] && s.work.counted == {} && s.closes.running == {}
    && s.work.open == Span(first, |s.log.claims|)
  }

  // A property of a session with callbacks to run from some claim on, kept by running the first of them
  ghost predicate KeptByEach(p: (State, nat) -> bool) {
    forall s: State, i: nat | p(s, i) :: i <= |s.log.claims| && (i < |s.log.claims| ==> p(Invoke(s, i), i + 1))
  }

  // What each callback keeps, all of them keep.
  lemma {:induction false} InvokeNewKeeps(p: (State, nat) -> bool, s: State, first: nat)
    requires KeptByEach(p) && p(s, first)
    ensures first <= |s.log.claims| && p(InvokeNew(s, first), |s.log.claims|)
    decreases |s.log.claims| - first
  {
    if first < |s.log.claims| {
      InvokeNewKeeps(p, Invoke(s, first), first + 1);
    }
  }

  ghost predicate SoundFrom(s: State, first: nat) {
    Inv(s) && ToInvoke(s, first)
  }

  lemma InvokeFirst(s: State, first: nat)
    requires SoundFrom(s, first) && first < |s.log.claims|
    ensures SoundFrom(Invoke(s, first), first + 1)
  {
    InvokeLeaves(s, first);
    InvokeKeepsInv(s, first);
  }

  lemma SoundIsKept()
    ensures KeptByEach(SoundFrom)
  {
    forall s: State, i: nat | SoundFrom(s, i)
      ensures i <= |s.log.claims| && (i < |s.log.claims| ==> SoundFrom(Invoke(s, i), i + 1))
    {
      if i < |s.log.claims| {
        InvokeFirst(s, i);
      }
    }
  }

  lemma InvokeNewKeepsInv(s: State, first: nat)
    requires SoundFrom(s, first)
    ensures SoundFrom(InvokeNew(s, first), |s.log.claims|) && |InvokeNew(s, first).log.claims| == |s.log.claims|
  {
    SoundIsKept();
    InvokeNewKeeps(SoundFrom, s, first);
    InvokeNewKeepsClaims(s, first);
  }

  lemma {:induction false} InvokeNewKeepsClaims(s: State, first: nat)
    requires first <= |s.log.claims|
    ensures InvokeNew(s, first).log.claims == s.log.claims
    decreases |s.log.claims| - first
  {
    if first < |s.log.claims| {
      InvokeNewKeepsClaims(Invoke(s, first), first + 1);
    }
  }

  lemma InvokeLeaves(s: State, first: nat)
    requires ToInvoke(s, first) && first < |s.log.claims|
    ensures ToInvoke(Invoke(s, first), first + 1) && |Invoke(s, first).log.claims| == |s.log.claims|
  {
    assert Span(first, |s.log.claims|) == {first} + Span(first + 1, |s.log.claims|);
  }

  lemma FrameClaims(s: State, f: Frame)
    requires Inv(s)
    ensures Inv(Reply(s, f))
  {
    StepKeepsInv(s, DoReply(f));
  }

  lemma FrameLeaves(s: State, f: Frame)
    requires Quiet(s)
    ensures ToInvoke(Reply(s, f), |s.log.claims|)
  {}

  lemma FrameKeepsInv(s: State, f: Frame)
    requires Inv(s) && Quiet(s)
    ensures Inv(OnFrame(s, f)) && Quiet(OnFrame(s, f))
  {
    FrameClaims(s, f);
    FrameLeaves(s, f);
    InvokeNewKeepsInv(Reply(s, f), |s.log.claims|);
  }

  lemma TimeoutStarts(s: State, id: Id)
    requires Inv(s) && Quiet(s) && id in s.timers && s.timers[id] == Expired
    ensures Inv(TimeoutCount(s, id))
  {
    StepKeepsInv(s, DoTimeoutCount(id));
  }

  lemma TimeoutClaims(s: State, id: Id)
    requires Inv(s) && id in s.work.counted
    ensures Inv(TimeoutClaim(s, id))
  {
    StepKeepsInv(s, DoTimeoutClaim(id));
  }

  lemma TimeoutKeepsInv(s: State, id: Id)
    requires Inv(s) && Quiet(s) && id in s.timers && s.timers[id] == Expired
    ensures Inv(TimeoutHandler(s, id)) && Quiet(TimeoutHandler(s, id))
  {
    var t := TimeoutCount(s, id);
    TimeoutStarts(s, id);
    TimeoutClaims(t, id);
    TimeoutLeaves(s, id);
    InvokeNewKeepsInv(TimeoutClaim(t, id), |s.log.claims|);
  }

  lemma TimeoutLeaves(s: State, id: Id)
    requires Quiet(s)
    ensures ToInvoke(TimeoutClaim(TimeoutCount(s, id), id), |s.log.claims|)
  {}

  lemma CloseLeaves(s: State, order: seq<Id>)
    requires Quiet(s) && IsOrder(order, s.pending.Keys)
    ensures ToInvoke(CloseNow(s, order), |s.log.claims|)
  {
    assert CloseNow(s, order).closes.running == {};
  }

  lemma CloseBegins(s: State)
    requires Inv(s)
    ensures Inv(BeginClose(s))
  {
    StepKeepsInv(s, DoCloseBegin);
  }

  lemma CloseEnds(s: State, token: nat, order: seq<Id>)
    requires Inv(s) && token in s.closes.running && IsOrder(order, s.pending.Keys)
    ensures Inv(CloseAll(EndClose(s, token), order))
  {
    StepKeepsInv(s, DoClose(token, order));
  }

  lemma CloseTakes(s: State, order: seq<Id>)
    requires Inv(s) && IsOrder(order, s.pending.Keys)
    ensures Inv(CloseNow(s, order))
  {
    CloseBegins(s);
    CloseEnds(BeginClose(s), s.closes.begun, order);
  }

  lemma CloseKeepsInv(s: State, order: seq<Id>)
    requires Inv(s) && Quiet(s) && IsOrder(order, s.pending.Keys)
    ensures Inv(OnClose(s, order)) && Quiet(OnClose(s, order))
  {
    CloseTakes(s, order);
    CloseLeaves(s, order);
    InvokeNewKeepsInv(CloseNow(s, order), |s.log.claims|);
  }

  lemma TransmitKeepsInv(s: State, id: Id)
    requires Inv(s) && s.work.unsent.Keys == {id} && s.work.counted == {} && s.work.open == {} && s.closes.running == {}
    ensures Inv(Transmit(s, id)) && Quiet(Transmit(s, id))
  {
    StepKeepsInv(s, DoTransmit(id));
    assert s.work.unsent - {id} == map[];
  }

  lemma BeatFires(s: State, token: nat, id: Id)
    requires token in s.beats.queued && (s.phase == Ready ==> id !in s.log.calls)
    requires Inv(s)
    ensures Inv(HeartBeatFire(s, token, id))
  {
    StepKeepsInv(s, DoHeartBeatFire(token, id));
  }

  lemma BeatKeepsInv(s: State, token: nat, id: Id)
    requires token in s.beats.queued && (s.phase == Ready ==> id !in s.log.calls)
    requires Inv(s) && Quiet(s)
    ensures Inv(HeartBeatHandler(s, token, id)) && Quiet(HeartBeatHandler(s, token, id))
  {
    BeatFires(s, token, id);
    if s.phase == Ready {
      assert HeartBeatFire(s, token, id).work.unsent.Keys == {id};
      TransmitKeepsInv(HeartBeatFire(s, token, id), id);
    }
  }

  lemma ConnectKeepsInv(s: State, id: Id)
    requires Inv(s) && Quiet(s) && id !in s.log.calls
    ensures Inv(OnTransportConnected(s, id)) && Quiet(OnTransportConnected(s, id))
  {
    StepKeepsInv(s, DoConnected);
    SendKeepsInv(s.(phase := Booting), id, BOOT, BootCallback);
  }

  lemma HandlerKeepsInv(s: State, h: Handler)
    requires Inv(s) && Quiet(s) && CanHandle(s, h)
    ensures Inv(Handle(s, h)) && Quiet(Handle(s, h))
  {
    match h
    case Sends(id, request, resolve) => SendKeepsInv(s, id, request, resolve);
    case Connects(id) => ConnectKeepsInv(s, id);
    case SendsBoot(id) => SendKeepsInv(s, id, BOOT, BootCallback);
    case FrameArrives(f) => FrameKeepsInv(s, f);
    case TimerRunsOut(id) => StepKeepsInv(s, DoExpire(id));
    case TimeoutRuns(id) => TimeoutKeepsInv(s, id);
    case Closes(order) => CloseKeepsInv(s, order);
    case BeginsHeartBeat(interval) => StepKeepsInv(s, DoStartHeartBeat(interval));
    case BeatRunsOut(token) => StepKeepsInv(s, DoHeartBeatExpire(token));
    case BeatRuns(token, id) => BeatKeepsInv(s, token, id);
  }

  lemma HandlesKeepsInv(s: State, h: Handler, s': State)
    requires Inv(s) && Quiet(s) && Handles(s, h, s')
    ensures Inv(s') && Quiet(s')
  {
    HandlerKeepsInv(s, h);
  }

  lemma NewSessionIsSound(s: State, id: Id)
    requires s == INITIAL
    ensures Inv(s) && Quiet(s) && id !in s.log.calls
  {
    InitialInv();
  }

  lemma NewSessionConnects(s: State, id: Id)
    requires s == INITIAL
    ensures Inv(OnTransportConnected(s, id))
  {
    NewSessionIsSound(s, id);
    ConnectKeepsInv(s, id);
  }

  lemma {:induction false} HistoryKeepsInv(states: seq<State>, hs: seq<Handler>, n: nat)
    requires IsHistory(states, hs) && n < |states|
    ensures Inv(states[n]) && Quiet(states[n])
  {
    if n == 0 {
      InitialInv();
    } else {
      var i := n - 1;
      HistoryKeepsInv(states, hs, i);
      HistoryHandles(states, hs, i);
      HandlesKeepsInv(states[i], hs[i], states[i + 1]);
    }
  }

  /** Between handlers the accounts balance with nothing under way. */
  lemma AccountsBetweenHandlers(states: seq<State>, hs: seq<Handler>, n: nat)
    requires IsHistory(states, hs) && n < |states|
    ensures var s := states[n];
            var reply, timeout := Count(s.log.claims, ByReply), Count(s.log.claims, ByTimeout);
            var close := Count(s.log.claims, ByClose);
            && |s.log.calls.Keys| == |s.pending.Keys| + reply + timeout + close
            && |s.log.calls.Keys| == |s.pending.Keys| + |s.work.ran|
            && s.tally.replies == reply + s.tally.unmatched
            && s.tally.timeouts == timeout + s.tally.late
            && s.tally.closedFailures == close
  {
    HistoryKeepsInv(states, hs, n);
    InvAccounts(states[n]);
    RanCount(states[n]);
  }

  function Elements(ran: seq<nat>): set<nat> {
    set i | i in ran
  }

  // As many callbacks have run as claims were made.
  lemma RanCount(s: State)
    requires CallbackInv(s) && s.work.open == {}
    ensures |s.work.ran| == |s.log.claims|
  {
    DistinctSize(s.work.ran);
    forall i
      ensures i in Elements(s.work.ran) <==> 0 <= i < |s.log.claims|
    {
      assert i !in s.work.open;
    }
    assert Elements(s.work.ran) == Span(0, |s.log.claims|);
  }

  lemma {:induction false} DistinctSize(ran: seq<nat>)
    requires forall k, l | 0 <= k < l < |ran| :: ran[k] != ran[l]
    ensures |Elements(ran)| == |ran|
  {
    if ran == [] {
      assert Elements(ran) == {};
    } else {
      var k := |ran| - 1;
      DistinctSize(ran[..k]);
      assert ran == ran[..k] + [ran[k]];
      assert Elements(ran) == Elements(ran[..k]) + {ran[k]};
    }
  }
}
