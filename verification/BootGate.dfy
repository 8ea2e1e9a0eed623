/**
 The boot gate: when a session is Ready, and what may then be sent.
 */
module BootGate {
  import opened OcppModel
  import opened Session
  import opened SessionRuns
  import opened SessionHandlers

  // Running callbacks changes neither the tables nor the log, and the phase only by a boot acceptance.
  lemma {:induction false} InvokeNewFrame(s: State, first: nat)
    requires first <= |s.log.claims|
    ensures var t := InvokeNew(s, first);
            && t.pending == s.pending && t.timers == s.timers && t.beats == s.beats && t.log == s.log
            && ((forall i | first <= i < |s.log.claims| ::
                   !(s.log.claims[i].resolve == BootCallback && IsBootAcceptance(s.log.claims[i].frame)))
                ==> t.phase == s.phase && t.interval == s.interval)
    decreases |s.log.claims| - first
  {
    if first < |s.log.claims| {
      InvokeNewFrame(Invoke(s, first), first + 1);
    }
  }

  // h delivers an Accepted reply to a boot call that is still pending.
  predicate Accepts(s: State, h: Handler) {
    && h.FrameArrives? && IsBootAcceptance(h.f)
    && h.f.messageId in s.pending && s.pending[h.f.messageId].resolve == BootCallback
  }

  function PhaseAfter(s: State, h: Handler): Phase {
    if h.Closes? then Disconnected
    else if h.Connects? then Booting
    else if Accepts(s, h) then Ready
    else s.phase
  }

  lemma FramePhase(s: State, f: Frame)
    requires FrameInv(s)
    ensures OnFrame(s, f).phase == PhaseAfter(s, FrameArrives(f))
    ensures forall id | id in OnFrame(s, f).pending :: id in s.pending && OnFrame(s, f).pending[id] == s.pending[id]
  {
    var t := Reply(s, f);
    InvokeNewFrame(t, |s.log.claims|);
    if !f.Call? && f.messageId in s.pending {
      UnfoldOnce(t, |s.log.claims|);
      if s.pending[f.messageId].resolve == BootCallback {
        assert s.pending[f.messageId].kind == BootKind;
        assert IsBootAcceptance(Judge(BootKind, f)) <==> IsBootAcceptance(f);
      }
    }
  }

  lemma ClosePhase(s: State, order: seq<Id>)
    requires IsOrder(order, s.pending.Keys)
    ensures OnClose(s, order).phase == Disconnected && OnClose(s, order).pending == map[]
  {
    InvokeNewFrame(CloseNow(s, order), |s.log.claims|);
  }

  lemma TimeoutPhase(s: State, id: Id)
    ensures TimeoutHandler(s, id).phase == s.phase
    ensures TimeoutHandler(s, id).pending == s.pending - {id}
  {
    var t := TimeoutClaim(TimeoutCount(s, id), id);
    InvokeNewFrame(t, |s.log.claims|);
    assert id !in s.pending ==> s.pending - {id} == s.pending;
  }

  predicate SendsBootCall(h: Handler, id: Id) {
    (h.Connects? || h.SendsBoot?) && h.id == id
  }

  predicate BootPending(s: State, id: Id) {
    id in s.pending && s.pending[id].resolve == BootCallback
  }

  lemma HandlerPhase(s: State, h: Handler)
    requires FrameInv(s) && CanHandle(s, h)
    ensures Handle(s, h).phase == PhaseAfter(s, h)
    ensures forall id | BootPending(Handle(s, h), id) :: SendsBootCall(h, id) || (BootPending(s, id) && !h.Closes?)
  {
    match h
    case FrameArrives(f) => FramePhase(s, f);
    case TimeoutRuns(id) => TimeoutPhase(s, id);
    case Closes(order) => ClosePhase(s, order);
    case _ =>
  }

  lemma HandledPhase(s: State, h: Handler, s': State)
    requires FrameInv(s) && Handles(s, h, s')
    ensures s'.phase == PhaseAfter(s, h)
    ensures forall id | BootPending(s', id) :: SendsBootCall(h, id) || (BootPending(s, id) && !h.Closes?)
  {
    HandlerPhase(s, h);
  }

  // ------------------------------------------------------------------------------------------
  // The gate over whole histories.
  // ------------------------------------------------------------------------------------------

  predicate NoClose(hs: seq<Handler>, i: int, n: nat)
    requires 0 <= i <= n <= |hs|
  {
    forall k | i < k < n :: !hs[k].Closes?
  }

  predicate NoConnect(hs: seq<Handler>, j: int, n: nat)
    requires 0 <= j <= n <= |hs|
  {
    forall k | j < k < n :: !hs[k].Connects?
  }

  // Handler i sent a boot call, handler j brought its acceptance while it was pending, there was no close since i
  // and no on_transport_connected since j.
  ghost predicate Opens(states: seq<State>, hs: seq<Handler>, n: nat, i: nat, j: nat)
    requires |states| == |hs| + 1 && n <= |hs|
  {
    && i < j < n
    && Accepts(states[j], hs[j]) && SendsBootCall(hs[i], hs[j].f.messageId)
    && NoClose(hs, i, n) && NoConnect(hs, j, n)
  }

  ghost predicate GateOpen(states: seq<State>, hs: seq<Handler>, n: nat)
    requires |states| == |hs| + 1 && n <= |hs|
  {
    exists i: nat, j: nat :: Opens(states, hs, n, i, j)
  }

  ghost predicate RecentBoot(hs: seq<Handler>, id: Id, n: nat)
    requires n <= |hs|
  {
    exists i: nat :: i < n && SendsBootCall(hs[i], id) && NoClose(hs, i, n)
  }

  // Every pending boot call was sent since the last close.
  ghost predicate BootsAreRecent(states: seq<State>, hs: seq<Handler>, n: nat)
    requires |states| == |hs| + 1 && n <= |hs|
  {
    forall id: Id :: BootPending(states[n], id) ==> RecentBoot(hs, id, n)
  }

  lemma RecentBootStays(hs: seq<Handler>, id: Id, m: nat)
    requires m < |hs|
    requires SendsBootCall(hs[m], id) || (RecentBoot(hs, id, m) && !hs[m].Closes?)
    ensures RecentBoot(hs, id, m + 1)
  {
    if SendsBootCall(hs[m], id) {
      assert NoClose(hs, m, m + 1);
    } else {
      var i: nat :| i < m && SendsBootCall(hs[i], id) && NoClose(hs, i, m);
      assert NoClose(hs, i, m + 1);
    }
  }

  lemma BootsStayRecent(states: seq<State>, hs: seq<Handler>, m: nat)
    requires IsHistory(states, hs) && m < |hs| && FrameInv(states[m])
    requires BootsAreRecent(states, hs, m)
    ensures BootsAreRecent(states, hs, m + 1)
  {
    HistoryHandles(states, hs, m);
    HandledPhase(states[m], hs[m], states[m + 1]);
    forall id: Id {:trigger RecentBoot(hs, id, m + 1)} | BootPending(states[m + 1], id)
      ensures RecentBoot(hs, id, m + 1)
    {
      RecentBootStays(hs, id, m);
    }
  }

  lemma GateMoves(states: seq<State>, hs: seq<Handler>, m: nat)
    requires |states| == |hs| + 1 && m < |hs| && BootsAreRecent(states, hs, m)
    ensures GateOpen(states, hs, m + 1)
       <==> !hs[m].Closes? && !hs[m].Connects? && (Accepts(states[m], hs[m]) || GateOpen(states, hs, m))
  {
    if GateOpen(states, hs, m + 1) {
      var i: nat, j: nat :| Opens(states, hs, m + 1, i, j);
      if j < m {
        assert Opens(states, hs, m, i, j);
      }
    }
    if !hs[m].Closes? && !hs[m].Connects? {
      if Accepts(states[m], hs[m]) {
        var id := hs[m].f.messageId;
        assert BootPending(states[m], id) && RecentBoot(hs, id, m);
        var i: nat :| i < m && SendsBootCall(hs[i], id) && NoClose(hs, i, m);
        assert Opens(states, hs, m + 1, i, m);
      } else if GateOpen(states, hs, m) {
        var i: nat, j: nat :| Opens(states, hs, m, i, j);
        assert Opens(states, hs, m + 1, i, j);
      }
    }
  }

  /**
   The boot gate, over every history of handlers: the session is Ready exactly when a boot call sent since the last
   close has been accepted, and no on_transport_connected came after the acceptance. So a boot call sent before a
   close can never make the session Ready after it.
   */
  lemma {:induction false} ReadyExactlyWhenBooted(states: seq<State>, hs: seq<Handler>, n: nat)
    requires IsHistory(states, hs) && n <= |hs|
    ensures BootsAreRecent(states, hs, n)
    ensures states[n].phase == Ready <==> GateOpen(states, hs, n)
  {
    if n > 0 {
      var m := n - 1;
      ReadyExactlyWhenBooted(states, hs, m);
      HistoryKeepsInv(states, hs, m);
      BootsStayRecent(states, hs, m);
      GateMoves(states, hs, m);
      HistoryHandles(states, hs, m);
      HandledPhase(states[m], hs[m], states[m + 1]);
    }
  }

  /**
   A heartbeat timer sends its HeartBeat exactly when the gate is open; then it arms the next timer, and no other, with
   its own interval. Otherwise it does not rearm.
   */
  lemma HeartBeatsOnlyWhenBooted(states: seq<State>, hs: seq<Handler>, n: nat)
    requires IsHistory(states, hs) && n < |hs| && hs[n].BeatRuns?
    ensures hs[n].token in states[n].beats.queued
    ensures states[n + 1].log.lines == states[n].log.lines
              + (if GateOpen(states, hs, n) then [CreateCall(hs[n].id, HeartBeat)] else [])
    ensures var b, b' := states[n].beats, states[n + 1].beats;
            if GateOpen(states, hs, n) then
              b'.armed == map[b.next := b.queued[hs[n].token]] && b'.owner == Owns(b.next)
            else b'.armed == b.armed && b'.owner == b.owner
  {
    ReadyExactlyWhenBooted(states, hs, n);
    HistoryHandles(states, hs, n);
    HistoryKeepsInv(states, hs, n);
    BeatRearms(states[n], hs[n].token, hs[n].id);
  }

  lemma BeatRearms(s: State, token: nat, id: Id)
    requires token in s.beats.queued && BeatInv(s.beats)
    ensures var b, b' := s.beats, HeartBeatHandler(s, token, id).beats;
            if s.phase == Ready then b'.armed == map[b.next := b.queued[token]] && b'.owner == Owns(b.next)
            else b'.armed == b.armed && b'.owner == b.owner
  {
    assert (if s.beats.owner.Owns? then s.beats.armed - {s.beats.owner.token} else s.beats.armed) == map[];
  }
}
