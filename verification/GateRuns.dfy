/**
 The boot gate where threads interleave. on_close writes the state before it takes the lock, so a whole reply may be
 handled in between; and a close may come between the step that takes the boot call's callback out of the pending table
 and the step that runs it.
 */
module GateRuns {
  import opened OcppModel
  import opened Session
  import opened SessionRuns
  import opened BootGate

  predicate AcceptsBoot(c: Claim) {
    c.resolve == BootCallback && IsBootAcceptance(c.frame)
  }

  // e runs a boot call's callback, and the reply is an acceptance.
  predicate RunsBoot(s: State, e: Event) {
    e.DoInvoke? && e.i < |s.log.claims| && AcceptsBoot(s.log.claims[e.i])
  }

  // No on_close wrote the state, and none ran its locked section, in between.
  predicate NoBeginIn(events: seq<Event>, i: nat, n: nat)
    requires n <= |events|
  {
    forall k | i < k < n :: !events[k].DoCloseBegin?
  }

  predicate NoCloseIn(events: seq<Event>, i: nat, n: nat)
    requires n <= |events|
  {
    forall k | i < k < n :: !events[k].DoClose?
  }

  predicate Undisturbed(events: seq<Event>, j: nat, n: nat)
    requires n <= |events|
  {
    forall k | j < k < n :: !events[k].DoCloseBegin? && !events[k].DoConnected?
  }

  lemma PhaseStep(s: State, e: Event)
    requires Enabled(s, e)
    ensures Step(s, e).phase == if e.DoCloseBegin? then Disconnected
                                else if e.DoConnected? then Booting
                                else if RunsBoot(s, e) then Ready
                                else s.phase
  {}

  // Step j ran a boot acceptance; no on_close has begun since, and there was no on_transport_connected.
  ghost predicate BootRanAt(states: seq<State>, events: seq<Event>, j: nat, n: nat)
    requires |states| == |events| + 1 && n <= |events|
  {
    j < n && RunsBoot(states[j], events[j]) && Undisturbed(events, j, n)
  }

  ghost predicate BootRan(states: seq<State>, events: seq<Event>, n: nat)
    requires |states| == |events| + 1 && n <= |events|
  {
    exists j: nat :: BootRanAt(states, events, j, n)
  }

  lemma BootRanMoves(states: seq<State>, events: seq<Event>, m: nat)
    requires |states| == |events| + 1 && m < |events|
    ensures BootRan(states, events, m + 1)
       <==> RunsBoot(states[m], events[m])
            || (BootRan(states, events, m) && !events[m].DoCloseBegin? && !events[m].DoConnected?)
  {
    if BootRan(states, events, m + 1) {
      var j: nat :| BootRanAt(states, events, j, m + 1);
      if j < m {
        assert BootRanAt(states, events, j, m);
      }
    }
    if RunsBoot(states[m], events[m]) {
      assert BootRanAt(states, events, m, m + 1);
    } else if BootRan(states, events, m) && !events[m].DoCloseBegin? && !events[m].DoConnected? {
      var j: nat :| BootRanAt(states, events, j, m);
      assert BootRanAt(states, events, j, m + 1);
    }
  }

  /**
   In every interleaving the session is Ready exactly when a boot acceptance has been run, with no on_close begun and no
   on_transport_connected since it was run.
   */
  lemma {:induction false} ReadyExactlyWhenBootRan(states: seq<State>, events: seq<Event>, n: nat)
    requires IsRun(states, events) && n <= |events|
    ensures states[n].phase == Ready <==> BootRan(states, events, n)
  {
    if n > 0 {
      var m := n - 1;
      ReadyExactlyWhenBootRan(states, events, m);
      RunMoves(states, events, m);
      PhaseStep(states[m], events[m]);
      BootRanMoves(states, events, m);
    }
  }

  // ------------------------------------------------------------------------------------------
  // Where the callback came from.
  // ------------------------------------------------------------------------------------------

  // e registers the boot call id.
  predicate RegistersBoot(e: Event, id: Id) {
    e.DoRegister? && e.id == id && e.resolve == BootCallback
  }

  ghost predicate RegisteredSinceClose(events: seq<Event>, id: Id, n: nat)
    requires n <= |events|
  {
    exists r: nat :: r < n && RegistersBoot(events[r], id) && NoCloseIn(events, r, n)
  }

  lemma PendingStep(s: State, e: Event, id: Id)
    requires Enabled(s, e) && BootPending(Step(s, e), id)
    ensures RegistersBoot(e, id) || (BootPending(s, id) && !e.DoClose?)
  {}

  lemma StaysRegistered(events: seq<Event>, id: Id, m: nat)
    requires m < |events|
    requires RegistersBoot(events[m], id) || (RegisteredSinceClose(events, id, m) && !events[m].DoClose?)
    ensures RegisteredSinceClose(events, id, m + 1)
  {
    if RegistersBoot(events[m], id) {
      assert NoCloseIn(events, m, m + 1);
    } else {
      var r: nat :| r < m && RegistersBoot(events[r], id) && NoCloseIn(events, r, m);
      assert NoCloseIn(events, r, m + 1);
    }
  }

  // A pending boot call was registered after the last locked section of an on_close.
  lemma {:induction false} PendingBootIsRecent(states: seq<State>, events: seq<Event>, n: nat, id: Id)
    requires IsRun(states, events) && n <= |events| && BootPending(states[n], id)
    ensures RegisteredSinceClose(events, id, n)
  {
    if n > 0 {
      var m := n - 1;
      RunMoves(states, events, m);
      PendingStep(states[m], events[m], id);
      if !RegistersBoot(events[m], id) {
        PendingBootIsRecent(states, events, m, id);
      }
      StaysRegistered(events, id, m);
    }
  }

  // Step r registered a boot call, and step k took its callback out of the table, as claim i, for a reply to it.
  ghost predicate ClaimedFrom(states: seq<State>, events: seq<Event>, r: nat, k: nat, i: nat)
    requires |states| == |events| + 1
  {
    && r < k < |events| && events[k].DoReply? && RegistersBoot(events[r], events[k].f.messageId)
    && BootPending(states[k], events[k].f.messageId) && |states[k].log.claims| == i
  }

  lemma NewAcceptance(s: State, e: Event, i: nat)
    requires Enabled(s, e) && i < |Step(s, e).log.claims| && AcceptsBoot(Step(s, e).log.claims[i])
    ensures i < |s.log.claims| ==> s.log.claims[i] == Step(s, e).log.claims[i]
    ensures i >= |s.log.claims| ==> i == |s.log.claims| && e.DoReply? && BootPending(s, e.f.messageId)
  {}

  // Every boot acceptance that was claimed has such a history.
  lemma {:induction false} AcceptanceHasHistory(states: seq<State>, events: seq<Event>, n: nat, i: nat)
    returns (r: nat, k: nat)
    requires IsRun(states, events) && n <= |events|
    requires i < |states[n].log.claims| && AcceptsBoot(states[n].log.claims[i])
    ensures k < n && ClaimedFrom(states, events, r, k, i)
  {
    if n > 0 {
      var m := n - 1;
      RunMoves(states, events, m);
      NewAcceptance(states[m], events[m], i);
      if i < |states[m].log.claims| {
        r, k := AcceptanceHasHistory(states, events, m, i);
      } else {
        k := m;
        PendingBootIsRecent(states, events, m, events[m].f.messageId);
        r :| r < m && RegistersBoot(events[r], events[m].f.messageId) && NoCloseIn(events, r, m);
      }
    }
  }

  // ------------------------------------------------------------------------------------------
  // The window of an on_close: from its state write to its locked section.
  // ------------------------------------------------------------------------------------------

  // The on_close that began at step b has not run its locked section before step x.
  ghost predicate InWindow(states: seq<State>, events: seq<Event>, b: nat, x: nat)
    requires |states| == |events| + 1 && x <= |events|
  {
    && b < x && events[b].DoCloseBegin?
    && forall k | b < k < x :: !(events[k].DoClose? && events[k].token == states[b].closes.begun)
  }

  lemma BegunGrows(s: State, e: Event)
    requires Enabled(s, e)
    ensures s.closes.begun <= Step(s, e).closes.begun
    ensures e.DoCloseBegin? ==> Step(s, e).closes.begun == s.closes.begun + 1
    ensures forall t | t < s.closes.begun ::
              t in Step(s, e).closes.running <==> t in s.closes.running && !(e.DoClose? && e.token == t)
    ensures e.DoCloseBegin? ==> s.closes.begun in Step(s, e).closes.running
  {}

  // The session counts that on_close as running exactly in its window.
  lemma {:induction false} WindowIsRunning(states: seq<State>, events: seq<Event>, b: nat, x: nat)
    requires IsRun(states, events) && b < x <= |events| && events[b].DoCloseBegin?
    ensures states[b].closes.begun < states[x].closes.begun
    ensures states[b].closes.begun in states[x].closes.running <==> InWindow(states, events, b, x)
    decreases x
  {
    var m := x - 1;
    RunMoves(states, events, m);
    BegunGrows(states[m], events[m]);
    if b < m {
      WindowIsRunning(states, events, b, m);
    }
  }

  // Some on_close that began after step r was in its window at some moment after step k and no later than step j.
  ghost predicate Overlaps(states: seq<State>, events: seq<Event>, r: nat, k: nat, j: nat)
    requires |states| == |events| + 1 && j <= |events|
  {
    exists b: nat, x: nat :: r < b && k < x <= j && InWindow(states, events, b, x)
  }

  // ------------------------------------------------------------------------------------------
  // The gate.
  // ------------------------------------------------------------------------------------------

  // Registered at r, claimed at k, run at j, and nothing has undone it by n
  ghost predicate Booted(states: seq<State>, events: seq<Event>, r: nat, k: nat, j: nat, n: nat)
    requires |states| == |events| + 1 && n <= |events|
  {
    k < j && BootRanAt(states, events, j, n) && ClaimedFrom(states, events, r, k, events[j].i)
  }

  // The boot call accepted was registered since the last on_close began.
  ghost predicate GateOpenIn(states: seq<State>, events: seq<Event>, n: nat)
    requires |states| == |events| + 1 && n <= |events|
  {
    exists r: nat, k: nat, j: nat :: Booted(states, events, r, k, j, n) && NoBeginIn(events, r, n)
  }

  // A call is registered once: whatever claimed it, no locked section of an on_close came in between.
  lemma NoCloseBeforeClaim(states: seq<State>, events: seq<Event>, r: nat, k: nat, i: nat)
    requires IsRun(states, events) && ClaimedFrom(states, events, r, k, i)
    ensures NoCloseIn(events, r, k)
  {
    var id := events[k].f.messageId;
    PendingBootIsRecent(states, events, k, id);
    var r': nat :| r' < k && RegistersBoot(events[r'], id) && NoCloseIn(events, r', k);
    RegisteredOnce(states, events, r, r', id);
  }

  lemma CallsStay(s: State, e: Event, id: Id)
    requires Enabled(s, e) && (id in s.log.calls || RegistersBoot(e, id))
    ensures id in Step(s, e).log.calls
  {}

  lemma {:induction false} StaysCalled(states: seq<State>, events: seq<Event>, r: nat, n: nat, id: Id)
    requires IsRun(states, events) && r < n <= |events| && RegistersBoot(events[r], id)
    ensures id in states[n].log.calls
    decreases n
  {
    var m := n - 1;
    RunMoves(states, events, m);
    if r < m {
      StaysCalled(states, events, r, m, id);
    }
    CallsStay(states[m], events[m], id);
  }

  lemma RegisteredOnce(states: seq<State>, events: seq<Event>, r: nat, r': nat, id: Id)
    requires IsRun(states, events) && r < |events| && r' < |events|
    requires RegistersBoot(events[r], id) && RegistersBoot(events[r'], id)
    ensures r == r'
  {
    RunMoves(states, events, r);
    RunMoves(states, events, r');
    if r < r' {
      StaysCalled(states, events, r, r', id);
    } else if r' < r {
      StaysCalled(states, events, r', r, id);
    }
  }

  // An on_close that began before the claim has not run its locked section by then, so its window reaches past it.
  lemma BeginOverlaps(states: seq<State>, events: seq<Event>, r: nat, k: nat, j: nat, b: nat)
    requires |states| == |events| + 1 && r < k < j <= |events| && r < b < j && events[b].DoCloseBegin?
    requires events[k].DoReply? && NoCloseIn(events, r, k)
    ensures Overlaps(states, events, r, k, j)
  {
    assert InWindow(states, events, b, if b < k then k + 1 else b + 1);
  }

  /**
   When the gate fails for a given boot call: exactly when an on_close begins between its registration and its callback;
   that is, exactly when the window of an on_close begun after the registration overlaps the time from the claim to the
   callback.
   */
  lemma GateFailsExactlyWhen(states: seq<State>, events: seq<Event>, r: nat, k: nat, j: nat, n: nat)
    requires IsRun(states, events) && n <= |events| && Booted(states, events, r, k, j, n)
    ensures NoBeginIn(events, r, n) <==> NoBeginIn(events, r, j)
    ensures NoBeginIn(events, r, n) <==> !Overlaps(states, events, r, k, j)
  {
    NoCloseBeforeClaim(states, events, r, k, events[j].i);
    OverlapIsBegin(states, events, r, k, j);
    assert NoBeginIn(events, r, n) <==> NoBeginIn(events, r, j);
  }

  lemma OverlapIsBegin(states: seq<State>, events: seq<Event>, r: nat, k: nat, j: nat)
    requires |states| == |events| + 1 && r < k < j <= |events| && events[k].DoReply? && NoCloseIn(events, r, k)
    ensures Overlaps(states, events, r, k, j) <==> !NoBeginIn(events, r, j)
  {
    if !NoBeginIn(events, r, j) {
      var b: nat :| r < b < j && events[b].DoCloseBegin?;
      BeginOverlaps(states, events, r, k, j, b);
    }
  }

  /**
   The boot gate in every interleaving. Ready means that some boot call was registered, claimed and run in this order
   with nothing to undo it since; the gate is open as well exactly when for one such call no window of an on_close begun
   after its registration overlaps the time from its claim to its callback.
   */
  lemma ReadyAndGate(states: seq<State>, events: seq<Event>, n: nat)
    requires IsRun(states, events) && n <= |events|
    ensures states[n].phase == Ready <==> exists r: nat, k: nat, j: nat :: Booted(states, events, r, k, j, n)
    ensures GateOpenIn(states, events, n)
       <==> exists r: nat, k: nat, j: nat :: Booted(states, events, r, k, j, n) && !Overlaps(states, events, r, k, j)
  {
    ReadyExactlyWhenBootRan(states, events, n);
    if states[n].phase == Ready {
      var j: nat :| BootRanAt(states, events, j, n);
      var r, k := AcceptanceHasHistory(states, events, j, events[j].i);
      assert Booted(states, events, r, k, j, n);
    }
    forall r: nat, k: nat, j: nat | Booted(states, events, r, k, j, n)
      ensures BootRan(states, events, n)
      ensures NoBeginIn(events, r, n) <==> !Overlaps(states, events, r, k, j)
    {
      GateFailsExactlyWhen(states, events, r, k, j, n);
    }
  }

  /** So where no such windows overlap, Ready means exactly that the gate is open. */
  lemma ReadyMeansGateOpen(states: seq<State>, events: seq<Event>, n: nat)
    requires IsRun(states, events) && n <= |events|
    requires forall r: nat, k: nat, j: nat | Booted(states, events, r, k, j, n) :: !Overlaps(states, events, r, k, j)
    ensures states[n].phase == Ready <==> GateOpenIn(states, events, n)
  {
    ReadyAndGate(states, events, n);
  }

  // ------------------------------------------------------------------------------------------
  // Two runs in which it fails.
  // ------------------------------------------------------------------------------------------

  function Acceptance(id: Id, interval: int): Frame
    requires 0 <= interval < 0x8000_0000
  {
    CallResult(3, id, EncodeConfirmation(BootNotificationResponse("", interval, "Accepted")))
  }

  // The on_close comes between the claim of the boot's callback and the callback.
  function LateEvents(id: Id, accepted: Frame): seq<Event> {
    [DoRegister(id, BOOT, BootCallback), DoTransmit(id), DoReply(accepted), DoCloseBegin, DoClose(0, []), DoInvoke(0)]
  }

  // The on_close writes the state, and the reply is claimed and its callback run before it takes the lock.
  function EarlyEvents(id: Id, accepted: Frame): seq<Event> {
    [DoRegister(id, BOOT, BootCallback), DoTransmit(id), DoCloseBegin, DoReply(accepted), DoInvoke(0), DoClose(0, [])]
  }

  // The boot call is registered and sent.
  lemma BootSent(id: Id) returns (s1: State, s2: State)
    ensures Moves(INITIAL, DoRegister(id, BOOT, BootCallback), s1) && Moves(s1, DoTransmit(id), s2)
    ensures s2.pending == map[id := Entry(BootKind, BootCallback)]
    ensures s2.work.open == {} && s2.log.claims == [] && s2.closes == Closes(0, {})
  {
    s1 := Register(INITIAL, id, BOOT, BootCallback);
    s2 := Transmit(s1, id);
  }

  lemma BootClaimed(s: State, id: Id, accepted: Frame) returns (s': State)
    requires s.pending == map[id := Entry(BootKind, BootCallback)] && s.work.open == {} && s.log.claims == []
    requires accepted.messageId == id && IsBootAcceptance(accepted)
    ensures Moves(s, DoReply(accepted), s') && s'.pending == map[] && s'.closes == s.closes
    ensures s'.work.open == {0} && s'.log.claims == [Claim(id, BootCallback, accepted, ByReply)]
  {
    s' := Reply(s, accepted);
    assert s'.pending == map[];
  }

  lemma CloseBegun(s: State) returns (s': State)
    requires s.closes == Closes(0, {})
    ensures Moves(s, DoCloseBegin, s') && s' == BeginClose(s) && s'.closes == Closes(1, {0})
  {
    s' := BeginClose(s);
  }

  lemma CloseDone(s: State) returns (s': State)
    requires s.pending == map[] && s.closes == Closes(1, {0})
    ensures Moves(s, DoClose(0, []), s') && s'.phase == s.phase && s'.pending == map[]
    ensures s'.log.claims == s.log.claims && s'.work.open == s.work.open && s'.closes == Closes(1, {})
  {
    s' := CloseAll(EndClose(s, 0), []);
    assert s'.log.claims == s.log.claims && s'.work.open == s.work.open && s'.closes.running == {};
  }

  lemma BootRuns(s: State) returns (s': State)
    requires s.work.open == {0} && |s.log.claims| == 1 && AcceptsBoot(s.log.claims[0])
    ensures Moves(s, DoInvoke(0), s') && s'.phase == Ready && s'.pending == s.pending && s'.closes == s.closes
    ensures s'.work.open == {} && s'.log.claims == s.log.claims
  {
    s' := Invoke(s, 0);
  }

  lemma SixSteps(events: seq<Event>, s1: State, s2: State, s3: State, s4: State, s5: State, s6: State)
    returns (states: seq<State>)
    requires |events| == 6
    requires Moves(INITIAL, events[0], s1) && Moves(s1, events[1], s2) && Moves(s2, events[2], s3)
    requires Moves(s3, events[3], s4) && Moves(s4, events[4], s5) && Moves(s5, events[5], s6)
    ensures IsRun(states, events) && states[6] == s6
  {
    states := [INITIAL, s1, s2, s3, s4, s5, s6];
  }

  // In a run of one registration, one on_close and one callback, in this order, the gate is shut.
  lemma GateIsShut(states: seq<State>, events: seq<Event>, b: nat, j: nat)
    requires IsRun(states, events) && |events| == 6 && 1 < b < j < 6 && events[b].DoCloseBegin?
    requires forall x | 0 <= x < 6 :: (events[x].DoRegister? ==> x == 0) && (events[x].DoInvoke? ==> x == j)
    ensures !GateOpenIn(states, events, 6)
  {}

  lemma LateRun(id: Id, accepted: Frame) returns (states: seq<State>)
    requires accepted.messageId == id && IsBootAcceptance(accepted)
    ensures IsRun(states, LateEvents(id, accepted)) && states[6].phase == Ready
  {
    var s1, s2 := BootSent(id);
    var s3 := BootClaimed(s2, id, accepted);
    var s4 := CloseBegun(s3);
    var s5 := CloseDone(s4);
    var s6 := BootRuns(s5);
    states := SixSteps(LateEvents(id, accepted), s1, s2, s3, s4, s5, s6);
  }

  // Nothing is pending, no callback is still to run, and no on_close is in progress.
  predicate IsAtRest(s: State) {
    s.pending == map[] && s.work.open == {} && s.closes.running == {}
  }

  lemma EarlyRun(id: Id, accepted: Frame) returns (states: seq<State>)
    requires accepted.messageId == id && IsBootAcceptance(accepted)
    ensures IsRun(states, EarlyEvents(id, accepted)) && states[6].phase == Ready && IsAtRest(states[6])
  {
    var s1, s2 := BootSent(id);
    var s3 := CloseBegun(s2);
    var s4 := BootClaimed(s3, id, accepted);
    var s5 := BootRuns(s4);
    var s6 := CloseDone(s5);
    states := SixSteps(EarlyEvents(id, accepted), s1, s2, s3, s4, s5, s6);
  }

  /** A boot call sent before a close can make the session Ready after it, and then the gate is not open. */
  lemma LateBootCallbackPassesTheGate(id: Id, interval: int) returns (states: seq<State>, events: seq<Event>)
    requires 0 <= interval < 0x8000_0000
    ensures events == LateEvents(id, Acceptance(id, interval)) && IsRun(states, events)
    ensures states[6].phase == Ready && !GateOpenIn(states, events, 6)
  {
    ValidatorAcceptsExpected(BootKind, BootNotificationResponse("", interval, "Accepted"));
    events := LateEvents(id, Acceptance(id, interval));
    states := LateRun(id, Acceptance(id, interval));
    GateIsShut(states, events, 3, 5);
  }

  /**
   The same where no locked section comes between claim and callback: the reply is handled between the state write and
   the lock of one on_close, which finds nothing pending and leaves the session Ready.
   */
  lemma EarlyStateWritePassesTheGate(id: Id, interval: int) returns (states: seq<State>, events: seq<Event>)
    requires 0 <= interval < 0x8000_0000
    ensures events == EarlyEvents(id, Acceptance(id, interval)) && IsRun(states, events)
    ensures states[6].phase == Ready && IsAtRest(states[6]) && !GateOpenIn(states, events, 6)
  {
    ValidatorAcceptsExpected(BootKind, BootNotificationResponse("", interval, "Accepted"));
    events := EarlyEvents(id, Acceptance(id, interval));
    states := EarlyRun(id, Acceptance(id, interval));
    GateIsShut(states, events, 2, 4);
  }
}
