/**
 What becomes of each call, over every interleaving of a session's steps: which callback is taken for which reason,
 what it is given, and what its timer does.
 */
module CallbackRuns {
  import opened Json
  import opened OcppModel
  import opened Session
  import opened SessionRuns

  // ------------------------------------------------------------------------------------------
  // What a callback is given.
  // ------------------------------------------------------------------------------------------

  predicate IsErrorOf(id: Id, code: string, description: string, f: Frame) {
    f == CallError(4, id, code, description, Obj(map[]))
  }

  // Step e takes the callback of a pending call, for the reason and with the frame that c says.
  ghost predicate Takes(s: State, e: Event, c: Claim) {
    && c.id in s.pending && c.resolve == s.pending[c.id].resolve
    && match c.cause
       case ByReply =>
         e.DoReply? && !e.f.Call? && e.f.messageId == c.id && IsAnswer(s.pending[c.id].kind, e.f, c.frame)
       case ByTimeout => e == DoTimeoutClaim(c.id) && IsErrorOf(c.id, "Timeout", "Request timed out", c.frame)
       case ByClose => e.DoClose? && IsErrorOf(c.id, "ConnectionClosed", "Connection closed before reply", c.frame)
  }

  // Every claim of t is one of s, or was taken by step e.
  ghost predicate TakenBy(s: State, e: Event, t: State) {
    && s.log.claims <= t.log.claims
    && forall i | |s.log.claims| <= i < |t.log.claims| :: Takes(s, e, t.log.claims[i])
  }

  lemma ReplyTakes(s: State, f: Frame)
    ensures TakenBy(s, DoReply(f), Reply(s, f))
    ensures !f.Call? && f.messageId in s.pending ==>
              |Reply(s, f).log.claims| == |s.log.claims| + 1 && f.messageId !in Reply(s, f).pending
  {
    if !f.Call? && f.messageId in s.pending {
      JudgeIsAnswer(s.pending[f.messageId].kind, f);
    }
  }

  lemma TimeoutTakes(s: State, id: Id)
    ensures TakenBy(s, DoTimeoutClaim(id), TimeoutClaim(s, id))
    ensures id in s.pending ==> |TimeoutClaim(s, id).log.claims| == |s.log.claims| + 1
  {}

  lemma CloseTakes(s: State, token: nat, order: seq<Id>)
    requires forall id | id in order :: id in s.pending
    ensures TakenBy(s, DoClose(token, order), CloseAll(EndClose(s, token), order))
  {
    forall k | 0 <= k < |order|
      ensures Takes(s, DoClose(token, order), CloseClaim(s.pending, order[k]))
    {
      assert order[k] in s.pending;
    }
  }

  lemma StepTakes(s: State, e: Event)
    requires Enabled(s, e)
    ensures TakenBy(s, e, Step(s, e))
  {
    match e
    case DoReply(f) => ReplyTakes(s, f);
    case DoTimeoutClaim(id) => TimeoutTakes(s, id);
    case DoClose(token, order) => CloseTakes(s, token, order);
    case _ =>
  }

  // Step e makes the call id, with this request and callback.
  ghost predicate Makes(s: State, e: Event, id: Id) {
    (e.DoRegister? && e.id == id) || (e.DoHeartBeatFire? && e.id == id && s.phase == Ready)
  }

  function RequestOf(e: Event): Request {
    if e.DoRegister? then e.request else HeartBeat
  }

  function CallbackOf(e: Event): Callback {
    if e.DoRegister? then e.resolve else HeartBeatCallback
  }

  // Every pending entry of t is one of s, or was made by step e.
  ghost predicate MadeBy(s: State, e: Event, t: State) {
    forall id | id in t.pending ::
      || (id in s.pending && t.pending[id] == s.pending[id])
      || (Makes(s, e, id) && t.pending[id] == Entry(RequestOf(e).Kind(), CallbackOf(e)))
  }

  lemma StepMakes(s: State, e: Event)
    requires Enabled(s, e)
    ensures MadeBy(s, e, Step(s, e))
  {}

  lemma MoveMakes(s: State, e: Event, t: State)
    requires Moves(s, e, t)
    ensures MadeBy(s, e, t) && TakenBy(s, e, t)
  {
    StepMakes(s, e);
    StepTakes(s, e);
  }

  // Where a pending entry comes from
  lemma {:induction false} PendingWasMade(states: seq<State>, events: seq<Event>, n: nat, id: Id) returns (r: nat)
    requires IsRun(states, events) && n < |states| && id in states[n].pending
    ensures r < n && Makes(states[r], events[r], id)
    ensures states[n].pending[id] == Entry(RequestOf(events[r]).Kind(), CallbackOf(events[r]))
  {
    assert n > 0;
    var m := n - 1;
    RunMoves(states, events, m);
    MoveMakes(states[m], events[m], states[m + 1]);
    if id in states[m].pending && states[n].pending[id] == states[m].pending[id] {
      r := PendingWasMade(states, events, m, id);
    } else {
      r := m;
    }
  }

  /**
   What each callback is given, in every interleaving. The callback of claim i was passed to the call that step r made;
   step k took it, by a reply of that id, by the call's own timer, or by a close. A reply is given as it came, unless it
   is a result of a type that the call made at r does not expect; that is a ProtocolError. A timeout is given Timeout, a
   close ConnectionClosed, each under the id of the call.
   */
  lemma {:induction false} CallbackHistory(states: seq<State>, events: seq<Event>, n: nat, i: nat)
    returns (r: nat, k: nat)
    requires IsRun(states, events) && n < |states| && i < |states[n].log.claims|
    ensures r < k < n && |states[k].log.claims| <= i
    ensures var c := states[n].log.claims[i];
            && Makes(states[r], events[r], c.id) && c.resolve == CallbackOf(events[r])
            && Takes(states[k], events[k], c)
            && states[k].pending[c.id].kind == RequestOf(events[r]).Kind()
  {
    assert n > 0;
    var m := n - 1;
    RunMoves(states, events, m);
    MoveMakes(states[m], events[m], states[m + 1]);
    if i < |states[m].log.claims| {
      r, k := CallbackHistory(states, events, m, i);
    } else {
      k := m;
      r := PendingWasMade(states, events, m, states[n].log.claims[i].id);
    }
  }

  /**
   And what each reply does: a reply to a pending call takes that call's callback and no other, one to no pending call
   is counted as unmatched, and a Call is ignored.
   */
  lemma ReplyExactly(states: seq<State>, events: seq<Event>, n: nat)
    requires IsRun(states, events) && n < |events| && events[n].DoReply?
    ensures var s, f, t := states[n], events[n].f, states[n + 1];
            && (f.Call? ==> t == s)
            && (!f.Call? && f.messageId in s.pending ==>
                  && |t.log.claims| == |s.log.claims| + 1
                  && t.log.claims[|s.log.claims|].id == f.messageId && Takes(s, events[n], t.log.claims[|s.log.claims|])
                  && t.pending == s.pending - {f.messageId} && t.tally.unmatched == s.tally.unmatched)
            && (!f.Call? && f.messageId !in s.pending ==>
                  t == s.(tally := s.tally.(replies := s.tally.replies + 1, unmatched := s.tally.unmatched + 1)))
  {
    RunMoves(states, events, n);
    ReplyTakes(states[n], events[n].f);
  }

  // ------------------------------------------------------------------------------------------
  // What a call's timer does.
  // ------------------------------------------------------------------------------------------

  ghost predicate Happened(events: seq<Event>, n: nat, e: Event)
    requires n <= |events|
  {
    exists k :: 0 <= k < n && events[k] == e
  }

  // A timer that has run out is Expired until its handler counts it; one that has not is Armed while its call is
  // pending, and then Cancelled.
  ghost predicate TimerFits(s: State, id: Id, expired: bool, counted: bool) {
    && (id in s.timers <==> id in s.log.calls)
    && (counted ==> expired) && (expired ==> id in s.timers)
    && (id in s.timers ==>
          && (s.timers[id] == Armed <==> !expired && id in s.pending)
          && (s.timers[id] == Cancelled <==> !expired && id !in s.pending)
          && (s.timers[id] == Expired <==> expired && !counted)
          && (s.timers[id] == Fired <==> counted))
  }

  lemma FitsAfterRegister(s: State, id: Id, request: Request, resolve: Callback, x: Id, expired: bool, counted: bool)
    requires id !in s.log.calls && id !in s.pending && TimerFits(s, x, expired, counted)
    ensures TimerFits(Register(s, id, request, resolve), x, expired, counted)
  {}

  lemma FitsAfterTake(s: State, id: Id, frame: Frame, cause: Cause, x: Id, expired: bool, counted: bool)
    requires id in s.pending && TimerFits(s, x, expired, counted)
    ensures TimerFits(Take(s, id, frame, cause), x, expired, counted)
  {}

  lemma FitsAfterReply(s: State, f: Frame, x: Id, expired: bool, counted: bool)
    requires TimerFits(s, x, expired, counted)
    ensures TimerFits(Reply(s, f), x, expired, counted)
  {
    if !f.Call? && f.messageId in s.pending {
      FitsAfterTake(s.(tally := s.tally.(replies := s.tally.replies + 1)), f.messageId,
                    Judge(s.pending[f.messageId].kind, f), ByReply, x, expired, counted);
    }
  }

  lemma FitsAfterTimeout(s: State, id: Id, x: Id, expired: bool, counted: bool)
    requires TimerFits(s, x, expired, counted)
    ensures TimerFits(TimeoutClaim(s, id), x, expired, counted)
  {
    if id in s.pending {
      FitsAfterTake(s.(work := s.work.(counted := s.work.counted - {id})), id, TimeoutFrame(id), ByTimeout,
                    x, expired, counted);
    }
  }

  lemma FitsAfterClose(s: State, order: seq<Id>, x: Id, expired: bool, counted: bool)
    requires (forall id | id in order :: id in s.pending) && TimerFits(s, x, expired, counted)
    ensures TimerFits(CloseAll(s, order), x, expired, counted)
  {}

  lemma FitsAfterBeat(s: State, token: nat, id: Id, x: Id, expired: bool, counted: bool)
    requires Enabled(s, DoHeartBeatFire(token, id)) && LedgerInv(s) && TimerFits(s, x, expired, counted)
    ensures TimerFits(HeartBeatFire(s, token, id), x, expired, counted)
  {
    if s.phase == Ready {
      FitsAfterRegister(s, id, HeartBeat, HeartBeatCallback, x, expired, counted);
    }
  }

  lemma TimerFitsStep(s: State, e: Event, x: Id, expired: bool, counted: bool)
    requires LedgerInv(s) && Enabled(s, e) && TimerFits(s, x, expired, counted)
    ensures TimerFits(Step(s, e), x, expired || e == DoExpire(x), counted || e == DoTimeoutCount(x))
  {
    match e
    case DoRegister(id, request, resolve) => FitsAfterRegister(s, id, request, resolve, x, expired, counted);
    case DoReply(f) => FitsAfterReply(s, f, x, expired, counted);
    case DoTimeoutClaim(id) => FitsAfterTimeout(s, id, x, expired, counted);
    case DoClose(token, order) => FitsAfterClose(EndClose(s, token), order, x, expired, counted);
    case DoHeartBeatFire(token, id) => FitsAfterBeat(s, token, id, x, expired, counted);
    case _ =>
  }

  lemma MoveKeepsTimer(s: State, e: Event, t: State, x: Id, expired: bool, counted: bool)
    requires LedgerInv(s) && Moves(s, e, t) && TimerFits(s, x, expired, counted)
    ensures TimerFits(t, x, expired || e == DoExpire(x), counted || e == DoTimeoutCount(x))
  {
    TimerFitsStep(s, e, x, expired, counted);
  }

  lemma HappenedMore(events: seq<Event>, m: nat, e: Event)
    requires m < |events|
    ensures Happened(events, m + 1, e) <==> Happened(events, m, e) || events[m] == e
  {}

  /**
   Every call's timer, in every interleaving: it is armed exactly while the call is pending and the timer has not run
   out, and cancelled exactly when the call was resolved before that; once it has run out its handler is queued until it
   counts the timeout. So a timeout is counted only for a call that was pending as its timer ran out.
   */
  lemma {:induction false} TimerHistory(states: seq<State>, events: seq<Event>, n: nat, id: Id)
    requires IsRun(states, events) && n <= |events|
    ensures TimerFits(states[n], id, Happened(events, n, DoExpire(id)), Happened(events, n, DoTimeoutCount(id)))
  {
    if n > 0 {
      var m := n - 1;
      TimerHistory(states, events, m, id);
      RunKeepsInv(states, events, m);
      RunMoves(states, events, m);
      HappenedMore(events, m, DoExpire(id));
      HappenedMore(events, m, DoTimeoutCount(id));
      MoveKeepsTimer(states[m], events[m], states[m + 1], id,
                     Happened(events, m, DoExpire(id)), Happened(events, m, DoTimeoutCount(id)));
    }
  }

  lemma ResolvedStays(s: State, e: Event, id: Id)
    requires Enabled(s, e) && id in s.log.calls && id !in s.pending
    ensures id in Step(s, e).log.calls && id !in Step(s, e).pending
  {}

  lemma MoveStaysResolved(s: State, e: Event, t: State, id: Id, counted: bool)
    requires Moves(s, e, t) && TimerFits(s, id, false, counted) && id in s.log.calls && id !in s.pending
    ensures id in t.log.calls && id !in t.pending && e != DoExpire(id)
  {
    ResolvedStays(s, e, id);
  }

  // A call resolved before its timer ran out stays so.
  lemma {:induction false} StaysResolved(states: seq<State>, events: seq<Event>, m: nat, n: nat, id: Id)
    requires IsRun(states, events) && m <= n <= |events|
    requires id in states[m].log.calls && id !in states[m].pending && !Happened(events, m, DoExpire(id))
    ensures id in states[n].log.calls && id !in states[n].pending && !Happened(events, n, DoExpire(id))
    decreases n
  {
    if m < n {
      var i := n - 1;
      StaysResolved(states, events, m, i, id);
      TimerHistory(states, events, i, id);
      RunMoves(states, events, i);
      MoveStaysResolved(states[i], events[i], states[i + 1], id, Happened(events, i, DoTimeoutCount(id)));
      HappenedMore(events, i, DoExpire(id));
    }
  }

  /** A call answered, or failed by a close, before its timer ran out never counts as a timeout, early or late. */
  lemma ResolvedInTimeNeverTimesOut(states: seq<State>, events: seq<Event>, m: nat, n: nat, id: Id)
    requires IsRun(states, events) && m <= n < |events|
    requires id in states[m].log.calls && id !in states[m].pending && !Happened(events, m, DoExpire(id))
    ensures events[n] != DoExpire(id) && events[n] != DoTimeoutCount(id) && events[n] != DoTimeoutClaim(id)
  {
    StaysResolved(states, events, m, n, id);
    TimerHistory(states, events, n, id);
    RunKeepsInv(states, events, n);
    RunMoves(states, events, n);
  }

  // ------------------------------------------------------------------------------------------
  // What becomes of a call's line.
  // ------------------------------------------------------------------------------------------

  ghost predicate LineFits(s: State, id: Id, sent: bool) {
    && (sent ==> id in s.log.calls)
    && (id in s.log.calls ==>
          && (id in s.work.unsent <==> !sent)
          && (CreateCall(id, s.log.calls[id]) in s.log.lines <==> sent))
  }

  lemma LineFitsStep(s: State, e: Event, id: Id, sent: bool)
    requires WireInv(s) && LineFits(s, id, sent) && Enabled(s, e)
    ensures LineFits(Step(s, e), id, sent || e == DoTransmit(id))
  {}

  lemma MoveKeepsLine(s: State, e: Event, t: State, id: Id, sent: bool)
    requires WireInv(s) && LineFits(s, id, sent) && Moves(s, e, t)
    ensures LineFits(t, id, sent || e == DoTransmit(id))
  {
    LineFitsStep(s, e, id, sent);
  }

  /** A call's line waits from its registration until it is handed over, and is among the lines from then on. */
  lemma {:induction false} LineHistory(states: seq<State>, events: seq<Event>, n: nat, id: Id)
    requires IsRun(states, events) && n <= |events|
    ensures LineFits(states[n], id, Happened(events, n, DoTransmit(id)))
  {
    if n > 0 {
      var m := n - 1;
      LineHistory(states, events, m, id);
      RunKeepsInv(states, events, m);
      RunMoves(states, events, m);
      HappenedMore(events, m, DoTransmit(id));
      MoveKeepsLine(states[m], events[m], states[m + 1], id, Happened(events, m, DoTransmit(id)));
    }
  }
}
