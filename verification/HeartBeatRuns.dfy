/**
 The heartbeat interval and the heartbeat timers, over every interleaving of a session's steps.
 */
module HeartBeatRuns {
  import opened Json
  import opened OcppModel
  import opened Session
  import opened SessionRuns
  import opened GateRuns

  // ------------------------------------------------------------------------------------------
  // The interval.
  // ------------------------------------------------------------------------------------------

  // x is a boot confirmation, in its object or its array form, with this interval and this status.
  predicate IsBootConfirmation(x: Value, interval: Int32, status: string) {
    || (x.Obj? && "currentTime" in x.fields && x.fields["currentTime"].Str? && "interval" in x.fields
        && AsInt(x.fields["interval"]) == Ok(interval) && HasString(x, "status", status))
    || (x.Arr? && |x.elems| >= 3 && x.elems[0].Str? && AsInt(x.elems[1]) == Ok(interval) && IsString(x, 2, status))
  }

  /** Exactly which replies the boot callback accepts, and the interval each of them gives. */
  lemma AcceptanceExactlyWhen(f: Frame, interval: Int32)
    ensures IsBootAcceptance(f) && DecodeConfirmation(BootKind, f.payload).value.interval == interval
       <==> f.CallResult? && IsBootConfirmation(f.payload, interval, "Accepted")
  {
    if f.CallResult? {
      var r := DecodeConfirmation(BootKind, f.payload);
      if r.Ok? {
        ConfirmationDecodesExactlyWhen(BootKind, f.payload, r.value);
      }
      if IsBootConfirmation(f.payload, interval, "Accepted") {
        var time := if f.payload.Obj? then f.payload.fields["currentTime"].s else f.payload.elems[0].s;
        ConfirmationDecodesExactlyWhen(BootKind, f.payload, BootNotificationResponse(time, interval, "Accepted"));
      }
    }
  }

  // The interval that a boot confirmation gives
  function IntervalIn(x: Value): Int32 {
    if x.Obj? && "interval" in x.fields && AsInt(x.fields["interval"]).Ok? then AsInt(x.fields["interval"]).value
    else if x.Arr? && |x.elems| >= 2 && AsInt(x.elems[1]).Ok? then AsInt(x.elems[1]).value
    else 0
  }

  // The interval of the last boot acceptance run before n, or 0 when none has
  ghost function LastInterval(states: seq<State>, events: seq<Event>, n: nat): Int32
    requires |states| == |events| + 1 && n <= |events|
  {
    if n == 0 then 0
    else if RunsBoot(states[n - 1], events[n - 1]) then
      IntervalIn(states[n - 1].log.claims[events[n - 1].i].frame.payload)
    else LastInterval(states, events, n - 1)
  }

  lemma IntervalStep(s: State, e: Event, t: State)
    requires Moves(s, e, t)
    ensures t.interval == if RunsBoot(s, e) then IntervalIn(s.log.claims[e.i].frame.payload) else s.interval
  {
    if RunsBoot(s, e) {
      AcceptanceExactlyWhen(s.log.claims[e.i].frame, t.interval);
    }
  }

  /** The session's interval is that of the last boot acceptance it has run, and 0 before the first. */
  lemma {:induction false} IntervalHistory(states: seq<State>, events: seq<Event>, n: nat)
    requires IsRun(states, events) && n <= |events|
    ensures states[n].interval == LastInterval(states, events, n)
  {
    if n > 0 {
      var m := n - 1;
      IntervalHistory(states, events, m);
      RunMoves(states, events, m);
      IntervalStep(states[m], events[m], states[m + 1]);
    }
  }

  // ------------------------------------------------------------------------------------------
  // The timers.
  // ------------------------------------------------------------------------------------------

  // Timer token is waiting, or its handler is queued.
  predicate IsLive(b: HeartBeats, token: nat) {
    token in b.armed || token in b.queued
  }

  function IntervalOf(b: HeartBeats, token: nat): Int32
    requires IsLive(b, token)
  {
    if token in b.armed then b.armed[token] else b.queued[token]
  }

  ghost predicate TokensInv(b: HeartBeats) {
    && BeatInv(b)
    && forall token: nat | IsLive(b, token) :: token < b.next && !(token in b.armed && token in b.queued)
  }

  // The one timer armed is new, has this interval, and belongs to the session; handlers already queued stay queued.
  ghost predicate Starts(b: HeartBeats, interval: Int32, b': HeartBeats) {
    && b'.armed == map[b.next := interval] && b'.owner == Owns(b.next) && b'.next == b.next + 1 && b'.queued == b.queued
  }

  lemma StartStarts(b: HeartBeats, interval: Int32)
    requires BeatInv(b)
    ensures Starts(b, interval, StartHeartBeat(b, interval))
  {
    assert (if b.owner.Owns? then b.armed - {b.owner.token} else b.armed) == map[];
  }

  // Step e starts a heartbeat timer with this interval.
  ghost predicate StartsBeat(s: State, e: Event, interval: Int32) {
    || e == DoStartHeartBeat(interval)
    || (e.DoHeartBeatFire? && s.phase == Ready && e.token in s.beats.queued && s.beats.queued[e.token] == interval)
  }

  // What step e does to the heartbeat timers
  ghost predicate BeatMoves(s: State, e: Event, t: State) {
    match e
    case DoStartHeartBeat(interval) => Starts(s.beats, interval, t.beats)
    case DoHeartBeatExpire(token) =>
      && token in s.beats.armed
      && t.beats == s.beats.(armed := map[], queued := s.beats.queued[token := s.beats.armed[token]])
    case DoHeartBeatFire(token, id) =>
      && token in s.beats.queued
      && var left := s.beats.(queued := s.beats.queued - {token});
         if s.phase == Ready then
           && Starts(left, s.beats.queued[token], t.beats)
           && t.log.calls == s.log.calls[id := HeartBeat] && id in t.pending && id in t.work.unsent
         else t == s.(beats := left)
    case _ => t.beats == s.beats
  }

  lemma ExpireMoves(b: HeartBeats, token: nat)
    requires BeatInv(b) && token in b.armed
    ensures HeartBeatExpire(b, token) == b.(armed := map[], queued := b.queued[token := b.armed[token]])
  {
    assert b.armed - {token} == map[];
  }

  lemma FireMoves(s: State, token: nat, id: Id)
    requires BeatInv(s.beats) && Enabled(s, DoHeartBeatFire(token, id))
    ensures BeatMoves(s, DoHeartBeatFire(token, id), HeartBeatFire(s, token, id))
  {
    StartStarts(s.beats.(queued := s.beats.queued - {token}), s.beats.queued[token]);
  }

  lemma StepMovesBeat(s: State, e: Event)
    requires BeatInv(s.beats) && Enabled(s, e)
    ensures BeatMoves(s, e, Step(s, e))
  {
    match e
    case DoStartHeartBeat(interval) => StartStarts(s.beats, interval);
    case DoHeartBeatExpire(token) => ExpireMoves(s.beats, token);
    case DoHeartBeatFire(token, id) => FireMoves(s, token, id);
    case _ =>
  }

  lemma MoveMovesBeat(s: State, e: Event, t: State)
    requires BeatInv(s.beats) && Moves(s, e, t)
    ensures BeatMoves(s, e, t)
  {
    StepMovesBeat(s, e);
  }

  /**
   The heartbeat timers, step by step: starting one leaves it alone armed; one that runs out queues its handler; the
   handler of a Ready session makes a HeartBeat call and arms the next timer with the interval of this one, and that of
   any other session does nothing.
   */
  lemma BeatExactly(states: seq<State>, events: seq<Event>, n: nat)
    requires IsRun(states, events) && n < |events|
    ensures BeatMoves(states[n], events[n], states[n + 1])
  {
    RunKeepsInv(states, events, n);
    RunMoves(states, events, n);
    MoveMovesBeat(states[n], events[n], states[n + 1]);
  }

  lemma TokensStep(s: State, e: Event, t: State, token: nat)
    requires TokensInv(s.beats) && BeatMoves(s, e, t)
    ensures TokensInv(t.beats)
    ensures IsLive(t.beats, token) ==>
              || (IsLive(s.beats, token) && IntervalOf(t.beats, token) == IntervalOf(s.beats, token))
              || (token == s.beats.next && StartsBeat(s, e, IntervalOf(t.beats, token)))
  {}

  lemma {:induction false} TokensAreFresh(states: seq<State>, events: seq<Event>, n: nat)
    requires IsRun(states, events) && n <= |events|
    ensures TokensInv(states[n].beats)
  {
    if n > 0 {
      var m := n - 1;
      TokensAreFresh(states, events, m);
      BeatExactly(states, events, m);
      TokensStep(states[m], events[m], states[m + 1], 0);
    }
  }

  /** The interval of a heartbeat timer, waiting or queued, is the one it was started with. */
  lemma {:induction false} HeartBeatHistory(states: seq<State>, events: seq<Event>, n: nat, token: nat) returns (k: nat)
    requires IsRun(states, events) && n <= |events| && IsLive(states[n].beats, token)
    ensures k < n && states[k].beats.next == token
    ensures StartsBeat(states[k], events[k], IntervalOf(states[n].beats, token))
  {
    assert n > 0;
    var m := n - 1;
    TokensAreFresh(states, events, m);
    BeatExactly(states, events, m);
    TokensStep(states[m], events[m], states[m + 1], token);
    if IsLive(states[m].beats, token) && IntervalOf(states[n].beats, token) == IntervalOf(states[m].beats, token) {
      k := HeartBeatHistory(states, events, m, token);
    } else {
      k := m;
    }
  }
}
