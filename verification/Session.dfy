/**
 The client session (session.hpp): it correlates replies with calls, times calls out, fails them on a
 close, and runs the boot and heartbeat flow.

 The unit of interleaving is a step: what one thread does while it holds the lock, or one callback it
 runs after releasing it. The class at the end runs whole handlers, each a sequence of such steps.
 */
module Session {
  import opened Json
  import opened OcppModel

  type Id = string

  datatype Phase = Disconnected | Connected | Booting | Ready

  // on_reply: possibly empty, the application's, or one of the session's own two
  datatype Callback = NoCallback | AppCallback(tag: nat) | BootCallback | HeartBeatCallback

  // A pending call; its kind determines expected_tag and validate_payload.
  datatype Entry = Entry(kind: Kind, resolve: Callback)

  // A call's timer: waiting, its handler queued without error, handler run, or cancelled while waiting
  datatype Timer = Armed | Expired | Fired | Cancelled

  datatype Cause = ByReply | ByTimeout | ByClose

  // A callback taken out of the pending table, with the frame it is to be given
  datatype Claim = Claim(id: Id, resolve: Callback, frame: Frame, cause: Cause)

  // Calls made, lines handed to the transport, callbacks claimed; all in order of happening
  datatype Log = Log(calls: map<Id, Request>, lines: seq<Frame>, claims: seq<Claim>)

  // What threads are in the middle of: calls registered but not handed to the transport, timeout handlers that
  // have counted themselves but not yet taken the lock, claims whose callback has not run; and those that have.
  datatype Work = Work(unsent: map<Id, Frame>, counted: set<Id>, open: set<nat>, ran: seq<nat>)

  // unmatched_replies, the two session metrics, and for the accounts: timeout handlers that found nothing, reply
  // frames handled, and calls of on_boot_accepted
  datatype Tally = Tally(unmatched: nat, timeouts: nat, closedFailures: nat, late: nat, replies: nat, bootSignals: nat)

  // The heartbeat timers by token: the one the session owns, those waiting, those whose handler is queued
  datatype Owner = NoTimer | Owns(token: nat)
  datatype HeartBeats = HeartBeats(owner: Owner, armed: map<nat, Int32>, queued: map<nat, Int32>, next: nat)

  // The on_close calls in progress, by number: those that have written the state and not yet taken the lock
  datatype Closes = Closes(begun: nat, running: set<nat>)

  datatype State = State(
    phase: Phase, interval: Int32, pending: map<Id, Entry>, timers: map<Id, Timer>,
    beats: HeartBeats, closes: Closes, work: Work, log: Log, tally: Tally)

  const INITIAL := State(Disconnected, 0, map[], map[], HeartBeats(NoTimer, map[], map[], 0),
                         Closes(0, {}), Work(map[], {}, {}, []), Log(map[], [], []), Tally(0, 0, 0, 0, 0, 0))

  const BOOT := BootNotification("X100", "OpenAI")

  function TimeoutFrame(id: Id): Frame {
    CallError(4, id, "Timeout", "Request timed out", EMPTY_OBJECT)
  }

  function ClosedFrame(id: Id): Frame {
    CallError(4, id, "ConnectionClosed", "Connection closed before reply", EMPTY_OBJECT)
  }

  // What a reply frame becomes after its payload is validated
  function Judge(kind: Kind, f: Frame): Frame {
    if !f.CallResult? then f
    else
      match DecodeConfirmation(kind, f.payload)
      case Ok(_) => f
      case Err(what) => CallError(4, f.messageId, "ProtocolError", "Reply payload unexpected type",
                                  Obj(map["expected" := Str(ExpectedTag(kind)), "detail" := Str(what)]))
  }

  // g is what the callback of a call of this kind is to be given for the reply f: f itself, unless f is a result whose
  // payload is not of the type the call expects.
  predicate IsAnswer(kind: Kind, f: Frame, g: Frame) {
    && (f.CallError? ==> g == f)
    && (f.CallResult? ==>
          match DecodeConfirmation(kind, f.payload)
          case Ok(_) => g == f
          case Err(what) => IsProtocolError(kind, f.messageId, what, g))
  }

  predicate IsProtocolError(kind: Kind, id: Id, what: string, g: Frame) {
    && g.CallError? && g.messageTypeId == 4 && g.messageId == id
    && g.errorCode == "ProtocolError" && g.errorDescription == "Reply payload unexpected type"
    && g.errorDetails.Obj? && g.errorDetails.fields.Keys == {"expected", "detail"}
    && HasString(g.errorDetails, "detail", what)
    && HasString(g.errorDetails, "expected", match kind
                                             case BootKind => "BootNotificationResponse"
                                             case AuthorizeKind => "AuthorizeResponse"
                                             case HeartBeatKind => "HeartBeatResponse")
  }

  lemma JudgeIsAnswer(kind: Kind, f: Frame)
    requires !f.Call?
    ensures IsAnswer(kind, f, Judge(kind, f))
  {
    if f.CallResult? && DecodeConfirmation(kind, f.payload).Err? {
      ErrorIsProtocolError(kind, f);
    }
  }

  lemma ErrorIsProtocolError(kind: Kind, f: Frame)
    requires f.CallResult? && DecodeConfirmation(kind, f.payload).Err?
    ensures IsProtocolError(kind, f.messageId, DecodeConfirmation(kind, f.payload).what, Judge(kind, f))
  {}

  // Cancelling a timer does nothing to a handler that is already queued.
  function Cancel(t: Timer): Timer {
    if t == Armed then Cancelled else t
  }

  // The result of emplace is ignored: an id that is already pending keeps its entry and timer.
  function Register(s: State, id: Id, request: Request, resolve: Callback): State {
    s.(pending := if id in s.pending then s.pending else s.pending[id := Entry(request.Kind(), resolve)],
       timers := if id in s.pending then s.timers else s.timers[id := Armed],
       work := s.work.(unsent := s.work.unsent[id := CreateCall(id, request)]),
       log := s.log.(calls := s.log.calls[id := request]))
  }

  function Transmit(s: State, id: Id): State
    requires id in s.work.unsent
  {
    s.(work := s.work.(unsent := s.work.unsent - {id}), log := s.log.(lines := s.log.lines + [s.work.unsent[id]]))
  }

  // Under the lock: cancel the timer, move the callback out, erase the entry
  function Take(s: State, id: Id, frame: Frame, cause: Cause): State
    requires id in s.pending
  {
    s.(pending := s.pending - {id},
       timers := if id in s.timers then s.timers[id := Cancel(s.timers[id])] else s.timers,
       work := s.work.(open := s.work.open + {|s.log.claims|}),
       log := s.log.(claims := s.log.claims + [Claim(id, s.pending[id].resolve, frame, cause)]))
  }

  function TimeoutCount(s: State, id: Id): State {
    s.(timers := s.timers[id := Fired], work := s.work.(counted := s.work.counted + {id}),
       tally := s.tally.(timeouts := s.tally.timeouts + 1))
  }

  function TimeoutClaim(s: State, id: Id): State {
    var t := s.(work := s.work.(counted := s.work.counted - {id}));
    if id in t.pending then Take(t, id, TimeoutFrame(id), ByTimeout)
    else t.(tally := t.tally.(late := t.tally.late + 1))
  }

  function Reply(s: State, f: Frame): State {
    if f.Call? then s
    else
      var t := s.(tally := s.tally.(replies := s.tally.replies + 1));
      if f.messageId in t.pending then Take(t, f.messageId, Judge(t.pending[f.messageId].kind, f), ByReply)
      else t.(tally := t.tally.(unmatched := t.tally.unmatched + 1))
  }

  // A map's entries in some iteration order
  ghost predicate IsOrder(order: seq<Id>, keys: set<Id>) {
    && (forall i, j | 0 <= i < j < |order| :: order[i] != order[j])
    && (forall id :: id in order <==> id in keys)
  }

  function CloseClaim(pending: map<Id, Entry>, id: Id): Claim
    requires id in pending
  {
    Claim(id, pending[id].resolve, ClosedFrame(id), ByClose)
  }

  function CloseClaims(pending: map<Id, Entry>, order: seq<Id>): (cs: seq<Claim>)
    requires forall id | id in order :: id in pending
    ensures |cs| == |order|
    ensures forall i | 0 <= i < |order| :: cs[i] == CloseClaim(pending, order[i])
  {
    seq(|order|, i requires 0 <= i < |order| => CloseClaim(pending, order[i]))
  }

  function Span(low: nat, high: nat): (r: set<nat>)
    requires low <= high
    ensures forall i :: i in r <==> low <= i < high
    ensures |r| == high - low
    decreases high - low
  {
    if low == high then {} else {low} + Span(low + 1, high)
  }

  function CancelAll(timers: map<Id, Timer>, ids: set<Id>): map<Id, Timer> {
    map id | id in timers :: if id in ids then Cancel(timers[id]) else timers[id]
  }

  // Under the lock: cancel the timers, take all the callbacks, clear the table
  function CloseAll(s: State, order: seq<Id>): State
    requires forall id | id in order :: id in s.pending
  {
    var n := |s.log.claims|;
    s.(pending := map[], timers := CancelAll(s.timers, s.pending.Keys),
       work := s.work.(open := s.work.open + Span(n, n + |order|)),
       log := s.log.(claims := s.log.claims + CloseClaims(s.pending, order)))
  }

  // on_close writes the state before it takes the lock.
  function BeginClose(s: State): State {
    s.(phase := Disconnected, closes := Closes(s.closes.begun + 1, s.closes.running + {s.closes.begun}))
  }

  function EndClose(s: State, token: nat): State {
    s.(closes := s.closes.(running := s.closes.running - {token}))
  }

  // The locked section, field by field
  lemma ClaimedState(s: State, token: nat, order: seq<Id>, t: State)
    requires forall id | id in order :: id in s.pending
    requires t.phase == s.phase && t.interval == s.interval && t.beats == s.beats && t.tally == s.tally
    requires t.pending == map[] && t.timers == CancelAll(s.timers, s.pending.Keys)
    requires t.closes == EndClose(s, token).closes
    requires t.work == s.work.(open := s.work.open + Span(|s.log.claims|, |s.log.claims| + |order|))
    requires t.log == s.log.(claims := s.log.claims + CloseClaims(s.pending, order))
    ensures t == CloseAll(EndClose(s, token), order)
  {}

  // Both, with nothing in between
  function CloseNow(s: State, order: seq<Id>): State
    requires forall id | id in order :: id in s.pending
  {
    CloseAll(EndClose(BeginClose(s), s.closes.begun), order)
  }

  // The boot callback accepts this frame
  predicate IsBootAcceptance(f: Frame) {
    && f.CallResult?
    && var r := DecodeConfirmation(BootKind, f.payload);
       r.Ok? && r.value.status == "Accepted"
  }

  // Run claim i's callback. The application's callbacks do nothing to the session of themselves: calls they make
  // are later steps.
  function Invoke(s: State, i: nat): State
    requires i < |s.log.claims|
  {
    var c := s.log.claims[i];
    var t := s.(work := s.work.(open := s.work.open - {i}, ran := s.work.ran + [i]),
                tally := s.tally.(closedFailures := s.tally.closedFailures + if c.cause == ByClose then 1 else 0));
    if c.resolve == BootCallback && IsBootAcceptance(c.frame) then
      t.(phase := Ready, interval := DecodeConfirmation(BootKind, c.frame.payload).value.interval,
         tally := t.tally.(bootSignals := t.tally.bootSignals + 1))
    else t
  }

  // start_heartbeat(int): the previous timer is destroyed, which cancels it if it is still waiting
  function StartHeartBeat(b: HeartBeats, interval: Int32): HeartBeats {
    var rest := if b.owner.Owns? then b.armed - {b.owner.token} else b.armed;
    HeartBeats(Owns(b.next), rest[b.next := interval], b.queued, b.next + 1)
  }

  // A new timer with this interval is armed and owned; the one owned before is not armed any more.
  predicate ArmsNew(b: HeartBeats, interval: Int32, b': HeartBeats) {
    && b'.owner == Owns(b.next) && b'.next == b.next + 1 && b'.queued == b.queued
    && b.next in b'.armed && b'.armed[b.next] == interval
    && (b.owner.Owns? && b.owner.token != b.next ==> b.owner.token !in b'.armed)
  }

  function HeartBeatExpire(b: HeartBeats, token: nat): HeartBeats
    requires token in b.armed
  {
    b.(armed := b.armed - {token}, queued := b.queued[token := b.armed[token]])
  }

  // The heartbeat timer's handler; id is the message id of the HeartBeat it may send
  function HeartBeatFire(s: State, token: nat, id: Id): State
    requires token in s.beats.queued
  {
    var b := s.beats.(queued := s.beats.queued - {token});
    if s.phase != Ready then s.(beats := b)
    else Register(s, id, HeartBeat, HeartBeatCallback).(beats := StartHeartBeat(b, s.beats.queued[token]))
  }

  datatype Event =
    | DoRegister(id: Id, request: Request, resolve: Callback)  // send_call up to the end of its locked section
    | DoTransmit(id: Id)                                       // transport->send(line)
    | DoExpire(id: Id)                                         // a call's timer runs out; its handler is queued
    | DoTimeoutCount(id: Id)                                   // that handler counts a timeout
    | DoTimeoutClaim(id: Id)                                   // and then looks the call up under the lock
    | DoReply(f: Frame)                                        // on_frame up to the end of its locked section
    | DoCloseBegin                                             // on_close writes the state
    | DoClose(token: nat, order: seq<Id>)                      // and runs its locked section
    | DoInvoke(i: nat)                                         // a claimed callback runs
    | DoConnected                                              // on_transport_connected sets the state
    | DoStartHeartBeat(interval: Int32)
    | DoHeartBeatExpire(token: nat)
    | DoHeartBeatFire(token: nat, id: Id)

  // Message ids are fresh. The session's own callbacks go with the session's own requests.
  ghost predicate Enabled(s: State, e: Event) {
    match e
    case DoRegister(id, request, resolve) =>
      && id !in s.log.calls
      && (resolve == BootCallback ==> request == BOOT)
      && (resolve == HeartBeatCallback ==> request == HeartBeat)
    case DoTransmit(id) => id in s.work.unsent
    case DoExpire(id) => id in s.timers && s.timers[id] == Armed
    case DoTimeoutCount(id) => id in s.timers && s.timers[id] == Expired
    case DoTimeoutClaim(id) => id in s.work.counted
    case DoReply(_) => true
    case DoCloseBegin => true
    case DoClose(token, order) => token in s.closes.running && IsOrder(order, s.pending.Keys)
    case DoInvoke(i) => i in s.work.open && i < |s.log.claims|
    case DoConnected => true
    case DoStartHeartBeat(_) => true
    case DoHeartBeatExpire(token) => token in s.beats.armed
    case DoHeartBeatFire(token, id) => token in s.beats.queued && (s.phase == Ready ==> id !in s.log.calls)
  }

  ghost function Step(s: State, e: Event): State
    requires Enabled(s, e)
  {
    match e
    case DoRegister(id, request, resolve) => Register(s, id, request, resolve)
    case DoTransmit(id) => Transmit(s, id)
    case DoExpire(id) => s.(timers := s.timers[id := Expired])
    case DoTimeoutCount(id) => TimeoutCount(s, id)
    case DoTimeoutClaim(id) => TimeoutClaim(s, id)
    case DoReply(f) => Reply(s, f)
    case DoCloseBegin => BeginClose(s)
    case DoClose(token, order) => CloseAll(EndClose(s, token), order)
    case DoInvoke(i) => Invoke(s, i)
    case DoConnected => s.(phase := Booting)
    case DoStartHeartBeat(interval) => s.(beats := StartHeartBeat(s.beats, interval))
    case DoHeartBeatExpire(token) => s.(beats := HeartBeatExpire(s.beats, token))
    case DoHeartBeatFire(token, id) => HeartBeatFire(s, token, id)
  }

  ghost predicate Moves(s: State, e: Event, s': State) {
    Enabled(s, e) && s' == Step(s, e)
  }

  ghost predicate IsRun(states: seq<State>, events: seq<Event>) {
    && |states| == |events| + 1
    && states[0] == INITIAL
    && forall i {:trigger events[i]} | 0 <= i < |events| :: Moves(states[i], events[i], states[i + 1])
  }

  lemma RunMoves(states: seq<State>, events: seq<Event>, i: nat)
    requires IsRun(states, events) && i < |events|
    ensures Moves(states[i], events[i], states[i + 1])
  {}

  // ------------------------------------------------------------------------------------------
  // Whole handlers: the steps one thread runs in a row.
  // ------------------------------------------------------------------------------------------

  function SendCall(s: State, id: Id, request: Request, resolve: Callback): State {
    Transmit(Register(s, id, request, resolve), id)
  }

  function InvokeNew(s: State, first: nat): State
    requires first <= |s.log.claims|
    decreases |s.log.claims| - first
  {
    if first == |s.log.claims| then s else InvokeNew(Invoke(s, first), first + 1)
  }

  function OnFrame(s: State, f: Frame): State {
    InvokeNew(Reply(s, f), |s.log.claims|)
  }

  function TimeoutHandler(s: State, id: Id): State {
    InvokeNew(TimeoutClaim(TimeoutCount(s, id), id), |s.log.claims|)
  }

  function OnClose(s: State, order: seq<Id>): State
    requires forall id | id in order :: id in s.pending
  {
    InvokeNew(CloseNow(s, order), |s.log.claims|)
  }

  function OnTransportConnected(s: State, id: Id): State {
    SendCall(s.(phase := Booting), id, BOOT, BootCallback)
  }

  function HeartBeatHandler(s: State, token: nat, id: Id): State
    requires token in s.beats.queued
  {
    if s.phase == Ready then Transmit(HeartBeatFire(s, token, id), id) else HeartBeatFire(s, token, id)
  }

  class Session {
    var phase: Phase
    var heartbeatInterval: Int32
    var pending: map<Id, Entry>
    var timers: map<Id, Timer>
    var beats: HeartBeats
    var closes: Closes
    var work: Work
    var log: Log
    var tally: Tally

    function Model(): State
      reads this
    {
      State(phase, heartbeatInterval, pending, timers, beats, closes, work, log, tally)
    }

    constructor ()
      ensures Model() == INITIAL
    {
      phase, heartbeatInterval, pending, timers := Disconnected, 0, map[], map[];
      beats, work := HeartBeats(NoTimer, map[], map[], 0), Work(map[], {}, {}, []);
      closes := Closes(0, {});
      log, tally := Log(map[], [], []), Tally(0, 0, 0, 0, 0, 0);
    }

    // send_call: register under the lock, then hand the line to the transport
    method Send(id: Id, request: Request, resolve: Callback)
      modifies this
      ensures Model() == SendCall(old(Model()), id, request, resolve)
    {
      if id !in pending {
        pending := pending[id := Entry(request.Kind(), resolve)];
        timers := timers[id := Armed];
      }
      log := log.(calls := log.calls[id := request]);
      work := work.(unsent := work.unsent[id := CreateCall(id, request)]);

      log := log.(lines := log.lines + [work.unsent[id]]);
      work := work.(unsent := work.unsent - {id});
    }

    // The locked section shared by replies and timeouts
    method TakeEntry(id: Id, frame: Frame, cause: Cause)
      requires id in pending
      modifies this
      ensures Model() == Take(old(Model()), id, frame, cause)
    {
      if id in timers {
        timers := timers[id := Cancel(timers[id])];
      }
      work := work.(open := work.open + {|log.claims|});
      log := log.(claims := log.claims + [Claim(id, pending[id].resolve, frame, cause)]);
      pending := pending - {id};
    }

    method Run(i: nat)
      requires i < |log.claims|
      modifies this
      ensures Model() == Invoke(old(Model()), i)
    {
      var c := log.claims[i];
      work := work.(open := work.open - {i}, ran := work.ran + [i]);
      if c.cause == ByClose {
        tally := tally.(closedFailures := tally.closedFailures + 1);
      }
      if c.resolve == BootCallback && c.frame.CallResult? {
        var r := DecodeConfirmation(BootKind, c.frame.payload);
        if r.Ok? && r.value.status == "Accepted" {
          phase := Ready;
          heartbeatInterval := r.value.interval;
          tally := tally.(bootSignals := tally.bootSignals + 1);
        }
      }
    }

    method HandleFrame(f: Frame)
      modifies this
      ensures Model() == OnFrame(old(Model()), f)
      ensures !f.Call? && f.messageId in old(pending) ==>
                && |log.claims| == |old(log).claims| + 1 && work.ran == old(work).ran + [|old(log).claims|]
                && IsAnswer(old(pending)[f.messageId].kind, f, log.claims[|old(log).claims|].frame)
    {
      if f.Call? {
        return;
      }
      tally := tally.(replies := tally.replies + 1);
      var id := f.messageId;
      if id !in pending {
        tally := tally.(unmatched := tally.unmatched + 1);
        return;
      }
      var next := |log.claims|;
      TakeEntry(id, Judge(pending[id].kind, f), ByReply);
      Run(next);
      UnfoldOnce(Reply(old(Model()), f), next);
      FrameAnswers(old(Model()), f);
    }

    // on_message: what cannot be parsed is dropped
    method HandleMessage(text: Result<Value>)
      modifies this
      ensures Model() == if text.Ok? && ParseFrame(text.value).Ok?
                         then OnFrame(old(Model()), ParseFrame(text.value).value)
                         else old(Model())
    {
      if text.Ok? {
        var f := ParseFrame(text.value);
        if f.Ok? {
          HandleFrame(f.value);
        }
      }
    }

    method TimerHandler(id: Id)
      modifies this
      ensures Model() == TimeoutHandler(old(Model()), id)
    {
      timers := timers[id := Fired];
      work := work.(counted := work.counted + {id});
      tally := tally.(timeouts := tally.timeouts + 1);

      var next := |log.claims|;
      work := work.(counted := work.counted - {id});
      if id in pending {
        TakeEntry(id, TimeoutFrame(id), ByTimeout);
        Run(next);
        UnfoldOnce(TimeoutClaim(TimeoutCount(old(Model()), id), id), next);
      } else {
        tally := tally.(late := tally.late + 1);
      }
    }

    // The loop of on_close over the pending table: note each id, cancel each timer
    method CollectPending() returns (order: seq<Id>)
      modifies this`timers
      ensures IsOrder(order, old(pending).Keys) && forall id | id in order :: id in old(pending)
      ensures timers == CancelAll(old(timers), old(pending).Keys)
      ensures forall id | id in old(timers) ::
                id in timers && timers[id] == if id in pending && old(timers)[id] == Armed then Cancelled
                                              else old(timers)[id]
    {
      order := [];
      var rest := pending.Keys;
      while rest != {}
        invariant forall i, j | 0 <= i < j < |order| :: order[i] != order[j]
        invariant forall id :: id in pending <==> id in order || id in rest
        invariant forall id | id in order :: id !in rest
        invariant timers == CancelAll(old(timers), pending.Keys - rest)
        decreases rest
      {
        var id :| id in rest;
        order := order + [id];
        if id in timers {
          timers := timers[id := Cancel(timers[id])];
        }
        rest := rest - {id};
      }
      assert pending.Keys - rest == pending.Keys;
    }

    // Move the callbacks out and clear the table
    method ClaimEach(token: nat, order: seq<Id>)
      requires forall id | id in order :: id in pending
      modifies this`work, this`log, this`pending, this`closes
      ensures pending == map[] && closes == old(closes).(running := old(closes).running - {token})
      ensures work == old(work).(open := old(work).open + Span(|old(log).claims|, |old(log).claims| + |order|))
      ensures log == old(log).(claims := old(log).claims + CloseClaims(old(pending), order))
    {
      var n := |log.claims|;
      work := work.(open := work.open + Span(n, n + |order|));
      log := log.(claims := log.claims + CloseClaims(pending, order));
      pending := map[];
      closes := closes.(running := closes.running - {token});
    }

    // The state is written before the lock is taken.
    method WriteClosed() returns (token: nat)
      modifies this`phase, this`closes
      ensures token == old(closes.begun) && Model() == BeginClose(old(Model()))
    {
      token := closes.begun;
      phase := Disconnected;
      closes := Closes(token + 1, closes.running + {token});
    }

    // The locked section of on_close
    method ClaimPending(token: nat) returns (order: seq<Id>)
      modifies this
      ensures IsOrder(order, old(pending).Keys)
      ensures Model() == CloseAll(EndClose(old(Model()), token), order)
    {
      order := CollectPending();
      ClaimEach(token, order);
      ClaimedState(old(Model()), token, order, Model());
    }

    // The callbacks of the claims from this one on, in order
    method RunFrom(first: nat)
      requires first <= |log.claims|
      modifies this
      ensures Model() == InvokeNew(old(Model()), first)
    {
      var next := first;
      while next < |log.claims|
        invariant first <= next <= |log.claims|
        invariant InvokeNew(Model(), next) == InvokeNew(old(Model()), first)
      {
        Run(next);
        next := next + 1;
      }
    }

    /** on_close: every pending call is collected under the lock, then each callback is run once, in that order. */
    method HandleClose() returns (order: seq<Id>)
      modifies this
      ensures IsOrder(order, old(pending).Keys)
      ensures Model() == OnClose(old(Model()), order)
    {
      var next: nat := |log.claims|;
      var token := WriteClosed();
      order := ClaimPending(token);
      RunFrom(next);
    }

    method TransportConnected(id: Id)
      modifies this
      ensures Model() == OnTransportConnected(old(Model()), id)
    {
      phase := Booting;
      Send(id, BOOT, BootCallback);
    }

    // start_heartbeat(): does nothing before a boot has supplied an interval
    method BeginHeartBeat()
      modifies this
      ensures Model() == if heartbeatInterval > 0
                         then old(Model()).(beats := StartHeartBeat(old(beats), heartbeatInterval))
                         else old(Model())
      ensures if heartbeatInterval > 0 then ArmsNew(old(beats), heartbeatInterval, beats) else beats == old(beats)
    {
      if heartbeatInterval > 0 {
        BeginHeartBeatEvery(heartbeatInterval);
      }
    }

    method BeginHeartBeatEvery(interval: Int32)
      modifies this`beats
      ensures beats == StartHeartBeat(old(beats), interval) && ArmsNew(old(beats), interval, beats)
    {
      var armed := beats.armed;
      if beats.owner.Owns? {
        armed := armed - {beats.owner.token};
      }
      beats := HeartBeats(Owns(beats.next), armed[beats.next := interval], beats.queued, beats.next + 1);
    }

    method HeartBeatExpired(token: nat, id: Id)
      requires token in beats.queued
      modifies this
      ensures Model() == HeartBeatHandler(old(Model()), token, id)
    {
      var interval := beats.queued[token];
      beats := beats.(queued := beats.queued - {token});
      if phase != Ready {
        return;
      }
      Send(id, HeartBeat, HeartBeatCallback);
      BeginHeartBeatEvery(interval);
    }
  }

  /**
   Why message ids must be fresh: a call is stored exactly when its id is not already pending for something else.
   With a repeated id its callback is lost, although its line is still sent.
   */
  lemma StoredExactlyWhenFresh(s: State, id: Id, request: Request, resolve: Callback)
    ensures var t := SendCall(s, id, request, resolve);
            && (t.pending[id] == Entry(request.Kind(), resolve) <==>
                  id !in s.pending || s.pending[id] == Entry(request.Kind(), resolve))
            && (id in s.pending ==> t.pending == s.pending && t.timers == s.timers)
            && t.log.lines == s.log.lines + [CreateCall(id, request)]
  {}

  // The callback of the call that f replies to runs, and is given the answer.
  lemma FrameAnswers(s: State, f: Frame)
    requires !f.Call? && f.messageId in s.pending
    ensures var n, t := |s.log.claims|, OnFrame(s, f);
            && |t.log.claims| == n + 1 && t.work.ran == s.work.ran + [n]
            && IsAnswer(s.pending[f.messageId].kind, f, t.log.claims[n].frame)
  {
    JudgeIsAnswer(s.pending[f.messageId].kind, f);
    UnfoldOnce(Reply(s, f), |s.log.claims|);
  }

  lemma UnfoldOnce(s: State, first: nat)
    requires first + 1 == |s.log.claims|
    ensures InvokeNew(s, first) == Invoke(s, first)
  {
    assert InvokeNew(s, first) == InvokeNew(Invoke(s, first), first + 1);
  }
}
