/**
 The client loop and a router joined by a network: any number of sessions, one after the other, each on a transport of
 its own. Every text a transport wrote may reach the server at any time, again and again, or never; every reply may
 reach the current session likewise, also a reply to a call of an earlier one. Nothing is forged.
 */
module LoopNetwork {
  import opened OcppModel
  import opened Json
  import opened Router
  import C = ClientLoop
  import E = EndToEnd
  import LR = LoopRuns
  import S = Session
  import SR = SessionRuns
  import R = Reconnect

  datatype System = System(loop: C.State, toClient: set<Value>, runs: set<E.HandlerRun>)

  const START := System(C.INITIAL, {}, {})

  // The loop takes a step, or the server handles text i of transport t with its handlers behaving as table says.
  datatype Happening = Loop(e: C.Event) | Server(t: nat, i: nat, table: Table)

  ghost predicate CanHappen(s: System, h: Happening) {
    match h
    case Loop(e) =>
      && C.Enabled(s.loop, e)
      && (e.SessionSteps? && e.step.DoReply? ==> exists y :: y in s.toClient && ParseFrame(y) == Ok(e.step.f))
    case Server(t, i, _) => t < |s.loop.transports| && i < |LR.Written(s.loop, t)|
  }

  ghost function Happen(u: C.Setup, s: System, h: Happening): System
    requires CanHappen(s, h)
  {
    match h
    case Loop(e) => s.(loop := C.Step(u, s.loop, e))
    case Server(t, i, table) =>
      var x := EncodeFrame(LR.Written(s.loop, t)[i]);
      s.(toClient := s.toClient + {ReplyTo(table, Parsed(x))}, runs := s.runs + E.RunsOf(table, x))
  }

  ghost predicate Happens(u: C.Setup, s: System, h: Happening, s': System) {
    CanHappen(s, h) && s' == Happen(u, s, h)
  }

  ghost predicate IsExecution(u: C.Setup, states: seq<System>, hs: seq<Happening>) {
    && |states| == |hs| + 1
    && states[0] == START
    && forall i {:trigger hs[i]} | 0 <= i < |hs| :: Happens(u, states[i], hs[i], states[i + 1])
  }

  lemma ExecutionHappens(u: C.Setup, states: seq<System>, hs: seq<Happening>, i: nat)
    requires IsExecution(u, states, hs) && i < |hs|
    ensures Happens(u, states[i], hs[i], states[i + 1])
  {}

  // ------------------------------------------------------------------------------------------
  // What the loop does to calls and claims.
  // ------------------------------------------------------------------------------------------

  function CallsOf(c: C.Client): map<S.Id, Request> {
    c.session.log.calls
  }

  // Sessions stay, and so do their calls.
  ghost predicate CallsGrow(cs: seq<C.Client>, cs': seq<C.Client>) {
    && |cs| <= |cs'|
    && forall k | 0 <= k < |cs| ::
         forall id | id in CallsOf(cs[k]) :: id in CallsOf(cs'[k]) && CallsOf(cs'[k])[id] == CallsOf(cs[k])[id]
  }

  // A claim of session k that gives its callback a result is old, or made by a reply to a pending call of session k.
  ghost predicate FromReply(cs: seq<C.Client>, e: C.Event, k: nat, c: S.Claim) {
    || (k < |cs| && c in cs[k].session.log.claims)
    || (k < |cs| && e.SessionSteps? && e.k == k && e.step.DoReply? && e.step.f.messageId in cs[k].session.pending
        && c.frame == S.Judge(cs[k].session.pending[e.step.f.messageId].kind, e.step.f))
  }

  ghost predicate ResultsFromReplies(cs: seq<C.Client>, e: C.Event, cs': seq<C.Client>) {
    forall k, c | 0 <= k < |cs'| && c in cs'[k].session.log.claims && c.frame.CallResult? :: FromReply(cs, e, k, c)
  }

  lemma SessionStepGrows(u: C.Setup, s: C.State, k: nat, step: S.Event)
    requires C.Enabled(s, C.SessionSteps(k, step))
    ensures CallsGrow(s.sessions, C.Step(u, s, C.SessionSteps(k, step)).sessions)
    ensures ResultsFromReplies(s.sessions, C.SessionSteps(k, step), C.Step(u, s, C.SessionSteps(k, step)).sessions)
  {
    E.CallsStay(s.sessions[k].session, step);
    E.NewClaims(s.sessions[k].session, step);
  }

  // A close claims errors only.
  lemma ClosedClaims(s: S.State, order: seq<S.Id>)
    requires forall id | id in order :: id in s.pending
    ensures S.CloseNow(s, order).log.calls == s.log.calls
    ensures forall c | c in S.CloseNow(s, order).log.claims && c.frame.CallResult? :: c in s.log.claims
  {}

  lemma CloseGrows(c: R.Config, s: C.State, e: C.Event, t: nat, order: seq<S.Id>)
    requires t < |s.transports| && (s.transports[t].life == C.Opening ==> s.rc.outstanding > 0)
    requires s.sessions != [] && forall id | id in order :: id in s.sessions[|s.sessions| - 1].session.pending
    ensures var s' := C.CloseTransport(c, s, t, order);
            CallsGrow(s.sessions, s'.sessions) && ResultsFromReplies(s.sessions, e, s'.sessions)
  {
    ClosedClaims(s.sessions[|s.sessions| - 1].session, order);
  }

  lemma OpenGrows(c: R.Config, s: C.State, e: C.Event, id: S.Id)
    requires s.transports != [] && s.rc.outstanding > 0
    ensures var s' := C.OpenTransport(c, s, id);
            CallsGrow(s.sessions, s'.sessions) && ResultsFromReplies(s.sessions, e, s'.sessions)
  {
    assert S.OnTransportConnected(S.INITIAL, id).log.claims == [];
  }

  lemma LoopGrows(u: C.Setup, s: C.State, e: C.Event)
    requires C.Enabled(s, e)
    ensures CallsGrow(s.sessions, C.Step(u, s, e).sessions)
    ensures ResultsFromReplies(s.sessions, e, C.Step(u, s, e).sessions)
  {
    match e
    case SessionSteps(k, step) => SessionStepGrows(u, s, k, step);
    case TransportCloses(t, order) => CloseGrows(u.config, s, e, t, order);
    case Opened(id) => OpenGrows(u.config, s, e, id);
    case _ =>
  }

  // ------------------------------------------------------------------------------------------
  // Correspondence.
  // ------------------------------------------------------------------------------------------

  // Some session made this call, and some run of its handler returned p.
  ghost predicate AnsweredIn(cs: seq<C.Client>, runs: set<E.HandlerRun>, id: S.Id, p: Value) {
    exists k :: 0 <= k < |cs| && E.Answered(CallsOf(cs[k]), runs, id, p)
  }

  // What may be sent to the client
  ghost predicate IsTrueReply(cs: seq<C.Client>, runs: set<E.HandlerRun>, y: Value) {
    && ParseFrame(y).Ok?
    && (ParseFrame(y).value.CallResult? ==>
          AnsweredIn(cs, runs, ParseFrame(y).value.messageId, ParseFrame(y).value.payload))
  }

  ghost predicate RepliesInv(s: System) {
    forall y | y in s.toClient :: IsTrueReply(s.loop.sessions, s.runs, y)
  }

  ghost predicate ClaimsInv(s: System) {
    forall k, c | 0 <= k < |s.loop.sessions| && c in s.loop.sessions[k].session.log.claims && c.frame.CallResult? ::
      E.Answered(CallsOf(s.loop.sessions[k]), s.runs, c.frame.messageId, c.frame.payload)
  }

  lemma AnsweredInStays(cs: seq<C.Client>, cs': seq<C.Client>, runs: set<E.HandlerRun>, runs': set<E.HandlerRun>,
                        id: S.Id, p: Value)
    requires AnsweredIn(cs, runs, id, p) && CallsGrow(cs, cs') && runs <= runs'
    ensures AnsweredIn(cs', runs', id, p)
  {
    var k :| 0 <= k < |cs| && E.Answered(CallsOf(cs[k]), runs, id, p);
    E.AnsweredStays(CallsOf(cs[k]), CallsOf(cs'[k]), runs, runs', id, p);
  }

  // Ids are not shared, so the session that made the call is the one that has it pending.
  lemma AnsweredHere(cs: seq<C.Client>, runs: set<E.HandlerRun>, k: nat, id: S.Id, p: Value)
    requires LR.IdsApart(cs) && k < |cs| && id in CallsOf(cs[k]) && AnsweredIn(cs, runs, id, p)
    ensures E.Answered(CallsOf(cs[k]), runs, id, p)
  {
    var l :| 0 <= l < |cs| && E.Answered(CallsOf(cs[l]), runs, id, p);
    assert id in CallsOf(cs[l]).Keys && id in CallsOf(cs[k]).Keys;
  }

  lemma PendingIsCalled(cs: seq<C.Client>, k: nat, id: S.Id)
    requires LR.All(LR.SoundSession, cs) && k < |cs| && id in cs[k].session.pending
    ensures id in CallsOf(cs[k])
  {
    assert LR.SoundSession(cs[k]);
  }

  lemma NewResult(s: System, k: nat, f: Frame, y: Value)
    requires LR.IdsApart(s.loop.sessions) && RepliesInv(s) && k < |s.loop.sessions|
    requires y in s.toClient && ParseFrame(y) == Ok(f) && f.CallResult? && f.messageId in CallsOf(s.loop.sessions[k])
    ensures E.Answered(CallsOf(s.loop.sessions[k]), s.runs, f.messageId, f.payload)
  {
    assert IsTrueReply(s.loop.sessions, s.runs, y);
    AnsweredHere(s.loop.sessions, s.runs, k, f.messageId, f.payload);
  }

  lemma LoopKeepsReplies(s: System, s': System)
    requires RepliesInv(s) && CallsGrow(s.loop.sessions, s'.loop.sessions)
    requires s'.toClient == s.toClient && s.runs <= s'.runs
    ensures RepliesInv(s')
  {
    forall y | y in s'.toClient
      ensures IsTrueReply(s'.loop.sessions, s'.runs, y)
    {
      assert IsTrueReply(s.loop.sessions, s.runs, y);
      if ParseFrame(y).value.CallResult? {
        AnsweredInStays(s.loop.sessions, s'.loop.sessions, s.runs, s'.runs,
                        ParseFrame(y).value.messageId, ParseFrame(y).value.payload);
      }
    }
  }

  lemma LoopKeepsClaims(s: System, e: C.Event, s': System)
    requires LR.IdsApart(s.loop.sessions) && LR.All(LR.SoundSession, s.loop.sessions)
    requires RepliesInv(s) && ClaimsInv(s) && CanHappen(s, Loop(e)) && s'.runs == s.runs
    requires CallsGrow(s.loop.sessions, s'.loop.sessions) && ResultsFromReplies(s.loop.sessions, e, s'.loop.sessions)
    ensures ClaimsInv(s')
  {
    var cs, cs' := s.loop.sessions, s'.loop.sessions;
    forall k, c | 0 <= k < |cs'| && c in cs'[k].session.log.claims && c.frame.CallResult?
      ensures E.Answered(CallsOf(cs'[k]), s'.runs, c.frame.messageId, c.frame.payload)
    {
      assert FromReply(cs, e, k, c);
      if c !in cs[k].session.log.claims {
        var f := e.step.f;
        var y :| y in s.toClient && ParseFrame(y) == Ok(f);
        assert c.frame == f;
        PendingIsCalled(cs, k, f.messageId);
        NewResult(s, k, f, y);
      }
      E.AnsweredStays(CallsOf(cs[k]), CallsOf(cs'[k]), s.runs, s'.runs, c.frame.messageId, c.frame.payload);
    }
  }

  // A text on the wire is the line of a call of some session.
  lemma WrittenIsLine(s: C.State, t: nat, i: nat) returns (k: nat, id: S.Id)
    requires LR.WireInv(s.transports, s.sessions) && t < |s.transports| && i < |LR.Written(s, t)|
    ensures k < |s.sessions| && E.IsLineOf(CallsOf(s.sessions[k]), EncodeFrame(LR.Written(s, t)[i]), id)
  {
    var a := LR.WhereWrittenWasPosted(s.transports, s.sessions, t, i);
    k := LR.FindOwner(s.transports, s.sessions, t, a);
    id := LR.Written(s, t)[i].messageId;
    LineIsCall(s.sessions[k], a);
  }

  lemma LineIsCall(c: C.Client, a: nat)
    requires LR.SoundSession(c) && a < |c.session.log.lines|
    ensures c.session.log.lines[a].messageId in CallsOf(c)
    ensures c.session.log.lines[a]
         == CreateCall(c.session.log.lines[a].messageId, CallsOf(c)[c.session.log.lines[a].messageId])
  {
    assert SR.WireInv(c.session);
  }

  lemma ReplyIsTrue(cs: seq<C.Client>, runs: set<E.HandlerRun>, k: nat, id: S.Id, x: Value, table: Table)
    requires k < |cs| && E.IsLineOf(CallsOf(cs[k]), x, id) && E.RunsOf(table, x) <= runs
    ensures IsTrueReply(cs, runs, ReplyTo(table, Parsed(x)))
  {
    var calls, reply := CallsOf(cs[k]), ReplyFrame(table, Parsed(x));
    E.ServerAnswers(calls, x, id, table);
    if reply.CallResult? {
      E.AnsweredStays(calls, calls, E.RunsOf(table, x), runs, id, reply.payload);
    }
  }

  lemma WrittenIsAnswered(s: C.State, t: nat, i: nat, table: Table, runs: set<E.HandlerRun>)
    requires LR.WireInv(s.transports, s.sessions) && t < |s.transports| && i < |LR.Written(s, t)|
    requires E.RunsOf(table, EncodeFrame(LR.Written(s, t)[i])) <= runs
    ensures IsTrueReply(s.sessions, runs, ReplyTo(table, Parsed(EncodeFrame(LR.Written(s, t)[i]))))
  {
    var k, id := WrittenIsLine(s, t, i);
    ReplyIsTrue(s.sessions, runs, k, id, EncodeFrame(LR.Written(s, t)[i]), table);
  }

  lemma ReplyKeepsReplies(s: System, y: Value, s': System)
    requires RepliesInv(s) && s'.loop == s.loop && s'.toClient == s.toClient + {y} && s.runs <= s'.runs
    requires IsTrueReply(s.loop.sessions, s'.runs, y)
    ensures RepliesInv(s')
  {
    LoopKeepsReplies(s, s'.(toClient := s.toClient));
  }

  lemma ServerKeepsClaims(s: System, s': System)
    requires ClaimsInv(s) && s'.loop == s.loop && s.runs <= s'.runs
    ensures ClaimsInv(s')
  {
    var cs := s.loop.sessions;
    forall k, c | 0 <= k < |cs| && c in cs[k].session.log.claims && c.frame.CallResult?
      ensures E.Answered(CallsOf(cs[k]), s'.runs, c.frame.messageId, c.frame.payload)
    {
      E.AnsweredStays(CallsOf(cs[k]), CallsOf(cs[k]), s.runs, s'.runs, c.frame.messageId, c.frame.payload);
    }
  }

  ghost predicate NetInv(s: System) {
    LR.Holds(LR.Wired, s.loop) && RepliesInv(s) && ClaimsInv(s)
  }

  lemma LoopKeepsNet(u: C.Setup, s: System, e: C.Event, s': System)
    requires NetInv(s) && CanHappen(s, Loop(e)) && s' == Happen(u, s, Loop(e))
    ensures NetInv(s')
  {
    LR.WireStep(u, s.loop, e);
    LoopGrows(u, s.loop, e);
    LoopKeepsReplies(s, s');
    assert LR.Wired(s.loop);
    LoopKeepsClaims(s, e, s');
  }

  lemma ServerKeepsNet(u: C.Setup, s: System, t: nat, i: nat, table: Table, s': System)
    requires NetInv(s) && CanHappen(s, Server(t, i, table)) && s' == Happen(u, s, Server(t, i, table))
    ensures NetInv(s')
  {
    assert LR.Wired(s.loop);
    WrittenIsAnswered(s.loop, t, i, table, s'.runs);
    ReplyKeepsReplies(s, ReplyTo(table, Parsed(EncodeFrame(LR.Written(s.loop, t)[i]))), s');
    ServerKeepsClaims(s, s');
  }

  lemma {:induction false} ExecutionKeepsInv(u: C.Setup, states: seq<System>, hs: seq<Happening>, n: nat)
    requires IsExecution(u, states, hs) && n < |states|
    ensures NetInv(states[n])
  {
    if n > 0 {
      var m := n - 1;
      ExecutionKeepsInv(u, states, hs, m);
      ExecutionHappens(u, states, hs, m);
      match hs[m]
      case Loop(e) => LoopKeepsNet(u, states[m], e, states[n]);
      case Server(t, i, table) => ServerKeepsNet(u, states[m], t, i, table, states[n]);
    }
  }

  /**
   End-to-end correspondence for the whole loop, through any number of closes and reconnects: a callback of any session
   that is given a CallResult belongs to a call of that session, under the id of the result; the handler registered for
   that call's own action ran on that call's own payload, and one such run returned what the callback is given.
   */
  lemma ResultsComeFromTheHandler(u: C.Setup, states: seq<System>, hs: seq<Happening>, n: nat, k: nat, i: nat)
    requires IsExecution(u, states, hs) && n < |states| && k < |states[n].loop.sessions|
    requires i < |states[n].loop.sessions[k].session.log.claims|
    requires states[n].loop.sessions[k].session.log.claims[i].frame.CallResult?
    ensures var c := states[n].loop.sessions[k].session.log.claims[i];
            && c.frame.messageId == c.id
            && E.Answered(CallsOf(states[n].loop.sessions[k]), states[n].runs, c.id, c.frame.payload)
  {
    ExecutionKeepsInv(u, states, hs, n);
    assert LR.Wired(states[n].loop);
    ClaimsKeepIds(states[n].loop.sessions, k, i);
  }

  lemma ClaimsKeepIds(cs: seq<C.Client>, k: nat, i: nat)
    requires LR.All(LR.SoundSession, cs) && k < |cs| && i < |cs[k].session.log.claims|
    ensures cs[k].session.log.claims[i].frame.messageId == cs[k].session.log.claims[i].id
  {
    assert LR.SoundSession(cs[k]);
  }
}
