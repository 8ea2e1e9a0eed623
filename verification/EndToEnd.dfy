/**
 A session and a router joined by a network that may lose, duplicate and reorder texts but never forges one.
 */
module EndToEnd {
  import opened Json
  import opened OcppModel
  import opened Session
  import opened SessionRuns
  import opened Router

  // A handler ran for a received Call and ended like this.
  datatype HandlerRun = HandlerRun(id: Id, action: string, payload: Value, request: Request, outcome: HandlerOutcome)

  // The network remembers every text ever sent; any of them may be delivered at any time, again and again, or never.
  datatype System = System(client: State, toServer: set<Value>, toClient: set<Value>, runs: set<HandlerRun>)

  const START := System(INITIAL, {}, {}, {})

  // The client takes a step, or the server handles a text with its handlers behaving as table says this time.
  datatype Happening = Client(e: Event) | Server(x: Value, table: Table)

  ghost predicate CanHappen(s: System, h: Happening) {
    match h
    case Client(e) => Enabled(s.client, e) && (e.DoReply? ==> exists y :: y in s.toClient && ParseFrame(y) == Ok(e.f))
    case Server(x, _) => x in s.toServer
  }

  function RunsOf(table: Table, x: Value): set<HandlerRun> {
    if !IsAddressedCall(x) || x.elems[2].s !in table then {}
    else
      var inv := table[x.elems[2].s];
      match DecodeRequest(inv.req, x.elems[3])
      case Ok(request) => {HandlerRun(x.elems[1].s, x.elems[2].s, x.elems[3], request, inv.handle(request))}
      case Err(_) => {}
  }

  ghost function Happen(s: System, h: Happening): System
    requires CanHappen(s, h)
  {
    match h
    case Client(e) =>
      s.(client := Step(s.client, e),
         toServer := s.toServer + if e.DoTransmit? then {EncodeFrame(s.client.work.unsent[e.id])} else {})
    case Server(x, table) =>
      s.(toClient := s.toClient + {ReplyTo(table, Parsed(x))}, runs := s.runs + RunsOf(table, x))
  }

  ghost predicate Happens(s: System, h: Happening, s': System) {
    CanHappen(s, h) && s' == Happen(s, h)
  }

  ghost predicate IsExecution(states: seq<System>, hs: seq<Happening>) {
    && |states| == |hs| + 1
    && states[0] == START
    && forall i {:trigger hs[i]} | 0 <= i < |hs| :: Happens(states[i], hs[i], states[i + 1])
  }

  lemma ExecutionHappens(states: seq<System>, hs: seq<Happening>, i: nat)
    requires IsExecution(states, hs) && i < |hs|
    ensures Happens(states[i], hs[i], states[i + 1])
  {}

  // ------------------------------------------------------------------------------------------
  // Correspondence.
  // ------------------------------------------------------------------------------------------

  // x is the line of the call made under this id.
  predicate IsLineOf(calls: map<Id, Request>, x: Value, id: Id) {
    id in calls && x == EncodeFrame(CreateCall(id, calls[id]))
  }

  // Some run of the handler for the call's own action, on the call's own payload, returned p.
  ghost predicate Answered(calls: map<Id, Request>, runs: set<HandlerRun>, id: Id, p: Value) {
    id in calls && exists r :: r in runs && Returned(r, id, calls[id], p)
  }

  predicate Returned(r: HandlerRun, id: Id, request: Request, p: Value) {
    && r.id == id && r.action == ActionName(request.Kind()) && r.payload == EncodeRequest(request)
    && r.outcome.Confirm? && EncodeConfirmation(r.outcome.conf) == p
  }

  ghost predicate NetInv(s: System) {
    var calls := s.client.log.calls;
    && (forall id | id in s.client.work.unsent :: id in calls && s.client.work.unsent[id] == CreateCall(id, calls[id]))
    && (forall x | x in s.toServer :: exists id :: IsLineOf(calls, x, id))
    && (forall y | y in s.toClient :: ParseFrame(y).Ok?
          && (ParseFrame(y).value.CallResult? ==>
                Answered(calls, s.runs, ParseFrame(y).value.messageId, ParseFrame(y).value.payload)))
    && (forall c | c in s.client.log.claims ::
          c.frame.CallResult? ==> Answered(calls, s.runs, c.frame.messageId, c.frame.payload))
  }

  lemma LineIsAddressed(calls: map<Id, Request>, x: Value, id: Id)
    requires IsLineOf(calls, x, id)
    ensures IsAddressedCall(x) && x.elems[1].s == id
    ensures x.elems[2].s == ActionName(calls[id].Kind()) && x.elems[3] == EncodeRequest(calls[id])
  {}

  // Calls and runs are never forgotten.
  lemma AnsweredStays(calls: map<Id, Request>, calls': map<Id, Request>, runs: set<HandlerRun>, runs': set<HandlerRun>,
                      id: Id, p: Value)
    requires Answered(calls, runs, id, p)
    requires runs <= runs' && forall i | i in calls :: i in calls' && calls'[i] == calls[i]
    ensures Answered(calls', runs', id, p)
  {}

  lemma CallsStay(s: State, e: Event)
    requires Enabled(s, e)
    ensures forall id | id in s.log.calls :: id in Step(s, e).log.calls && Step(s, e).log.calls[id] == s.log.calls[id]
  {}

  // Only a reply brings a result: a step's new claims hold errors of the session's own, or the reply judged.
  lemma NewClaims(s: State, e: Event)
    requires Enabled(s, e)
    ensures forall c | c in Step(s, e).log.claims :: c in s.log.claims
              || (c.frame.CallError? && c.frame.errorCode != "ProtocolError")
              || (e.DoReply? && e.f.messageId in s.pending && c.frame == Judge(s.pending[e.f.messageId].kind, e.f))
  {
    assert "Timeout"[0] == 'T' && "ConnectionClosed"[0] == 'C' && "ProtocolError"[0] == 'P';
  }

  lemma UnsentStays(s: State, e: Event)
    requires Enabled(s, e)
    requires forall id | id in s.work.unsent ::
               id in s.log.calls && s.work.unsent[id] == CreateCall(id, s.log.calls[id])
    ensures var t := Step(s, e);
            forall id | id in t.work.unsent :: id in t.log.calls && t.work.unsent[id] == CreateCall(id, t.log.calls[id])
  {}

  lemma ServerAnswers(calls: map<Id, Request>, x: Value, id: Id, table: Table)
    requires IsLineOf(calls, x, id)
    ensures var reply := ReplyFrame(table, Parsed(x));
            && ParseFrame(ReplyTo(table, Parsed(x))) == Ok(reply) && !reply.Call? && reply.messageId == id
            && (reply.CallResult? ==> Answered(calls, RunsOf(table, x), id, reply.payload))
  {
    LineIsAddressed(calls, x, id);
    ReplyParses(table, Parsed(x));
    ResultExactlyWhenConfirmed(table, Parsed(x));
    AddressedCallIsAnswered(table, x);
    if ReplyFrame(table, Parsed(x)).CallResult? {
      var inv := table[x.elems[2].s];
      var request := DecodeRequest(inv.req, x.elems[3]).value;
      var r := HandlerRun(id, x.elems[2].s, x.elems[3], request, inv.handle(request));
      assert r in RunsOf(table, x) && Returned(r, id, calls[id], ReplyFrame(table, Parsed(x)).payload);
    }
  }

  lemma ClientKeepsNet(s: System, e: Event)
    requires NetInv(s) && CanHappen(s, Client(e))
    ensures NetInv(Happen(s, Client(e)))
  {
    var s' := Happen(s, Client(e));
    var calls, calls' := s.client.log.calls, s'.client.log.calls;
    CallsStay(s.client, e);
    UnsentStays(s.client, e);
    NewClaims(s.client, e);
    forall x | x in s'.toServer
      ensures exists id :: IsLineOf(calls', x, id)
    {
      if x in s.toServer {
        var id :| IsLineOf(calls, x, id);
        assert IsLineOf(calls', x, id);
      } else {
        assert IsLineOf(calls', x, e.id);
      }
    }
    forall y | y in s'.toClient && ParseFrame(y).value.CallResult?
      ensures Answered(calls', s'.runs, ParseFrame(y).value.messageId, ParseFrame(y).value.payload)
    {
      AnsweredStays(calls, calls', s.runs, s'.runs, ParseFrame(y).value.messageId, ParseFrame(y).value.payload);
    }
    forall c | c in s'.client.log.claims && c.frame.CallResult?
      ensures Answered(calls', s'.runs, c.frame.messageId, c.frame.payload)
    {
      if c !in s.client.log.claims {
        var y :| y in s.toClient && ParseFrame(y) == Ok(e.f);
        assert c.frame == e.f;
      }
      AnsweredStays(calls, calls', s.runs, s'.runs, c.frame.messageId, c.frame.payload);
    }
  }

  lemma ServerKeepsNet(s: System, x: Value, table: Table)
    requires NetInv(s) && x in s.toServer
    ensures NetInv(Happen(s, Server(x, table)))
  {
    var s' := Happen(s, Server(x, table));
    var calls := s.client.log.calls;
    var id :| IsLineOf(calls, x, id);
    ServerAnswers(calls, x, id, table);
    forall y | y in s'.toClient
      ensures ParseFrame(y).Ok?
      ensures ParseFrame(y).value.CallResult? ==>
                Answered(calls, s'.runs, ParseFrame(y).value.messageId, ParseFrame(y).value.payload)
    {
      if ParseFrame(y).value.CallResult? {
        if y in s.toClient {
          AnsweredStays(calls, calls, s.runs, s'.runs, ParseFrame(y).value.messageId, ParseFrame(y).value.payload);
        } else {
          AnsweredStays(calls, calls, RunsOf(table, x), s'.runs,
                        ParseFrame(y).value.messageId, ParseFrame(y).value.payload);
        }
      }
    }
    forall c | c in s'.client.log.claims && c.frame.CallResult?
      ensures Answered(calls, s'.runs, c.frame.messageId, c.frame.payload)
    {
      AnsweredStays(calls, calls, s.runs, s'.runs, c.frame.messageId, c.frame.payload);
    }
  }

  lemma StartNet(s: System)
    requires s == START
    ensures NetInv(s)
  {}

  lemma HappensKeepsInv(s: System, h: Happening, s': System)
    requires NetInv(s) && Inv(s.client) && Happens(s, h, s')
    ensures NetInv(s') && Inv(s'.client)
  {
    match h
    case Client(e) =>
      ClientKeepsNet(s, e);
      StepKeepsInv(s.client, e);
    case Server(x, table) => ServerKeepsNet(s, x, table);
  }

  lemma {:induction false} ExecutionKeepsInv(states: seq<System>, hs: seq<Happening>, n: nat)
    requires IsExecution(states, hs) && n < |states|
    ensures NetInv(states[n]) && Inv(states[n].client)
  {
    if n == 0 {
      StartNet(states[0]);
      InitialInv();
    } else {
      var i := n - 1;
      ExecutionKeepsInv(states, hs, i);
      ExecutionHappens(states, hs, i);
      HappensKeepsInv(states[i], hs[i], states[i + 1]);
    }
  }

  /**
   End-to-end correspondence. In every execution, a callback given a CallResult belongs to a call that was made, under
   the id of that result; the handler registered for that call's own action ran on that call's own payload, and one
   such run returned the confirmation the callback is given.
   */
  lemma ResultsComeFromTheHandler(states: seq<System>, hs: seq<Happening>, n: nat, i: nat)
    requires IsExecution(states, hs) && n < |states| && i < |states[n].client.log.claims|
    requires states[n].client.log.claims[i].frame.CallResult?
    ensures var s, c := states[n], states[n].client.log.claims[i];
            c.frame.messageId == c.id && Answered(s.client.log.calls, s.runs, c.id, c.frame.payload)
  {
    ExecutionKeepsInv(states, hs, n);
  }

  // ------------------------------------------------------------------------------------------
  // Type agreement.
  // ------------------------------------------------------------------------------------------

  // Each handler is registered for its own action and its Conf is the ExpectedResponse of its Req.
  ghost predicate Agrees(table: Table) {
    forall k: Kind | ActionName(k) in table ::
      && table[ActionName(k)].req == k
      && forall r: Request ::
           table[ActionName(k)].handle(r).Confirm? ==> table[ActionName(k)].handle(r).conf.Kind() == k
  }

  ghost predicate ServerAgrees(hs: seq<Happening>) {
    forall i | 0 <= i < |hs| :: hs[i].Server? ==> Agrees(hs[i].table)
  }

  // A reply the call's validator accepts, or an error that is not the validator's
  ghost predicate Clean(calls: map<Id, Request>, f: Frame) {
    && (f.CallResult? ==> f.messageId in calls && DecodeConfirmation(calls[f.messageId].Kind(), f.payload).Ok?)
    && (f.CallError? ==> f.errorCode != "ProtocolError")
  }

  ghost predicate CleanInv(s: System) {
    var calls := s.client.log.calls;
    && (forall y | y in s.toClient :: ParseFrame(y).Ok? && Clean(calls, ParseFrame(y).value))
    && (forall c | c in s.client.log.claims :: Clean(calls, c.frame))
    && (forall r | r in s.runs && r.id in calls :: r.request == calls[r.id])
  }

  lemma AgreeingReplyIsClean(calls: map<Id, Request>, x: Value, id: Id, table: Table)
    requires IsLineOf(calls, x, id) && Agrees(table)
    ensures ParseFrame(ReplyTo(table, Parsed(x))) == Ok(ReplyFrame(table, Parsed(x)))
    ensures Clean(calls, ReplyFrame(table, Parsed(x)))
    ensures forall r | r in RunsOf(table, x) :: r.id == id && r.request == calls[id]
  {
    var k := calls[id].Kind();
    LineIsAddressed(calls, x, id);
    RequestRoundTrip(calls[id]);
    ReplyParses(table, Parsed(x));
    AddressedCallIsAnswered(table, x);
    if ActionName(k) in table {
      match table[ActionName(k)].handle(calls[id])
      case Confirm(conf) => ValidatorAcceptsExpected(k, conf);
      case _ =>
    }
    assert "NotImplemented"[0] == 'N' && "InternalError"[0] == 'I';
    assert "FormationViolation"[0] == 'F' && "ProtocolError"[0] == 'P';
  }

  lemma ServerKeepsClean(s: System, x: Value, table: Table)
    requires NetInv(s) && CleanInv(s) && x in s.toServer && Agrees(table)
    ensures CleanInv(Happen(s, Server(x, table)))
  {
    var id :| IsLineOf(s.client.log.calls, x, id);
    AgreeingReplyIsClean(s.client.log.calls, x, id, table);
  }

  lemma ClientKeepsClean(s: System, e: Event)
    requires CleanInv(s) && FrameInv(s.client) && CanHappen(s, Client(e))
    requires forall r | r in s.runs :: r.id in s.client.log.calls
    ensures CleanInv(Happen(s, Client(e)))
  {
    CallsStay(s.client, e);
    NewClaims(s.client, e);
    var s' := Happen(s, Client(e));
    var calls := s'.client.log.calls;
    forall c | c in s'.client.log.claims
      ensures Clean(calls, c.frame)
    {
      if c !in s.client.log.claims && !(c.frame.CallError? && c.frame.errorCode != "ProtocolError") {
        var y :| y in s.toClient && ParseFrame(y) == Ok(e.f);
        assert Clean(s.client.log.calls, e.f);
      }
    }
  }

  // A handler only ever ran for a call that was made.
  ghost predicate RunsAreOfCalls(s: System) {
    forall r | r in s.runs :: r.id in s.client.log.calls
  }

  lemma RunsStayOfCalls(s: System, h: Happening)
    requires NetInv(s) && RunsAreOfCalls(s) && CanHappen(s, h)
    ensures RunsAreOfCalls(Happen(s, h))
  {
    match h
    case Client(e) => CallsStay(s.client, e);
    case Server(x, table) =>
      var id :| IsLineOf(s.client.log.calls, x, id);
      LineIsAddressed(s.client.log.calls, x, id);
  }

  lemma HappensKeepsClean(s: System, h: Happening, s': System)
    requires NetInv(s) && Inv(s.client) && CleanInv(s) && RunsAreOfCalls(s) && Happens(s, h, s')
    requires h.Server? ==> Agrees(h.table)
    ensures CleanInv(s') && RunsAreOfCalls(s')
  {
    RunsStayOfCalls(s, h);
    match h
    case Client(e) => ClientKeepsClean(s, e);
    case Server(x, table) => ServerKeepsClean(s, x, table);
  }

  lemma {:induction false} ExecutionKeepsClean(states: seq<System>, hs: seq<Happening>, n: nat)
    requires IsExecution(states, hs) && n < |states| && ServerAgrees(hs)
    ensures CleanInv(states[n]) && RunsAreOfCalls(states[n])
  {
    if n > 0 {
      var i := n - 1;
      ExecutionKeepsClean(states, hs, i);
      ExecutionKeepsInv(states, hs, i);
      ExecutionHappens(states, hs, i);
      HappensKeepsClean(states[i], hs[i], states[i + 1]);
    }
  }

  /**
   If every handler's Conf is the ExpectedResponse of its Req, no validator ever rejects a reply and no ProtocolError
   reaches a callback; and the handlers ran on exactly the request values the calls were made with.
   */
  lemma NoProtocolError(states: seq<System>, hs: seq<Happening>, n: nat)
    requires IsExecution(states, hs) && n < |states| && ServerAgrees(hs)
    ensures forall c | c in states[n].client.log.claims :: c.frame.CallError? ==> c.frame.errorCode != "ProtocolError"
    ensures forall r | r in states[n].runs ::
              r.id in states[n].client.log.calls && r.request == states[n].client.log.calls[r.id]
  {
    ExecutionKeepsClean(states, hs, n);
  }
}
