/**
 Server-side dispatch of raw frames to typed handlers (router.hpp, router.cpp).
 */
module Router {
  import opened Json
  import opened OcppModel

  // What JSON parsing makes of the received text.
  datatype Incoming = Malformed(what: string) | Parsed(value: Value)

  // A handler returns a confirmation or an error string, or throws a std::exception.
  datatype HandlerOutcome = Confirm(conf: Confirmation) | Refuse(error: string) | Raise(what: string)

  // The lambda stored by register_handler<Tag, Req, Conf>
  datatype Invoker = Invoker(req: Kind, handle: Request -> HandlerOutcome)

  type Table = map<string, Invoker>

  function ErrorReply(id: string, code: string, description: string): Frame {
    CallError(4, id, code, description, EMPTY_OBJECT)
  }

  function InvokerReply(inv: Invoker, id: string, payload: Value): Frame {
    match DecodeRequest(inv.req, payload)
    case Err(what) => ErrorReply(id, "FormationViolation", what)
    case Ok(req) =>
      match inv.handle(req)
      case Confirm(conf) => CallResult(3, id, EncodeConfirmation(conf))
      case Refuse(error) => ErrorReply(id, "InternalError", error)
      case Raise(what) => ErrorReply(id, "FormationViolation", what)
  }

  const WRONG_LENGTH := "Call must have 4 elements[2, messageId, action, payload]"

  function BestEffortId(x: Value): string
    requires x.Arr?
  {
    match At(x, 1)
    case Ok(Str(id)) => id
    case _ => ""
  }

  // The try block of handle_incoming: the reply it sends, or the exception that leaves it.
  function Dispatch(table: Table, frame: Incoming): Result<Frame> {
    match frame
    case Malformed(what) => Err(what)
    case Parsed(x) =>
      if !x.Arr? || |x.elems| < 3 then Ok(ErrorReply("", "FormationViolation", "Invalid frame format"))
      else
        var tag :- AsInt(x.elems[0]);
        if tag != 2 then
          Ok(ErrorReply(BestEffortId(x), "ProtocolError", "Expected Call (messageTypeId 2) on this path"))
        else if |x.elems| != 4 then
          Ok(ErrorReply(BestEffortId(x), "FormationViolation", WRONG_LENGTH))
        else
          var action :- AsString(x.elems[2]);
          if action in table then Ok(InvokerReply(table[action], BestEffortId(x), x.elems[3]))
          else
            var id :- AsString(x.elems[1]);
            Ok(ErrorReply(id, "NotImplemented", "Unknown action: " + action))
  }

  // The reply to one received text, as a frame and as sent
  function ReplyFrame(table: Table, frame: Incoming): Frame {
    match Dispatch(table, frame)
    case Ok(reply) => reply
    case Err(what) => ErrorReply("", "FormationViolation", what)
  }

  function ReplyTo(table: Table, frame: Incoming): Value {
    EncodeFrame(ReplyFrame(table, frame))
  }

  // The send callback, recording what it was given.
  class Outbox {
    var sent: seq<Value>

    constructor ()
      ensures sent == []
    {
      sent := [];
    }

    method Send(reply: Value)
      modifies this
      ensures sent == old(sent) + [reply]
    {
      sent := sent + [reply];
    }
  }

  class Router {
    var table: Table

    constructor ()
      ensures table == map[]
    {
      table := map[];
    }

    // register_handler: a second registration of an action replaces the first
    method RegisterHandler(action: string, req: Kind, handle: Request -> HandlerOutcome)
      modifies this
      ensures table == old(table)[action := Invoker(req, handle)]
    {
      table := table[action := Invoker(req, handle)];
    }

    method SendError(id: string, code: string, description: string, out: Outbox)
      modifies out
      ensures out.sent == old(out.sent) + [EncodeFrame(ErrorReply(id, code, description))]
    {
      out.Send(Arr([Int(4), Str(id), Str(code), Str(description), EMPTY_OBJECT]));
    }

    // The invoker's body, whose own try block turns every exception into a FormationViolation
    method Invoke(inv: Invoker, id: string, payload: Value, out: Outbox)
      modifies out
      ensures out.sent == old(out.sent) + [EncodeFrame(InvokerReply(inv, id, payload))]
    {
      var req := DecodeRequest(inv.req, payload);
      if req.Err? {
        SendError(id, "FormationViolation", req.what, out);
        return;
      }
      match inv.handle(req.value) {
        case Confirm(conf) => out.Send(Arr([Int(3), Str(id), EncodeConfirmation(conf)]));
        case Refuse(error) => SendError(id, "InternalError", error, out);
        case Raise(what) => SendError(id, "FormationViolation", what, out);
      }
    }

    // The try block: either one reply was sent, or an exception leaves it and nothing was sent
    method Try(frame: Incoming, out: Outbox) returns (r: Result<()>)
      modifies out
      ensures r.Ok? ==>
                Dispatch(table, frame).Ok? && out.sent == old(out.sent) + [EncodeFrame(Dispatch(table, frame).value)]
      ensures r.Err? ==> Dispatch(table, frame) == Err(r.what) && out.sent == old(out.sent)
    {
      if frame.Malformed? {
        return Err(frame.what);
      }
      var x := frame.value;
      if !x.Arr? || |x.elems| < 3 {
        SendError("", "FormationViolation", "Invalid frame format", out);
        return Ok(());
      }
      var tag :- AsInt(x.elems[0]);
      if tag != 2 {
        SendError(BestEffortId(x), "ProtocolError", "Expected Call (messageTypeId 2) on this path", out);
        return Ok(());
      }
      if |x.elems| != 4 {
        SendError(BestEffortId(x), "FormationViolation", WRONG_LENGTH, out);
        return Ok(());
      }
      var action :- AsString(x.elems[2]);
      if action in table {
        Invoke(table[action], BestEffortId(x), x.elems[3], out);
      } else {
        var id :- AsString(x.elems[1]);
        SendError(id, "NotImplemented", "Unknown action: " + action, out);
      }
      return Ok(());
    }

    /** handle_incoming: exactly one reply for every text, whatever the table and its handlers do. */
    method HandleIncoming(frame: Incoming, out: Outbox)
      modifies out
      ensures out.sent == old(out.sent) + [ReplyTo(table, frame)]
    {
      var r := Try(frame, out);
      if r.Err? {
        SendError("", "FormationViolation", r.what, out);
      }
    }
  }

  // A four-element Call whose id and action are strings.
  predicate IsAddressedCall(x: Value) {
    && x.Arr? && |x.elems| == 4
    && AsInt(x.elems[0]) == Ok(2)
    && x.elems[1].Str? && x.elems[2].Str?
  }

  // A reply, as opposed to a Call, with the type number of its variant
  predicate IsReply(f: Frame) {
    f.messageTypeId == f.Tag() && !f.Call?
  }

  lemma InvokerReplies(inv: Invoker, id: string, payload: Value)
    ensures IsReply(InvokerReply(inv, id, payload))
  {}

  lemma DispatchReplies(table: Table, x: Value)
    ensures Dispatch(table, Parsed(x)).Ok? ==> IsReply(Dispatch(table, Parsed(x)).value)
  {
    if x.Arr? && |x.elems| == 4 && x.elems[2].Str? && x.elems[2].s in table {
      InvokerReplies(table[x.elems[2].s], BestEffortId(x), x.elems[3]);
    }
  }

  lemma ReplyTagFits(table: Table, frame: Incoming)
    ensures IsReply(ReplyFrame(table, frame))
  {
    if frame.Parsed? {
      DispatchReplies(table, frame.value);
    }
  }

  /** Every reply is itself a frame the client's parser accepts, and it is a CallResult or a CallError. */
  lemma ReplyParses(table: Table, frame: Incoming)
    ensures ParseFrame(ReplyTo(table, frame)) == Ok(ReplyFrame(table, frame))
    ensures !ReplyFrame(table, frame).Call?
  {
    ReplyTagFits(table, frame);
    ParseUndoesEncode(ReplyFrame(table, frame));
  }

  // The handler registered for x's action decodes x's payload and confirms it.
  predicate IsConfirmed(table: Table, x: Value)
    requires x.Arr? && |x.elems| == 4 && x.elems[2].Str?
  {
    && x.elems[2].s in table
    && var inv := table[x.elems[2].s];
       var req := DecodeRequest(inv.req, x.elems[3]);
       req.Ok? && inv.handle(req.value).Confirm?
  }

  /**
   A CallResult is sent exactly for a four-element array of type 2 whose string action has a handler
   that decodes the payload and confirms it, and it carries that confirmation. The message id need not
   be a string for this: without one the result goes out under the empty id.
   */
  lemma ResultExactlyWhenConfirmed(table: Table, frame: Incoming)
    ensures ParseFrame(ReplyTo(table, frame)) == Ok(ReplyFrame(table, frame))
    ensures var reply := ReplyFrame(table, frame);
            && (reply.CallResult? <==>
                && frame.Parsed? && frame.value.Arr? && |frame.value.elems| == 4
                && AsInt(frame.value.elems[0]) == Ok(2) && frame.value.elems[2].Str?
                && IsConfirmed(table, frame.value))
            && (reply.CallResult? ==>
                var inv := table[frame.value.elems[2].s];
                var request := DecodeRequest(inv.req, frame.value.elems[3]).value;
                && reply.messageId == (if frame.value.elems[1].Str? then frame.value.elems[1].s else "")
                && reply.payload == EncodeConfirmation(inv.handle(request).conf))
  {
    ReplyParses(table, frame);
  }

  /** An addressed Call is answered under its own id, with NotImplemented exactly when its action has no handler. */
  lemma AddressedCallIsAnswered(table: Table, x: Value)
    requires IsAddressedCall(x)
    ensures ParseFrame(ReplyTo(table, Parsed(x))) == Ok(ReplyFrame(table, Parsed(x)))
    ensures var reply := ReplyFrame(table, Parsed(x));
            && reply.messageId == x.elems[1].s
            && (reply.CallError? && reply.errorCode == "NotImplemented" <==> x.elems[2].s !in table)
  {
    ReplyParses(table, Parsed(x));
    assert "NotImplemented"[0] == 'N' && "InternalError"[0] == 'I' && "FormationViolation"[0] == 'F';
  }

  // x is an array long enough for a frame, of this type.
  predicate IsOfType(x: Value, t: Int32) {
    x.Arr? && |x.elems| >= 3 && AsInt(x.elems[0]) == Ok(t)
  }

  // The handler registered for x's action decodes x's payload and ends this way.
  predicate IsHandled(table: Table, x: Value, outcome: HandlerOutcome) {
    && IsOfType(x, 2) && |x.elems| == 4 && x.elems[2].Str? && x.elems[2].s in table
    && var inv := table[x.elems[2].s];
       var req := DecodeRequest(inv.req, x.elems[3]);
       req.Ok? && inv.handle(req.value) == outcome
  }

  predicate IsErrorWith(f: Frame, code: string) {
    f.CallError? && f.errorCode == code
  }

  lemma CodesDiffer()
    ensures var codes := ["ProtocolError", "NotImplemented", "InternalError", "FormationViolation"];
            forall i, j | 0 <= i < j < 4 :: codes[i] != codes[j]
  {
    assert "ProtocolError"[0] == 'P' && "NotImplemented"[0] == 'N';
    assert "InternalError"[0] == 'I' && "FormationViolation"[0] == 'F';
  }

  /**
   Which error goes out when. ProtocolError says that the type is a number other than 2; NotImplemented that the action
   of an addressed call has no handler; InternalError is a handler's own refusal, with its words; all else that is not
   confirmed is a FormationViolation. No error carries details.
   */
  lemma ErrorExactlyWhen(table: Table, x: Value)
    ensures var reply := ReplyFrame(table, Parsed(x));
            && (IsErrorWith(reply, "ProtocolError") <==>
                  x.Arr? && |x.elems| >= 3 && AsInt(x.elems[0]).Ok? && AsInt(x.elems[0]).value != 2)
            && (IsErrorWith(reply, "NotImplemented") <==> IsAddressedCall(x) && x.elems[2].s !in table)
            && (IsErrorWith(reply, "InternalError") <==> exists error: string :: IsHandled(table, x, Refuse(error)))
            && (forall error: string | IsHandled(table, x, Refuse(error)) :: reply.errorDescription == error)
            && (IsErrorWith(reply, "NotImplemented") ==> reply.errorDescription == "Unknown action: " + x.elems[2].s)
            && (IsErrorWith(reply, "ProtocolError") ==>
                  reply.errorDescription == "Expected Call (messageTypeId 2) on this path")
            && (reply.CallError? ==>
                  && reply.messageTypeId == 4 && reply.errorDetails == Obj(map[])
                  && (reply.errorCode in ["ProtocolError", "NotImplemented", "InternalError", "FormationViolation"]))
  {
    CodesDiffer();
    if IsHandledSomehow(table, x) {
      HandledReply(table, x);
    }
  }

  predicate IsHandledSomehow(table: Table, x: Value) {
    IsOfType(x, 2) && |x.elems| == 4 && x.elems[2].Str? && x.elems[2].s in table
  }

  lemma HandledReply(table: Table, x: Value)
    requires IsHandledSomehow(table, x)
    ensures ReplyFrame(table, Parsed(x)) == InvokerReply(table[x.elems[2].s], BestEffortId(x), x.elems[3])
  {}

  /** What a FormationViolation says. */
  lemma FormationViolationSays(table: Table, x: Value, what: string)
    ensures ReplyFrame(table, Malformed(what)) == CallError(4, "", "FormationViolation", what, Obj(map[]))
    ensures !x.Arr? || |x.elems| < 3 ==>
              ReplyFrame(table, Parsed(x)) == CallError(4, "", "FormationViolation", "Invalid frame format", Obj(map[]))
    ensures IsOfType(x, 2) && |x.elems| != 4 ==>
              var reply := ReplyFrame(table, Parsed(x));
              && IsErrorWith(reply, "FormationViolation")
              && reply.errorDescription == "Call must have 4 elements[2, messageId, action, payload]"
    ensures IsHandled(table, x, Raise(what)) ==>
              IsErrorWith(ReplyFrame(table, Parsed(x)), "FormationViolation")
              && ReplyFrame(table, Parsed(x)).errorDescription == what
  {
    if IsHandled(table, x, Raise(what)) {
      HandledReply(table, x);
    }
  }

  // The message id of x can be read, and no exception leaves handle_incoming's try block before it is used.
  predicate KeepsId(x: Value) {
    && x.Arr? && |x.elems| >= 3 && x.elems[1].Str? && AsInt(x.elems[0]).Ok?
    && (AsInt(x.elems[0]).value != 2 || |x.elems| != 4 || x.elems[2].Str?)
  }

  /**
   Which replies keep the message id, whatever the table and its handlers do: those to an array of at least three
   elements with a string id, a number or a boolean for its type, and, if it is a Call of four elements, a string
   action. Every other reply goes out under the empty id, whether or not an id could have been read.
   */
  lemma IdIsKeptExactlyWhen(table: Table, x: Value)
    ensures ReplyFrame(table, Parsed(x)).messageId == if KeepsId(x) then x.elems[1].s else ""
    ensures x.Arr? && |x.elems| >= 2 && x.elems[1].Str? && x.elems[1].s != "" ==>
              (ReplyFrame(table, Parsed(x)).messageId == x.elems[1].s <==> KeepsId(x))
  {
    if x.Arr? && |x.elems| == 4 && AsInt(x.elems[0]) == Ok(2) && x.elems[2].Str? && x.elems[2].s in table {
      InvokerKeepsId(table[x.elems[2].s], BestEffortId(x), x.elems[3]);
    }
  }

  lemma InvokerKeepsId(inv: Invoker, id: string, payload: Value)
    ensures InvokerReply(inv, id, payload).messageId == id
  {}

  /** Two Calls whose id is a string and is lost all the same, and a shorter one that keeps it. */
  lemma IdIsLost(table: Table)
    ensures var badType := Arr([Str("x"), Str("a"), Str("BootNotification"), EMPTY_OBJECT]);
            ReplyFrame(table, Parsed(badType)) == ErrorReply("", "FormationViolation", "type_error.302")
    ensures var badAction := Arr([Int(2), Str("a"), Int(7), EMPTY_OBJECT]);
            ReplyFrame(table, Parsed(badAction)) == ErrorReply("", "FormationViolation", "type_error.302")
    ensures var short := Arr([Int(2), Str("a"), Str("BootNotification")]);
            ReplyFrame(table, Parsed(short)).messageId == "a"
            && ReplyFrame(table, Parsed(short)).CallError?
            && ReplyFrame(table, Parsed(short)).errorCode == "FormationViolation"
  {}
}
