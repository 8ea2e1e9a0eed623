/**
 Frames and payloads of OCPP-J 1.6 and their JSON codec (ocpp_model.hpp, ocpp_model.cpp).
 */
module OcppModel {
  import opened Json

  // The three actions of the model; UnknownAction exists only for a test.
  datatype Kind = BootKind | AuthorizeKind | HeartBeatKind

  datatype Request =
    | BootNotification(chargePointModel: string, chargePointVendor: string)
    | Authorize(idTag: string)
    | HeartBeat
  {
    function Kind(): Kind {
      match this
      case BootNotification(_, _) => BootKind
      case Authorize(_) => AuthorizeKind
      case HeartBeat => HeartBeatKind
    }
  }

  datatype Confirmation =
    | BootNotificationResponse(currentTime: string, interval: Int32, status: string)
    | AuthorizeResponse(idTagInfo: string)
    | HeartBeatResponse(currentTime: string)
  {
    // The action this confirmation answers, by the ExpectedResponse map.
    function Kind(): Kind {
      match this
      case BootNotificationResponse(_, _, _) => BootKind
      case AuthorizeResponse(_) => AuthorizeKind
      case HeartBeatResponse(_) => HeartBeatKind
    }
  }

  // OcppActionName<T>::value
  function ActionName(k: Kind): string {
    match k
    case BootKind => "BootNotification"
    case AuthorizeKind => "Authorize"
    case HeartBeatKind => "HeartBeat"
  }

  // ExpectedResponse<T>::value
  function ExpectedTag(k: Kind): string {
    match k
    case BootKind => "BootNotificationResponse"
    case AuthorizeKind => "AuthorizeResponse"
    case HeartBeatKind => "HeartBeatResponse"
  }

  function EncodeRequest(r: Request): Value {
    match r
    case BootNotification(model, vendor) => Arr([Str(model), Str(vendor)])
    case Authorize(tag) => Obj(map["idTag" := Str(tag)])
    case HeartBeat => EMPTY_OBJECT
  }

  // payload.get<Req>(); a BootNotification that is neither an object nor an array stays blank
  function DecodeRequest(k: Kind, x: Value): (r: Result<Request>)
    ensures r.Ok? ==> r.value.Kind() == k
  {
    match k
    case BootKind =>
      if x.Obj? then
        var m :- AtKey(x, "chargePointModel");
        var model :- AsString(m);
        var v :- AtKey(x, "chargePointVendor");
        var vendor :- AsString(v);
        Ok(BootNotification(model, vendor))
      else if x.Arr? then
        var m :- At(x, 0);
        var model :- AsString(m);
        var v :- At(x, 1);
        var vendor :- AsString(v);
        Ok(BootNotification(model, vendor))
      else
        Ok(BootNotification("", ""))
    case AuthorizeKind =>
      var t :- AtKey(x, "idTag");
      var tag :- AsString(t);
      Ok(Authorize(tag))
    case HeartBeatKind =>
      Ok(HeartBeat)
  }

  function EncodeConfirmation(c: Confirmation): Value {
    match c
    case BootNotificationResponse(time, interval, status) =>
      Obj(map["currentTime" := Str(time), "interval" := Int(interval), "status" := Str(status)])
    case AuthorizeResponse(info) => Obj(map["idTagInfo" := Str(info)])
    case HeartBeatResponse(time) => Arr([Str(time)])
  }

  // payload.get<ExpectedResponse<T>::type>(), which is what a reply validator runs
  function DecodeConfirmation(k: Kind, x: Value): (r: Result<Confirmation>)
    ensures r.Ok? ==> r.value.Kind() == k
  {
    match k
    case BootKind =>
      if x.Obj? then
        var t :- AtKey(x, "currentTime");
        var time :- AsString(t);
        var i :- AtKey(x, "interval");
        var interval :- AsInt(i);
        var st :- AtKey(x, "status");
        var status :- AsString(st);
        Ok(BootNotificationResponse(time, interval, status))
      else if x.Arr? then
        var t :- At(x, 0);
        var time :- AsString(t);
        var i :- At(x, 1);
        var interval :- AsInt(i);
        var st :- At(x, 2);
        var status :- AsString(st);
        Ok(BootNotificationResponse(time, interval, status))
      else
        Ok(BootNotificationResponse("", 0, ""))
    case AuthorizeKind =>
      var i :- AtKey(x, "idTagInfo");
      var info :- AsString(i);
      Ok(AuthorizeResponse(info))
    case HeartBeatKind =>
      var t :- At(x, 0);
      var time :- AsString(t);
      Ok(HeartBeatResponse(time))
  }

  datatype Frame =
    | Call(messageTypeId: Int32, messageId: string, action: string, payload: Value)
    | CallResult(messageTypeId: Int32, messageId: string, payload: Value)
    | CallError(messageTypeId: Int32, messageId: string,
                errorCode: string, errorDescription: string, errorDetails: Value)
  {
    // The message type number of OCPP-J 1.6 section 4.2 for this variant.
    function Tag(): Int32 {
      match this
      case Call(_, _, _, _) => 2
      case CallResult(_, _, _) => 3
      case CallError(_, _, _, _, _) => 4
    }
  }

  function EncodeFrame(f: Frame): Value {
    match f
    case Call(t, id, action, payload) => Arr([Int(t), Str(id), Str(action), payload])
    case CallResult(t, id, payload) => Arr([Int(t), Str(id), payload])
    case CallError(t, id, code, description, details) => Arr([Int(t), Str(id), Str(code), Str(description), details])
  }

  function ParseFrame(x: Value): Result<Frame> {
    if !x.Arr? || |x.elems| < 3 then Err("Invalid OCPP frame format")
    else
      var tag :- AsInt(x.elems[0]);
      var id :- AsString(x.elems[1]);
      if tag == 2 then
        var action :- AsString(x.elems[2]);
        var payload :- At(x, 3);
        Ok(Call(tag, id, action, payload))
      else if tag == 3 then
        Ok(CallResult(tag, id, x.elems[2]))
      else if tag == 4 then
        var code :- AsString(x.elems[2]);
        var d :- At(x, 3);
        var description :- AsString(d);
        var details :- At(x, 4);
        Ok(CallError(tag, id, code, description, details))
      else
        Err("Unknown messageTypeId")
  }

  // create_call<Payload>
  function CreateCall(id: string, r: Request): Frame {
    Call(2, id, ActionName(r.Kind()), EncodeRequest(r))
  }

  ghost predicate DistinctIds(fs: seq<Frame>) {
    forall i, j | 0 <= i < j < |fs| :: fs[i].messageId != fs[j].messageId
  }

  lemma {:induction false} TwiceInMultiset<T>(xs: seq<T>, i: nat, j: nat)
    requires i < j < |xs| && xs[i] == xs[j]
    ensures multiset(xs)[xs[i]] >= 2
  {
    assert xs == xs[..j] + xs[j..];
    assert xs[i] in xs[..j];
    assert xs[j] == xs[j..][0];
    assert xs[j] in xs[j..];
  }

  lemma {:induction false} OnceInMultiset(fs: seq<Frame>, f: Frame)
    requires DistinctIds(fs)
    ensures multiset(fs)[f] <= 1
  {
    if fs != [] {
      var k := |fs| - 1;
      OnceInMultiset(fs[..k], f);
      assert fs == fs[..k] + [fs[k]];
      if fs[k] == f {
        assert f !in fs[..k];
      }
    }
  }

  // A part of a collection of messages with distinct ids has distinct ids itself.
  lemma PartIsDistinct(whole: seq<Frame>, part: seq<Frame>)
    requires DistinctIds(whole) && multiset(part) <= multiset(whole)
    ensures DistinctIds(part)
    ensures forall f | f in part :: f in whole
  {
    forall f | f in part
      ensures f in whole
    {
      assert f in multiset(part);
      assert f in multiset(whole);
    }
    forall i, j | 0 <= i < j < |part|
      ensures part[i].messageId != part[j].messageId
    {
      if part[i].messageId == part[j].messageId {
        assert part[i] in whole && part[j] in whole;
        TwiceInMultiset(part, i, j);
        OnceInMultiset(whole, part[i]);
      }
    }
  }

  /** parse_frame undoes to_json exactly for the frames whose type number fits their variant. */
  lemma ParseUndoesEncode(f: Frame)
    ensures ParseFrame(EncodeFrame(f)) == Ok(f) <==> f.messageTypeId == f.Tag()
  {
    var x := EncodeFrame(f);
    assert x.elems[0] == Int(f.messageTypeId);
    assert AsInt(x.elems[0]) == Ok(f.messageTypeId);
    assert x.elems[1] == Str(f.messageId);
  }

  /** to_json undoes parse_frame exactly when the array had no surplus element and an exact integer tag. */
  lemma EncodeUndoesParse(x: Value)
    requires ParseFrame(x).Ok?
    ensures EncodeFrame(ParseFrame(x).value) == x
       <==> x.elems[0] == Int(ParseFrame(x).value.Tag()) && |x.elems| == match ParseFrame(x).value {
              case Call(_, _, _, _) => 4
              case CallResult(_, _, _) => 3
              case CallError(_, _, _, _, _) => 5
            }
  {
    var f := ParseFrame(x).value;
    var y := EncodeFrame(f);
    assert f.messageTypeId == f.Tag();
    if x.elems[0] == Int(f.Tag()) && |x.elems| == |y.elems| {
      assert forall i | 0 <= i < |y.elems| :: x.elems[i] == y.elems[i];
      assert x.elems == y.elems;
    }
  }

  /** Exactly which arrays parse to which frame: the shapes of OCPP-J 1.6 section 4.2, with surplus elements ignored. */
  lemma ParseExactlyWhen(x: Value, f: Frame)
    ensures ParseFrame(x) == Ok(f)
       <==> x.Arr? && |x.elems| >= 3 && AsInt(x.elems[0]) == Ok(f.messageTypeId) && x.elems[1] == Str(f.messageId)
            && match f {
                 case Call(t, _, action, payload) =>
                   t == 2 && |x.elems| >= 4 && x.elems[2] == Str(action) && x.elems[3] == payload
                 case CallResult(t, _, payload) => t == 3 && x.elems[2] == payload
                 case CallError(t, _, code, description, details) =>
                   && t == 4 && |x.elems| >= 5 && x.elems[2] == Str(code) && x.elems[3] == Str(description)
                   && x.elems[4] == details
               }
  {}

  // Object x gives this key this string.
  predicate HasString(x: Value, key: string, s: string) {
    x.Obj? && key in x.fields && x.fields[key] == Str(s)
  }

  predicate IsString(x: Value, i: nat, s: string) {
    x.Arr? && i < |x.elems| && x.elems[i] == Str(s)
  }

  /**
   Exactly which payloads decode to which request. A BootNotification is an object with both of its fields, whatever
   other fields it has, or an array that starts with the model and the vendor; any other payload leaves both blank.
   */
  lemma RequestDecodesExactlyWhen(k: Kind, x: Value, r: Request)
    ensures DecodeRequest(k, x) == Ok(r)
       <==> match r {
              case BootNotification(model, vendor) =>
                && k == BootKind
                && (|| (HasString(x, "chargePointModel", model) && HasString(x, "chargePointVendor", vendor))
                    || (IsString(x, 0, model) && IsString(x, 1, vendor))
                    || (!x.Obj? && !x.Arr? && model == vendor == ""))
              case Authorize(tag) => k == AuthorizeKind && HasString(x, "idTag", tag)
              case HeartBeat => k == HeartBeatKind
            }
  {}

  /** Exactly which payloads decode to which confirmation; a boot confirmation has an object and an array form. */
  lemma ConfirmationDecodesExactlyWhen(k: Kind, x: Value, c: Confirmation)
    ensures DecodeConfirmation(k, x) == Ok(c)
       <==> match c {
              case BootNotificationResponse(time, interval, status) =>
                && k == BootKind
                && (|| (HasString(x, "currentTime", time) && HasString(x, "status", status)
                        && "interval" in x.fields && AsInt(x.fields["interval"]) == Ok(interval))
                    || (IsString(x, 0, time) && IsString(x, 2, status) && AsInt(x.elems[1]) == Ok(interval))
                    || (!x.Obj? && !x.Arr? && time == status == "" && interval == 0))
              case AuthorizeResponse(info) => k == AuthorizeKind && HasString(x, "idTagInfo", info)
              case HeartBeatResponse(time) => k == HeartBeatKind && IsString(x, 0, time)
            }
  {}

  /** What the three calls look like on the wire. */
  lemma CallsOnTheWire(id: string, model: string, vendor: string, tag: string)
    ensures EncodeFrame(CreateCall(id, BootNotification(model, vendor)))
         == Arr([Int(2), Str(id), Str("BootNotification"), Arr([Str(model), Str(vendor)])])
    ensures EncodeFrame(CreateCall(id, Authorize(tag)))
         == Arr([Int(2), Str(id), Str("Authorize"), Obj(map["idTag" := Str(tag)])])
    ensures EncodeFrame(CreateCall(id, HeartBeat)) == Arr([Int(2), Str(id), Str("HeartBeat"), Obj(map[])])
  {}

  /** What the three results look like on the wire. */
  lemma ResultsOnTheWire(id: string, time: string, interval: Int32, status: string, info: string)
    ensures EncodeFrame(CallResult(3, id, EncodeConfirmation(BootNotificationResponse(time, interval, status))))
         == Arr([Int(3), Str(id),
                 Obj(map["currentTime" := Str(time), "interval" := Int(interval), "status" := Str(status)])])
    ensures EncodeFrame(CallResult(3, id, EncodeConfirmation(AuthorizeResponse(info))))
         == Arr([Int(3), Str(id), Obj(map["idTagInfo" := Str(info)])])
    ensures EncodeFrame(CallResult(3, id, EncodeConfirmation(HeartBeatResponse(time))))
         == Arr([Int(3), Str(id), Arr([Str(time)])])
  {}

  lemma RequestRoundTrip(r: Request)
    ensures DecodeRequest(r.Kind(), EncodeRequest(r)) == Ok(r)
  {
    match r
    case BootNotification(model, vendor) =>
      var x := EncodeRequest(r);
      assert At(x, 0) == Ok(Str(model)) && At(x, 1) == Ok(Str(vendor));
    case Authorize(tag) =>
    case HeartBeat =>
  }

  /** A validator accepts an encoded confirmation exactly when its type is expected, and then decodes it back. */
  lemma ValidatorAcceptsExpected(k: Kind, c: Confirmation)
    ensures DecodeConfirmation(k, EncodeConfirmation(c)).Ok? <==> c.Kind() == k
    ensures c.Kind() == k ==> DecodeConfirmation(k, EncodeConfirmation(c)) == Ok(c)
  {
    var x := EncodeConfirmation(c);
    match c
    case BootNotificationResponse(time, interval, status) =>
      assert AtKey(x, "currentTime") == Ok(Str(time));
      assert AtKey(x, "interval") == Ok(Int(interval));
      assert AtKey(x, "status") == Ok(Str(status));
    case AuthorizeResponse(info) =>
    case HeartBeatResponse(time) =>
      assert At(x, 1).Err?;
  }
}
