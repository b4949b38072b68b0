/**
 * Envelope validation and dispatch: from an event's package, service,
 * method and data to the reply or error of exactly one handler call.
 */
module Dispatch {
  import opened Wrappers
  import opened MethodIds
  import opened Errors
  import opened Registry

  /** An event as delivered: every field may be absent. */
  datatype Envelope = Envelope(pkg: Option<string>, svc: Option<string>, mtd: Option<string>, data: Option<Bytes>)

  /** The JSON text `{}`, the payload of an event without data. */
  const EmptyObject: Bytes := [0x7B, 0x7D]

  /** The protobuf JSON decoder (foreign): the message, or None when the bytes do not fit the type. */
  type PbUnmarshal = (Bytes, Schema) -> Option<Message>

  /** The decode function handed to the handler of `id` for payload `data`. */
  function DecoderFor(id: MethodID, data: Bytes, unmarshal: PbUnmarshal): Decoder {
    (schema: Schema) =>
      match unmarshal(data, schema)
      case Some(msg) => Ok(msg)
      case None => Err(InvalidInputData(id))
  }

  /** Look `id` up and run its handler once. */
  function Call(h: Handlers, c: Context, id: MethodID, data: Bytes, unmarshal: PbUnmarshal): Result<Message, Error> {
    if id !in h then Err(HandlerNotFound(id))
    else h[id].methodDesc.handler(h[id].server, c, DecoderFor(id, data, unmarshal))
  }

  /** Validate an envelope, fill in its defaults and dispatch it. */
  function Process(h: Handlers, c: Context, ev: Envelope, unmarshal: PbUnmarshal): Result<Message, Error> {
    var pkg := ev.pkg.GetOr("");
    if ev.svc.None? then Err(MissingService)
    else if ev.mtd.None? then Err(MissingMethod)
    else Call(h, c, NewMethodID(pkg, ev.svc.value, ev.mtd.value), ev.data.GetOr(EmptyObject), unmarshal)
  }

  /** The decoder reports a payload that does not fit as invalid input for `id`, and otherwise yields the message. */
  lemma DecoderReportsMethod(id: MethodID, data: Bytes, unmarshal: PbUnmarshal, schema: Schema)
    ensures unmarshal(data, schema).None? ==> DecoderFor(id, data, unmarshal)(schema) == Err(InvalidInputData(id))
    ensures unmarshal(data, schema).Some? ==> DecoderFor(id, data, unmarshal)(schema) == Ok(unmarshal(data, schema).value)
  {
  }

  /** An unknown identifier fails, whatever the payload, and no handler runs. */
  lemma CallNotFound(h: Handlers, c: Context, id: MethodID, data: Bytes, unmarshal: PbUnmarshal)
    requires id !in h
    ensures Call(h, c, id, data, unmarshal) == Err(HandlerNotFound(id))
  {
  }

  /** The handler's reply or error is returned with its content unchanged. */
  lemma CallPassesThrough(h: Handlers, c: Context, id: MethodID, data: Bytes, unmarshal: PbUnmarshal)
    requires id in h
    ensures var reply := h[id].methodDesc.handler(h[id].server, c, DecoderFor(id, data, unmarshal));
      && (reply.Err? ==> Call(h, c, id, data, unmarshal) == Err(reply.error))
      && (reply.Ok? ==> Call(h, c, id, data, unmarshal) == Ok(reply.value))
  {
  }

  /**
   * The service is checked before the method, and an event lacking either
   * fails the same way whatever is registered: no lookup, no handler call.
   */
  lemma ProcessRejectsIncomplete(h: Handlers, h': Handlers, c: Context, ev: Envelope, unmarshal: PbUnmarshal)
    ensures ev.svc.None? ==> Process(h, c, ev, unmarshal) == Err(MissingService)
    ensures ev.svc.Some? && ev.mtd.None? ==> Process(h, c, ev, unmarshal) == Err(MissingMethod)
    ensures ev.svc.None? || ev.mtd.None? ==> Process(h, c, ev, unmarshal) == Process(h', c, ev, unmarshal)
  {
  }

  /** A missing package means the empty package; missing data means `{}`. */
  lemma ProcessDefaults(h: Handlers, c: Context, ev: Envelope, unmarshal: PbUnmarshal)
    ensures Process(h, c, ev.(pkg := None), unmarshal) == Process(h, c, ev.(pkg := Some("")), unmarshal)
    ensures Process(h, c, ev.(data := None), unmarshal) == Process(h, c, ev.(data := Some(EmptyObject)), unmarshal)
  {
  }

  /** A complete envelope dispatches to the identifier its three names build. */
  lemma ProcessDispatches(h: Handlers, c: Context, pkg: string, svc: string, mtd: string, data: Bytes, unmarshal: PbUnmarshal)
    ensures Process(h, c, Envelope(Some(pkg), Some(svc), Some(mtd), Some(data)), unmarshal)
         == Call(h, c, NewMethodID(pkg, svc, mtd), data, unmarshal)
  {
  }

  /**
   * End to end: after registering `svcs`, an event naming a registered
   * method, with the package either empty or split off the front of the
   * registered service name, runs the handler of that method's last
   * registration.
   */
  lemma EventReachesRegisteredMethod(h: Handlers, svcs: seq<Service>, i: nat, j: nat, c: Context, ev: Envelope, unmarshal: PbUnmarshal)
    requires i < |svcs| && j < |svcs[i].desc.methods|
    requires IsLastOccurrence(svcs, i, j)
    requires ev.svc.Some? && ev.mtd.Some?
    requires ev.mtd.value == svcs[i].desc.methods[j].methodName
    requires ev.pkg.GetOr("") == "" ==> ev.svc.value == svcs[i].desc.serviceName
    requires ev.pkg.GetOr("") != "" ==> ev.pkg.value + "." + ev.svc.value == svcs[i].desc.serviceName
    ensures Process(RegisterAll(h, svcs), c, ev, unmarshal)
         == svcs[i].desc.methods[j].handler(svcs[i].server, c, DecoderFor(KeyAt(svcs, i, j), ev.data.GetOr(EmptyObject), unmarshal))
  {
    var pkg := ev.pkg.GetOr("");
    if pkg != "" {
      PackageCollapsesIntoService(pkg, ev.svc.value, ev.mtd.value);
    }
    RegisterAllBindsLast(h, svcs, i, j);
  }

  /**
   * The handler shape protoc generates for a unary method: decode the
   * request as `input`, returning the decode error unchanged, then call the
   * implementation.
   */
  function UnaryHandler(input: Schema, impl: (Instance, Context, Message) -> Result<Message, Error>): HandlerFn {
    (srv: Instance, c: Context, decode: Decoder) =>
      match decode(input)
      case Err(e) => Err(e)
      case Ok(req) => impl(srv, c, req)
  }

  /** For such a handler, a payload that does not decode fails as invalid input for `id`. */
  lemma UnaryHandlerDecoding(h: Handlers, c: Context, id: MethodID, data: Bytes, unmarshal: PbUnmarshal,
                             input: Schema, impl: (Instance, Context, Message) -> Result<Message, Error>)
    requires id in h && h[id].methodDesc.handler == UnaryHandler(input, impl)
    ensures unmarshal(data, input).None? ==> Call(h, c, id, data, unmarshal) == Err(InvalidInputData(id))
    ensures unmarshal(data, input).Some? ==> Call(h, c, id, data, unmarshal) == impl(h[id].server, c, unmarshal(data, input).value)
  {
  }

  /** A registry holding only `Greeter` with its method `Hello`, built by registration. */
  function GreeterRegistry(hello: HandlerFn): Handlers {
    RegisterAll(map[], [Service(ServiceDesc("Greeter", [MethodDesc("Hello", hello)], []), Instance(0))])
  }

  /** `Greeter/Hello` reaches the handler; `Greeter/Bye` is not found. */
  lemma GreeterScenario(hello: HandlerFn, c: Context, data: Bytes, unmarshal: PbUnmarshal)
    ensures Process(GreeterRegistry(hello), c, Envelope(None, Some("Greeter"), Some("Hello"), Some(data)), unmarshal)
         == hello(Instance(0), c, DecoderFor(MethodID("Greeter/Hello"), data, unmarshal))
    ensures Process(GreeterRegistry(hello), c, Envelope(None, Some("Greeter"), Some("Bye"), None), unmarshal)
         == Err(HandlerNotFound(MethodID("Greeter/Bye")))
  {
    var svcs := [Service(ServiceDesc("Greeter", [MethodDesc("Hello", hello)], []), Instance(0))];
    assert svcs[..0] == [];
    assert RegisterAll(map[], svcs[..0]) == map[];
    var ms := svcs[0].desc.methods;
    assert ms[..0] == [];
    assert RegisterMethods(map[], svcs[0], ms[..0]) == map[];
    assert KeyOf(svcs[0], ms[0]) == MethodID("Greeter/Hello");
    assert GreeterRegistry(hello) == map[MethodID("Greeter/Hello") := Binding(ms[0], Instance(0))];
    assert NewMethodID("", "Greeter", "Bye") == MethodID("Greeter/Bye");
    assert MethodID("Greeter/Bye") != MethodID("Greeter/Hello") by {
      assert "Greeter/Bye"[8] != "Greeter/Hello"[8];
    }
  }
}
