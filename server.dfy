/**
 * The bridge's stateful side: the `Event` record that processing updates in
 * place and the `Server` holding the handler table.
 */
module ApexGrpc {
  import opened Wrappers
  import opened MethodIds
  import opened Errors
  import opened Registry
  import opened Dispatch

  /** An event envelope; each field is absent when the JSON omitted it. */
  class Event {
    var pkg: Option<string>
    var svc: Option<string>
    var mtd: Option<string>
    var data: Option<Bytes>

    constructor (fields: Envelope)
      ensures Fields() == fields
    {
      pkg, svc, mtd, data := fields.pkg, fields.svc, fields.mtd, fields.data;
    }

    /** The envelope this event currently holds. */
    function Fields(): Envelope
      reads this
    {
      Envelope(pkg, svc, mtd, data)
    }
  }

  /** The bridge: a table from method identifier to handler binding. */
  class Server {
    var handlers: Handlers

    /** A server with nothing registered. */
    constructor ()
      ensures handlers == map[]
    {
      handlers := map[];
    }

    /** Bind every unary method of every service, in order; later bindings overwrite earlier ones. */
    method Register(svcs: seq<Service>)
      modifies this
      ensures handlers == RegisterAll(old(handlers), svcs)
    {
      for i := 0 to |svcs|
        invariant handlers == RegisterAll(old(handlers), svcs[..i])
      {
        var svc := svcs[i];
        ghost var before := handlers;
        for j := 0 to |svc.desc.methods|
          invariant handlers == RegisterMethods(before, svc, svc.desc.methods[..j])
        {
          var methodDesc := svc.desc.methods[j];
          var uid := NewMethodID("", svc.desc.serviceName, methodDesc.methodName);
          handlers := handlers[uid := Binding(methodDesc, svc.server)];
          assert svc.desc.methods[..j + 1][..j] == svc.desc.methods[..j];
        }
        assert svc.desc.methods[..|svc.desc.methods|] == svc.desc.methods;
        assert svcs[..i + 1][..i] == svcs[..i];
      }
      assert svcs[..|svcs|] == svcs;
    }

    /**
     * Look `id` up and run its handler once on payload `data`. This is the
     * executable lookup-and-call; `Dispatch.Call` is the same step as a
     * function, which the lemmas reason about and which this method is
     * proved to agree with.
     */
    method CallGRPCMethod(c: Context, id: MethodID, data: Bytes, unmarshal: PbUnmarshal) returns (r: Result<Message, Error>)
      ensures r == Call(handlers, c, id, data, unmarshal)
    {
      if id !in handlers {
        return Err(HandlerNotFound(id));
      }
      var h := handlers[id];
      var reply := h.methodDesc.handler(h.server, c, DecoderFor(id, data, unmarshal));
      if reply.Err? {
        return Err(reply.error);
      }
      r := Ok(reply.value);
    }

    /**
     * Default a missing package to "" in the event itself, reject a missing
     * service, then a missing method, default missing data to `{}`, and dispatch.
     */
    method ProcessEvent(c: Context, event: Event, unmarshal: PbUnmarshal) returns (r: Result<Message, Error>)
      modifies event
      ensures event.Fields() == old(event.Fields()).(pkg := Some(old(event.pkg).GetOr("")))
      ensures r == Process(handlers, c, old(event.Fields()), unmarshal)
    {
      if event.pkg.None? {
        event.pkg := Some("");
      }
      if event.svc.None? {
        return Err(MissingService);
      }
      if event.mtd.None? {
        return Err(MissingMethod);
      }
      var data := if event.data.None? then EmptyObject else event.data.value;
      var methodID := NewMethodID(event.pkg.value, event.svc.value, event.mtd.value);
      r := CallGRPCMethod(c, methodID, data, unmarshal);
    }

    /**
     * Serialise `value` with `marshal` and dispatch it as a complete event;
     * a serialisation error is returned before anything is dispatched.
     */
    method Invoke<V>(c: Context, pkg: string, svc: string, mtd: string, value: V,
                     marshal: V -> Result<Bytes, Error>, unmarshal: PbUnmarshal) returns (r: Result<Message, Error>)
      ensures marshal(value).Err? ==> r == Err(marshal(value).error)
      ensures marshal(value).Ok? ==> r == Process(handlers, c, Envelope(Some(pkg), Some(svc), Some(mtd), Some(marshal(value).value)), unmarshal)
      ensures marshal(value).Ok? ==> r == Call(handlers, c, NewMethodID(pkg, svc, mtd), marshal(value).value, unmarshal)
    {
      var dataBytes := marshal(value);
      if dataBytes.Err? {
        return Err(dataBytes.error);
      }
      var event := new Event(Envelope(Some(pkg), Some(svc), Some(mtd), Some(dataBytes.value)));
      r := ProcessEvent(c, event, unmarshal);
    }

    /**
     * The event handler the server installs: parse the delivered bytes as an
     * envelope, failing with "invalid event" when they are not one, and
     * process it.
     */
    method HandleEvent(c: Context, eventMsg: Bytes, parse: Bytes -> Option<Envelope>, unmarshal: PbUnmarshal)
      returns (r: Result<Message, Error>)
      ensures parse(eventMsg).None? ==> r == Err(InvalidEvent)
      ensures parse(eventMsg).Some? ==> r == Process(handlers, c, parse(eventMsg).value, unmarshal)
    {
      var fields := parse(eventMsg);
      if fields.None? {
        return Err(InvalidEvent);
      }
      var event := new Event(fields.value);
      r := ProcessEvent(c, event, unmarshal);
    }
  }
}
