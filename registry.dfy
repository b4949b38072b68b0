/**
 * The method registry: service descriptors, the bindings stored per method
 * identifier, and what registering a list of services does to the table.
 */
module Registry {
  import opened Wrappers
  import opened MethodIds
  import opened Errors

  type Bytes = seq<bv8>

  /** Opaque handle on the value that implements a service (Go `interface{}`). */
  datatype Instance = Instance(ref: nat)

  /** Opaque cancellation/deadline token, forwarded to handlers untouched. */
  datatype Context = Context(ref: nat)

  /** A protobuf message type, by its fully qualified name. */
  datatype Schema = Schema(fullName: string)

  /** A decoded protobuf message. */
  datatype Message = Message(schema: Schema, wire: Bytes)

  /** Decodes the request payload as a message of the given type. */
  type Decoder = Schema -> Result<Message, Error>

  /** A method's handler entry point: (service, context, decode) to reply or error. */
  type HandlerFn = (Instance, Context, Decoder) -> Result<Message, Error>

  datatype MethodDesc = MethodDesc(methodName: string, handler: HandlerFn)
  datatype StreamDesc = StreamDesc(streamName: string)
  datatype ServiceDesc = ServiceDesc(serviceName: string, methods: seq<MethodDesc>, streams: seq<StreamDesc>)

  /** A service to register: its descriptor and its implementation. */
  datatype Service = Service(desc: ServiceDesc, server: Instance)

  /** What the registry stores per identifier: the method and its owner. */
  datatype Binding = Binding(methodDesc: MethodDesc, server: Instance)

  type Handlers = map<MethodID, Binding>

  /** The key a method of `svc` is registered under: never with a package. */
  function KeyOf(svc: Service, m: MethodDesc): MethodID {
    NewMethodID("", svc.desc.serviceName, m.methodName)
  }

  /** The key of the `j`-th method of the `i`-th service. */
  function KeyAt(svcs: seq<Service>, i: nat, j: nat): MethodID
    requires i < |svcs| && j < |svcs[i].desc.methods|
  {
    KeyOf(svcs[i], svcs[i].desc.methods[j])
  }

  /** The keys the methods of one service produce. */
  ghost function MethodKeys(svc: Service): set<MethodID> {
    set m | m in svc.desc.methods :: KeyOf(svc, m)
  }

  /** Every key some method of some service in `svcs` produces. */
  ghost function ProducedKeys(svcs: seq<Service>): set<MethodID> {
    set i, m | 0 <= i < |svcs| && m in svcs[i].desc.methods :: KeyOf(svcs[i], m)
  }

  /** No method after position (i, j), in registration order, produces the same key. */
  ghost predicate IsLastOccurrence(svcs: seq<Service>, i: nat, j: nat)
    requires i < |svcs| && j < |svcs[i].desc.methods|
  {
    && (forall j2 :: j < j2 < |svcs[i].desc.methods| ==> KeyAt(svcs, i, j2) != KeyAt(svcs, i, j))
    && (forall i2 :: i < i2 < |svcs| ==> KeyAt(svcs, i, j) !in MethodKeys(svcs[i2]))
  }

  /** The table after the inner loop has stored the methods `ms` of `svc`, in order. */
  function RegisterMethods(h: Handlers, svc: Service, ms: seq<MethodDesc>): Handlers {
    if ms == [] then h
    else
      var m := ms[|ms| - 1];
      RegisterMethods(h, svc, ms[..|ms| - 1])[KeyOf(svc, m) := Binding(m, svc.server)]
  }

  /** The table after the outer loop has stored every method of every service, in order. */
  function RegisterAll(h: Handlers, svcs: seq<Service>): Handlers {
    if svcs == [] then h
    else
      var svc := svcs[|svcs| - 1];
      RegisterMethods(RegisterAll(h, svcs[..|svcs| - 1]), svc, svc.desc.methods)
  }

  /** Within one service, the last method with a given key is the one bound. */
  lemma {:induction false} RegisterMethodsBindsLast(h: Handlers, svc: Service, ms: seq<MethodDesc>, j: nat)
    requires j < |ms|
    requires forall j2 :: j < j2 < |ms| ==> KeyOf(svc, ms[j2]) != KeyOf(svc, ms[j])
    ensures KeyOf(svc, ms[j]) in RegisterMethods(h, svc, ms)
    ensures RegisterMethods(h, svc, ms)[KeyOf(svc, ms[j])] == Binding(ms[j], svc.server)
  {
    if j < |ms| - 1 {
      var init := ms[..|ms| - 1];
      assert forall j2 :: j <= j2 < |init| ==> init[j2] == ms[j2];
      RegisterMethodsBindsLast(h, svc, init, j);
    }
  }

  /** A key none of the methods produce keeps its old binding, or stays absent. */
  lemma {:induction false} RegisterMethodsKeepsOthers(h: Handlers, svc: Service, ms: seq<MethodDesc>, k: MethodID)
    requires forall m :: m in ms ==> KeyOf(svc, m) != k
    ensures k in RegisterMethods(h, svc, ms) <==> k in h
    ensures k in h ==> RegisterMethods(h, svc, ms)[k] == h[k]
  {
    if ms != [] {
      var init := ms[..|ms| - 1];
      assert forall m :: m in init ==> m in ms;
      RegisterMethodsKeepsOthers(h, svc, init, k);
    }
  }

  /** The inner loop adds exactly the keys of the methods and removes none. */
  lemma {:induction false} RegisterMethodsKeys(h: Handlers, svc: Service, ms: seq<MethodDesc>)
    ensures RegisterMethods(h, svc, ms).Keys == h.Keys + set m | m in ms :: KeyOf(svc, m)
  {
    if ms != [] {
      var init := ms[..|ms| - 1];
      RegisterMethodsKeys(h, svc, init);
      assert ms == init + [ms[|ms| - 1]];
      assert (set m | m in ms :: KeyOf(svc, m)) == (set m | m in init :: KeyOf(svc, m)) + {KeyOf(svc, ms[|ms| - 1])};
    }
  }

  /** The keys of a list are those of its prefix and of its last service. */
  lemma ProducedKeysSnoc(svcs: seq<Service>)
    requires svcs != []
    ensures ProducedKeys(svcs) == ProducedKeys(svcs[..|svcs| - 1]) + MethodKeys(svcs[|svcs| - 1])
  {
    var init := svcs[..|svcs| - 1];
    assert forall i :: 0 <= i < |init| ==> init[i] == svcs[i];
    forall k | k in ProducedKeys(svcs)
      ensures k in ProducedKeys(init) + MethodKeys(svcs[|svcs| - 1])
    {
      var i, m :| 0 <= i < |svcs| && m in svcs[i].desc.methods && k == KeyOf(svcs[i], m);
      if i < |init| {
        assert m in init[i].desc.methods;
      }
    }
  }

  /**
   * Registering never removes a key, and adds exactly the keys of the
   * services' unary methods (streams are never registered).
   */
  lemma {:induction false} RegisterAllKeys(h: Handlers, svcs: seq<Service>)
    ensures RegisterAll(h, svcs).Keys == h.Keys + ProducedKeys(svcs)
  {
    if svcs != [] {
      var svc := svcs[|svcs| - 1];
      RegisterAllKeys(h, svcs[..|svcs| - 1]);
      RegisterMethodsKeys(RegisterAll(h, svcs[..|svcs| - 1]), svc, svc.desc.methods);
      ProducedKeysSnoc(svcs);
    }
  }

  /** Every registered method is reachable under its key afterwards. */
  lemma RegisterAllDefines(h: Handlers, svcs: seq<Service>, i: nat, j: nat)
    requires i < |svcs| && j < |svcs[i].desc.methods|
    ensures KeyAt(svcs, i, j) in RegisterAll(h, svcs)
  {
    RegisterAllKeys(h, svcs);
    assert KeyAt(svcs, i, j) in ProducedKeys(svcs);
  }

  /** Keys no registered method produces keep their previous binding. */
  lemma {:induction false} RegisterAllKeepsOthers(h: Handlers, svcs: seq<Service>, k: MethodID)
    requires k !in ProducedKeys(svcs)
    ensures k in RegisterAll(h, svcs) <==> k in h
    ensures k in h ==> RegisterAll(h, svcs)[k] == h[k]
  {
    if svcs != [] {
      var svc := svcs[|svcs| - 1];
      ProducedKeysSnoc(svcs);
      RegisterAllKeepsOthers(h, svcs[..|svcs| - 1], k);
      RegisterMethodsKeepsOthers(RegisterAll(h, svcs[..|svcs| - 1]), svc, svc.desc.methods, k);
    }
  }

  /**
   * Last write wins: a key is bound to the method descriptor and service
   * instance of its last occurrence in registration order.
   */
  lemma {:induction false} RegisterAllBindsLast(h: Handlers, svcs: seq<Service>, i: nat, j: nat)
    requires i < |svcs| && j < |svcs[i].desc.methods|
    requires IsLastOccurrence(svcs, i, j)
    ensures KeyAt(svcs, i, j) in RegisterAll(h, svcs)
    ensures RegisterAll(h, svcs)[KeyAt(svcs, i, j)] == Binding(svcs[i].desc.methods[j], svcs[i].server)
  {
    var init := svcs[..|svcs| - 1];
    var svc := svcs[|svcs| - 1];
    if i == |svcs| - 1 {
      forall j2 | j < j2 < |svc.desc.methods|
        ensures KeyOf(svc, svc.desc.methods[j2]) != KeyOf(svc, svc.desc.methods[j])
      {
        assert KeyAt(svcs, i, j2) != KeyAt(svcs, i, j);
      }
      RegisterMethodsBindsLast(RegisterAll(h, init), svc, svc.desc.methods, j);
    } else {
      assert forall i2 :: 0 <= i2 < |init| ==> init[i2] == svcs[i2];
      assert forall j2 :: j < j2 < |init[i].desc.methods| ==> KeyAt(init, i, j2) == KeyAt(svcs, i, j2);
      RegisterAllBindsLast(h, init, i, j);
      var k := KeyAt(svcs, i, j);
      assert k !in MethodKeys(svc);
      RegisterMethodsKeepsOthers(RegisterAll(h, init), svc, svc.desc.methods, k);
    }
  }
}
