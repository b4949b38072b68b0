# apexgrpc dispatch bridge, modelled in Dafny

This project models the core of `apexgrpc`, a Go bridge that lets gRPC
service implementations be invoked from Apex (AWS Lambda) events instead of
over the network. An event is a JSON envelope naming a package, a service,
a method and a JSON payload. The bridge turns the three names into a method
identifier and looks it up in a table built at start-up from the services'
descriptors. It then calls that method's handler with a decoder for the
payload and returns the handler's reply or error as is.

Modules, one per concern of `apexgrpc.go`:

- `Wrappers`: `Option` (a Go pointer that may be nil) and `Result` (a Go `(value, error)` pair; the `*proto.Message` indirection of a reply and the typed-nil `interface{}` that accompanies some errors are abstracted away, see "## Left out").
- `MethodIds`: `MethodID`, `NewMethodID` and `String`. `SplitMethodID` is an inverse used to prove that identifiers do not collide.
- `Errors`: the error kinds with the exact messages the Go code formats.
- `Registry`: service and method descriptors and the stored bindings. `RegisterAll` is the table that registration produces, with lemmas about last-write-wins, preserved keys and the set of keys.
- `Dispatch`: the envelope, the decoder closure, and `Call` (callGRPCMethod) and `Process` (processEvent) as functions, with lemmas on check order, defaults, not-found and pass-through.
- `ApexGrpc`: the classes `Event` (which processing updates in place) and `Server` (whose `handlers` map `Register` fills with nested loops). Their methods are proved equal to the functions above.

Foreign code is passed in as function values:
- the JSON envelope parser (`json.Unmarshal` into `Event`), as `parse`;
- `json.Marshal`, as `marshal`;
- `jsonpb.Unmarshal`, as `unmarshal`, which returns `None` when the bytes do not fit the message type;
- each method's handler entry point, as the `handler` field of `MethodDesc`.

Three points of `apexgrpc.go` that shape the model:
- `Register` takes an ordered slice of services, and when two methods produce the same key the later one overwrites the earlier.
- The dispatcher does not decode the payload itself. It hands the handler a decode function, and the handler decides what to do with a decode error. `UnaryHandler` is the shape protoc generates: it returns that error unchanged.
- Errors are plain `fmt.Errorf` messages (`"event missing service"`, `"method handler not found - <id>"`, ...). The `Error` datatype names each kind, and `Error.Text` gives its message.

## Model

| member | source | states |
|---|---|---|
| MethodIds.MethodID.String | apexgrpc.go:41-43 | `String()` gives the identifier's text back: converting that text to a `MethodID` yields the same identifier |
| MethodIds.NewMethodIDFormat | apexgrpc.go:31-39 | the identifier text is `svc/mtd` when the package is empty and `pkg.svc/mtd` otherwise |
| MethodIds.PackageCollapsesIntoService | apexgrpc.go:33-37 | for a non-empty package `p`, `NewMethodID(p, s, m)` equals `NewMethodID("", p.s, m)`, so an event's package plus service matches a fully qualified registered service name |
| MethodIds.SplitNewMethodID | apexgrpc.go:31-39 | when the package has no `/` and the service has neither `.` nor `/`, the package, service and method can be read back from the identifier |
| MethodIds.NewMethodIDInjective | apexgrpc.go:31-39 | under that same restriction on names, distinct (package, service, method) triples never share an identifier |
| MethodIds.DottedServiceCollides | apexgrpc.go:31-39 | without the restriction they do: `("a", "b", "c")` and `("", "a.b", "c")` give the same identifier |
| MethodIds.NewMethodID | apexgrpc.go:31-39 | the identifier of (package, service, method); its form, its inverse and its injectivity are the lemmas below |
| MethodIds.RegisteredKeysInjective | apexgrpc.go:63 | keys built with an empty package, as registration builds them, never collide for service names without `/`, dotted fully qualified names included |
| Errors.Error.Text | apexgrpc.go:81-132 | the message of each error kind, as the `fmt.Errorf` calls at lines 81, 108, 111, 126 and 132 format it |
| Registry.RegisterAll | apexgrpc.go:60-71 | the table registration leaves: each method of each service, in order, written under its empty-package key; described by the `RegisterAll*` lemmas |
| Dispatch.DecoderFor | apexgrpc.go:124-129 | the decode closure handed to a handler; described by `DecoderReportsMethod` |
| Dispatch.Call | apexgrpc.go:123-140 | lookup followed by one handler call; described by `CallNotFound` and `CallPassesThrough` |
| Dispatch.Process | apexgrpc.go:102-121 | envelope checks, defaults and dispatch; described by `ProcessRejectsIncomplete`, `ProcessDefaults` and `ProcessDispatches` |
| ApexGrpc.Event.constructor | apexgrpc.go:93-98 | an `Event` holding exactly the given package, service, method and data, as the struct literal in `Invoke` builds it |
| Registry.RegisterMethodsBindsLast | apexgrpc.go:62-69 | within one service, a key is bound to the descriptor and server of the last method that produces it |
| Registry.RegisterMethodsKeepsOthers | apexgrpc.go:62-69 | within one service, a key no method produces keeps its old binding, or stays absent |
| Registry.RegisterMethodsKeys | apexgrpc.go:62-69 | the inner loop adds exactly the keys `serviceName/methodName` of the service's methods and removes none |
| Registry.RegisterAllKeys | apexgrpc.go:60-71 | after registration the keys are the old keys plus the keys of every unary method of every service; nothing is removed and streams are never registered |
| Registry.RegisterAllDefines | apexgrpc.go:60-71 | every method of every registered service is bound under `NewMethodID("", ServiceName, MethodName)` |
| Registry.RegisterAllKeepsOthers | apexgrpc.go:60-71 | a key no registered method produces keeps its previous binding, or stays absent |
| Registry.RegisterAllBindsLast | apexgrpc.go:60-71 | last write wins: a key is bound to the method descriptor and server of its last occurrence in registration order |
| Dispatch.DecoderReportsMethod | apexgrpc.go:124-129 | the decoder given to a handler yields the decoded message, or fails with "invalid input data for method (<id>)" when the payload does not fit |
| Dispatch.CallNotFound | apexgrpc.go:130-133 | an identifier absent from the table fails with "method handler not found - <id>", whatever the payload, and no handler runs |
| Dispatch.CallPassesThrough | apexgrpc.go:134-139 | a handler's error is returned unchanged, and so is its reply |
| Dispatch.ProcessRejectsIncomplete | apexgrpc.go:107-112 | a missing service fails with "event missing service" even when the method is missing too; a missing method then fails with "event missing method"; either way the result does not depend on the table |
| Dispatch.ProcessDefaults | apexgrpc.go:103-118 | an absent package behaves exactly like `""`, and absent data exactly like the payload `{}` |
| Dispatch.ProcessDispatches | apexgrpc.go:119-120 | a complete event dispatches to `NewMethodID(pkg, svc, mtd)` with its own data |
| Dispatch.EventReachesRegisteredMethod | apexgrpc.go:119-134 | after registration, an event whose package is empty or prefixes the registered service name runs the handler of the last registration of that method, with the event's payload |
| Dispatch.UnaryHandlerDecoding | apexgrpc.go:124-134 | for a handler that decodes first (the generated unary shape), a payload that does not decode fails with "invalid input data for method (<id>)"; otherwise the implementation gets the decoded request |
| Dispatch.GreeterScenario | apexgrpc.go:119-133 | with only `Greeter.Hello` registered, `Greeter/Hello` reaches its handler and `Greeter/Bye` fails as not found |
| ApexGrpc.Server.constructor | apexgrpc.go:54-58 | a new server has an empty handler table |
| ApexGrpc.Server.Register | apexgrpc.go:60-71 | the nested loops leave the table equal to `RegisterAll(old table, svcs)` |
| ApexGrpc.Server.CallGRPCMethod | apexgrpc.go:123-140 | the lookup and the handler call give exactly `Call`: not found, or the handler's own reply or error |
| ApexGrpc.Server.ProcessEvent | apexgrpc.go:102-121 | the event's package is set to `""` in place when it was absent, its other fields are unchanged, and the result is `Process` of the event as it was passed in |
| ApexGrpc.Server.Invoke | apexgrpc.go:87-100 | a marshalling error is returned and nothing is dispatched; otherwise the result is that of processing the complete event, which is the dispatch to `NewMethodID(pkg, svc, mtd)` with the marshalled bytes |
| ApexGrpc.Server.HandleEvent | apexgrpc.go:77-84 | bytes that do not parse as an envelope fail with "invalid event"; otherwise the parsed envelope is processed |

## Left out

- `Run` and `RunWithContext` hand the event closure to the Apex runtime, which is a foreign library. Only the closure is modelled, as `Server.HandleEvent`, with the context as a parameter. `Run`'s choice of `context.Background()` is not modelled.
- The JSON and protobuf codecs (`json.Unmarshal`, `json.Marshal`, `jsonpb.Unmarshal`) are foreign. They are parameters; their results are passed on uninterpreted, and their failures take the error paths the Go code gives them.
- The `*apex.Context` argument of `processEvent` is never read, so it is not modelled.
- Server.CallGRPCMethod: the Go decode closure reads the payload from a one-shot `io.Reader` (apexgrpc.go:113-117, 125), so a second decode by the same handler sees an exhausted stream and fails with "invalid input data for method (<id>)" even for a good payload. The model's decoder gives the same answer every time it is called.
- Dispatch.DecoderFor: the Go decode closure reads the payload from a one-shot `io.Reader` (apexgrpc.go:113-117, 125), so a second decode by the same handler sees an exhausted stream and fails with "invalid input data for method (<id>)" even for a good payload. The model's decoder gives the same answer every time it is called.
- Dispatch.DecoderReportsMethod: its `Ok` case holds only for the first decode in Go; the Go decode closure reads the payload from a one-shot `io.Reader` (apexgrpc.go:113-117, 125), so a second decode by the same handler sees an exhausted stream and fails with "invalid input data for method (<id>)" even for a good payload. The model's decoder gives the same answer every time it is called.
- Server.CallGRPCMethod: the `reply.(proto.Message)` type assertion (apexgrpc.go:138) panics when a handler returns a nil reply with a nil error. A handler result is `Ok` or `Err` here, so that panic and the (reply, error) pair with both set are not modelled.
- Dispatch.Call: the `reply.(proto.Message)` type assertion (apexgrpc.go:138) panics when a handler returns a nil reply with a nil error. A handler result is `Ok` or `Err` here, so that panic and the (reply, error) pair with both set are not modelled.
- Dispatch.CallPassesThrough: the `reply.(proto.Message)` type assertion (apexgrpc.go:138) panics when a handler returns a nil reply with a nil error. A handler result is `Ok` or `Err` here, so that panic and the (reply, error) pair with both set are not modelled.
- Dispatch.CallPassesThrough: on success Go returns `&replyMsg`, a fresh `*proto.Message` pointing at the handler's reply (apexgrpc.go:138-139), not the reply value itself. When the method is not found or the handler fails, `processEvent` returns a non-nil `interface{}` holding a nil `*proto.Message`, while the missing-field and marshal errors return a plain nil. `Result<Message, Error>` keeps the reply and the error and abstracts from both of these pointer-level differences.
- Dispatch.DecoderFor: Go's closure asserts its argument is a `proto.Message` (`v.(proto.Message)`, apexgrpc.go:125) and panics when a handler passes anything else. The model's decoder takes a message type (`Schema`), so that panic cannot arise.
- Registration stores each descriptor through a pointer to a per-iteration copy. The model stores descriptor values, which gives the same bindings without pointers.
- Concurrency: the table is written once at start-up and then only read, and the Go code has no locking to model.
