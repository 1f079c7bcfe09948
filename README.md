# Access API gateway: routing core

This project models, in Dafny, the core of a gateway that serves the Flow Access API by passing every call on to an upstream node. It covers these parts:

- **Routing** (`Proxy`, from `src/cmd/proxy/proxy.go`).
  - `FlowAPIService` holds two fixed, ordered client pools: protocol and execution.
  - Both pools share one round-robin cursor, `roundRobin`.
  - `clientProtocol` and `clientExecution` reject an empty pool with `Unimplemented`. Otherwise they advance the cursor modulo the pool size and return that member.
  - Each of the 23 overridden Access API methods is a passthrough to one of the two selectors, according to a fixed table.
  - `NewFlowAPIService` dials every configured endpoint into its pool, and the first error aborts it.
  - The package-level `BootstrapIdentities` turns address and key lists into identities.
- **Identity resolution** (`Identities`). This is the shared definition that both copies of `BootstrapIdentities` are proved against:
  - the lists must have equal length;
  - each identity gets `ZeroID`, the address and the access role;
  - an unquoted key is wrapped in double quotes before it is decoded;
  - a key that fails to decode leaves that identity without a key.
- **The builder's copy of identity resolution** (`ApiServiceBuilder`, from `src/cmd/api-service/builder/api_service_builder.go`).
- **The start-up harness** (`Service`, from `src/cmd/service/service.go`).
  - `Module` and `Component` append named functions.
  - `Build` runs the modules in order and stops at the first error.
  - `ServiceConfig.Start` does the same for the components.
- **The RPC engine constructor** (`Engine`, from `src/cmd/engine/rpc.go`).
  - It rejects a nil proxy.
  - A zero `MaxMsgSize` becomes the platform default.
  - The server's receive and send limits are both set to the effective limit.

Outside effects become parameters:
- JSON decoding of a key is a function `decode: string -> Option<PubKey>`.
- `grpc.Dial` is a function `dial: Client -> Option<Error>`. The `Client` value records the address, the transport, the receive limit and the call timeout it was dialled with.
- An upstream Access API call is a function `upstream: (Client, AccessMethod, Payload) -> Reply`.
- Each registered module or component function is represented by the outcome it has when it runs.
- The indexed-history (DPS) set-up inside `NewFlowAPIService` is represented by the stage at which it fails, if any.

`DefaultMaxMsgSize` (module `Grpc`, shared by the proxy's clients and the engine's server) is set to 20 MiB. That is the value of flow-go's `grpcutils.DefaultMaxMsgSize`, and flow-go is not part of this model.

The model follows what this version of the code does:
- There is no indexed-history pool in routing and no fallback chain.
- The DPS server is built but no method consults it.
- Both pools share one cursor.
- Every upstream connection uses the plaintext transport, because `NewFlowAPIService` clears each identity's key just before it tests the key (proxy.go:40, 73). In `Proxy.DialPool` the TLS branch holds only `assert false`, which proves that it cannot be reached.

## Model

| member | source | states |
|---|---|---|
| `Identities.Quoted` | src/cmd/proxy/proxy.go:199-201 | The result always starts with a double quote. A key that already starts with one is passed unchanged. Any other key becomes `"` + key + `"`, and stripping the two added quotes gives the key back. |
| `Identities.QuotedIdempotent` | src/cmd/api-service/builder/api_service_builder.go:139-141 | Quoting an already-quoted key changes nothing. |
| `Identities.QuotedInjective` | src/cmd/proxy/proxy.go:196-201 | Two different unquoted keys never quote to the same string. |
| `Identities.ResolvedIdentity` | src/cmd/proxy/proxy.go:186-203 | The identity built for one pair has `NodeID = ZeroID`, the given address, `Role = Access`, and the decoder's result on the quoted key as its network key. |
| `Identities.Resolve` | src/cmd/proxy/proxy.go:179-206 | Fails with the count-mismatch error exactly when the lists differ in length. Otherwise it returns exactly `len(addresses)` identities, and identity i has address i, `ZeroID`, the access role and `decode(Quoted(keys[i]))`. |
| `Identities.DecodeFailureIsLocal` | src/cmd/proxy/proxy.go:203 | A key that fails to decode does not abort resolution. That identity has no key, and every other identity is unaffected by what key was configured at that position. |
| `Proxy.BootstrapIdentities` | src/cmd/proxy/proxy.go:179-206 | The index-filling loop returns exactly `Resolve(addresses, keys, decode)`. |
| `ApiServiceBuilder.BootstrapIdentities` | src/cmd/api-service/builder/api_service_builder.go:119-150 | Returns the same `Resolve` result as the proxy copy. It also reports, in increasing order, exactly the positions whose key failed to decode, which are the iterations that take the logging branch. It reports none when the lengths differ. |
| `Proxy.PoolOf` | src/cmd/proxy/proxy.go:252-457 | The table of which selector each passthrough calls: a method is routed to the protocol pool exactly when it is one of the ten protocol methods, and to the execution pool exactly when it is one of the thirteen execution methods. |
| `Proxy.RoutingTableMatchesGroups` | src/cmd/proxy/proxy.go:252-457 | A method selects from the protocol pool exactly when it is one of the ten protocol methods: Ping, the three header lookups, the three block lookups, GetCollectionByID, SendTransaction and GetLatestProtocolStateSnapshot. It selects from the execution pool exactly when it is one of the other thirteen. The two groups are disjoint. |
| `Proxy.Select` | src/cmd/proxy/proxy.go:222-250 | An empty pool gives `Unimplemented` and leaves the cursor unchanged. A pool of N members moves the cursor to `(old+1) mod N`, which is in bounds, and returns the member at the new cursor. |
| `Proxy.Trail` | src/cmd/proxy/proxy.go:230-232 | Every cursor left by consecutive selections on a non-empty pool is a valid index into it. |
| `Proxy.TrailAt` | src/cmd/proxy/proxy.go:230-232 | The j-th of consecutive selections lands on `(old+1) mod N + j`, wrapped once. |
| `Proxy.RoundRobinCoversPool` | src/cmd/proxy/proxy.go:230-232 | N consecutive selections on a pool of N members return every member exactly once. They start at `(cursor+1) mod N`, which is index `1 mod N` from the initial cursor 0. |
| `Proxy.TrailSplit` | src/cmd/proxy/proxy.go:230-231 | a + b selections are a selections followed by b more, starting from the cursor the first a left. |
| `Proxy.RoundRobinIsFair` | src/cmd/proxy/proxy.go:230-232 | At least q·N consecutive selections take every member at least q times. |
| `Proxy.RoundRobinVisitsEachAtLeast` | src/cmd/proxy/proxy.go:230-232 | M consecutive selections take every member at least ⌊M/N⌋ times. |
| `Proxy.Interleaved` | src/cmd/proxy/proxy.go:212-247 | When selections on both pools advance the one shared cursor in any order, each cursor is still in bounds for the pool it was taken from. |
| `Proxy.SharedCursorCanSkipMembers` | src/cmd/proxy/proxy.go:230-246 | Because the cursor is shared, an execution selection in between can make the protocol pool take the same member twice and skip another. |
| `Proxy.Route` | src/cmd/proxy/proxy.go:254-258 | The body every passthrough shares. When the method's pool is empty, the reply is a nil response with `Unimplemented`, nothing is forwarded and the cursor is unchanged. Otherwise the cursor moves to `(cursor+1) mod N`, which is in bounds, the unchanged request goes to the member there, and that upstream's reply is returned unchanged. |
| `Proxy.EmptyPoolNeverForwards` | src/cmd/proxy/proxy.go:222-258 | A method whose pool is empty returns `Unimplemented` with a nil response. It forwards nothing and leaves the cursor unchanged. |
| `Proxy.ForwardsVerbatim` | src/cmd/proxy/proxy.go:254-258 | A method whose pool is non-empty forwards the unchanged request to the member under the advanced, in-bounds cursor. It returns that upstream's response and error unchanged. |
| `Proxy.RoutingIgnoresOtherPool` | src/cmd/proxy/proxy.go:252-457 | The outcome of a protocol method does not depend on the execution pool at all, and the outcome of an execution method does not depend on the protocol pool. |
| `Proxy.FlowAPIService.constructor` | src/cmd/proxy/proxy.go:165-172 | A new service holds the two pools it was given, with the cursor at 0. |
| `Proxy.FlowAPIService.ClientProtocol` | src/cmd/proxy/proxy.go:222-235 | Performs `Select` on the protocol pool, updates the shared cursor in place, and keeps the cursor invariant. |
| `Proxy.FlowAPIService.ClientExecution` | src/cmd/proxy/proxy.go:237-250 | Performs `Select` on the execution pool with the same shared cursor, and keeps the cursor invariant. |
| `Proxy.FlowAPIService.Call` | src/cmd/proxy/proxy.go:252-457 | Every passthrough method calls the selector its table entry names, returns the selector's error if it fails, and otherwise forwards the request. The reply, the forwarding target and the new cursor are exactly `Route`. |
| `Proxy.InsecureClient` | src/cmd/proxy/proxy.go:42-46 | A client dialled for an address uses that address, the plaintext transport, `DefaultMaxMsgSize` as its receive limit and the given call timeout. |
| `Proxy.FirstDialFailure` | src/cmd/proxy/proxy.go:39-49 | Gives the first endpoint whose dial fails: every dial before it succeeds and its own dial fails, or it is the pool size when every dial succeeds. |
| `Proxy.DialPool` | src/cmd/proxy/proxy.go:38-69 | Succeeds exactly when no dial fails, and otherwise returns the first failing dial's error. On success the pool has one client per identity, in order, each dialled to that identity's address on the plaintext transport with the default receive limit and the given timeout. |
| `Proxy.NewFlowAPIService` | src/cmd/proxy/proxy.go:37-174 | Errors take precedence in this order: the first protocol dial error, then the first execution dial error, then the DPS set-up error. Any of them means no service. Otherwise a fresh service has the cursor at 0 and pools whose lengths equal the identity counts, all on the plaintext transport. |
| `Service.FirstFailure` | src/cmd/service/service.go:67-71 | Gives the first registered function that fails: every function before it succeeds and that one fails, or it is the list length when none fails. |
| `Service.RunInOrder` | src/cmd/service/service.go:99-110 | Runs the functions in registration order and stops right after the first failure. The result is Pass exactly when none fails. A failure returns that function's error after invoking exactly the functions up to it. |
| `Service.ServiceConfig.constructor` | src/cmd/service/service.go:14-17 | A configuration has the given name and no components. |
| `Service.ServiceConfig.Start` | src/cmd/service/service.go:99-110 | Starts the components in order. It returns nil only if all succeed, and otherwise returns the first failing component's error without starting any after it. |
| `Service.FlowServiceBuilder.constructor` | src/cmd/service/service.go:12-19 | A new builder has the given name, no modules and no components. |
| `Service.FlowServiceBuilder.Module` | src/cmd/service/service.go:80-86 | Appends exactly one `{f, name}` at the end of the modules, leaves the components untouched, and returns the same builder. |
| `Service.FlowServiceBuilder.Component` | src/cmd/service/service.go:90-96 | Appends exactly one `{f, name}` at the end of the components, leaves the modules untouched, and returns the same builder. |
| `Service.FlowServiceBuilder.Build` | src/cmd/service/service.go:65-75 | Invokes the modules in order. If module k is the first to fail, it returns that module's error and no service, and modules after k are not invoked. If every module succeeds, it returns a service and no error. |
| `Engine.WithDefaults` | src/cmd/engine/rpc.go:45-47 | The effective configuration keeps the listen address and never has a zero limit. A zero `MaxMsgSize` becomes `DefaultMaxMsgSize`, and a non-zero one is kept as given. |
| `Engine.WithDefaultsIdempotent` | src/cmd/engine/rpc.go:45-47 | Filling in the default a second time changes nothing. |
| `Engine.RPC.constructor` | src/cmd/engine/rpc.go:49-61 | The engine keeps its configuration, its server options and the proxy, and that proxy is the handler registered on the server. |
| `Engine.New` | src/cmd/engine/rpc.go:36-64 | A nil proxy (`null`, standing for a nil `AccessAPIServer` interface value) gives the "proxy argument not set" error and no engine. Otherwise a fresh engine keeps `WithDefaults(config)` and the given proxy, and its server's receive and send limits both equal the effective `MaxMsgSize`. |

## Left out

- Dialling, TLS configuration and the unary timeout interceptor (proxy.go:42-68, 75-101) are network calls. Dialling is the parameter `dial`. The TLS branch is unreachable in this code, as shown above.
- The DPS and indexed-history set-up (proxy.go:104-163) is reduced to its outcome, `dpsFailure`. This set-up includes the flag registration, the codec, the logger, the gRPC server, the DPS dial, the invoker and the listener. The `defer conn.Close()` at proxy.go:146 and the `dpsAccess`/`dpsListener` fields are not modelled, because routing never uses them. The file `dps_access.go` is not part of this model.
- The embedded `AccessAPIServer` and `SetLocalAPI` (proxy.go:209, 218-220) are not modelled. Methods that are not overridden fall through to code outside this model.
- The mutex (proxy.go:227-228, 242-243) is not modelled. Each selector is one atomic method on the object, and concurrent callers are not modelled.
- The request context is not modelled. The request and response messages are opaque byte strings.
- `Proxy.NewFlowAPIService`: the Go loops clear `NetworkPubKey` through the `*Identity` pointers, so the caller's identity list also loses its keys. The model takes identities by value and does not capture this aliasing.
- `Proxy.FlowAPIService.ClientProtocol`: `roundRobin` is an unbounded integer, not Go's 64-bit `int`. `Valid()` keeps it at 0 or below a pool size, so the Go increment cannot overflow.
- JSON key decoding is the parameter `decode`. The Go code decodes into the `NetworkPubKey` field. In flow-go that field has an interface type, which may make every decode fail in practice. The model does not depend on this.
- Logging is not modelled: the zerolog logger, the `Info().Err(err)` calls and the log of loaded flags. Several of these calls build an event without `Msg`/`Send`, so they would emit nothing. The builder's decode-failure branch is modelled only by the positions it reports.
- `ServiceConfig.ParseAndPrintFlags` (service.go:46-61) and the builder's `Initialize`, `Build` and `Run` (api_service_builder.go:47-114) are not modelled. They do flag parsing, signal handling and logging.
- `Service.FlowServiceBuilder.Build`: a registered function gets a pointer to the service configuration and may change it. The model represents each function only by its outcome, so such changes are not captured. Pass stands for the non-nil `&fsb.FlowService`.
- The RPC engine's lifecycle (`Ready`, `Done`, `serve`, rpc.go:69-96) is not modelled. It uses goroutines, `net.Listen` and gRPC `Serve`/`GracefulStop`, which are concurrency and I/O. The logger argument of `New` and its JSON codec are not modelled either.
- `src/cmd/api-service/main.go` is wiring and is not part of this model.
- proxy.go:104 declares `dpsClient := dpsclient.Server{}` and never uses it. Go rejects an unused local variable at compile time, so proxy.go as written does not build. The model leaves that declaration out.
- `Engine.New`: the `proxy` parameter's `null` stands for a nil `AccessAPIServer` interface value, which is what rpc.go:37 compares with nil. A nil `*FlowAPIService` wrapped in that interface is not nil in Go, so it passes the check and the engine is built with it. The model does not capture that case. main.go never passes one, because its first module returns an error before the RPC module runs.
