# go-functions, modelled in Dafny

This project models the core of `go-functions`, a prototype Go SDK for
Cloud Functions with a local emulator and two code generators:

- the **backend descriptor**: every registered function (`pubsub.Function`,
  `https.Function`) appends its own `FunctionSpec` to a `Backend` manifest
  (`DescribeBackend`, `AddBackendDescription`, `ProjectOrDefault`);
- the **emulator's callback handling** in its two revisions
  (`support/emulator` and `internal/emulator`): a callback is classified by
  its parameter types, HTTP handlers are mounted as they are, and event
  handlers decode the body into a fresh value and call the callback;
- the **emulator's `Serve` configuration**: the registry filter and the
  resolution of `PORT` and `ADMIN_PORT`;
- the **discovery-mode guards** of the decorator SDK (`OnRequest`,
  `OnPubSubEvent`), which skip the user callback when the request context
  carries `"firebase_discovery" == true`;
- the **code generators** of `codegen/deployer` and `deployer`: trigger
  filtering over a package scope, the import list, and the emitted route,
  `main` and entry-point text.

Modules, one per source concern:

| module | file | models |
|---|---|---|
| `Wrappers` | wrappers.dfy | `Option`, `Result` |
| `Text` | text.dfy | concatenation, `strings.Join`, byte-wise order and `sort.Strings` |
| `GoModel` | gomodel.dfy | Go types as a datatype, callbacks, contexts, environment, decoding |
| `Manifest` | manifest.dfy | `support/emulator/backend.go` and `internal/emulator/backend.go` |
| `PubSub` | pubsub.dfy | `pubsub/pubsub.go` |
| `Https` | https.dfy | `https/https.go` |
| `Triggers` | triggers.dfy | the `function` interface, the `Serve` filter and `DescribeBackend` |
| `Callbacks` | callbacks.dfy | the classification half of `getHandler` and the route registration |
| `Ports` | ports.dfy | `strconv.ParseInt(s, 10, 16)` and the port settings of `Serve` |
| `SupportEmulator` | support_emulator.dfy | `support/emulator/server.go` |
| `InternalEmulator` | internal_emulator.dfy | `internal/emulator/server.go` |
| `Sdk` | sdk.dfy | `codegen/functions/sdk.go` |
| `GoPackages` | gopackages.dfy | the package records the generators read, and the shared `loadExports` |
| `DecoratorDiscovery` | decorator_discovery.dfy | `codegen/deployer/decorator_discovery.go` |
| `DeployFunctions` | deploy_functions.dfy | `deployer/deploy_functions.go` |

Modelling choices:

- **State.** `Backend` is a class whose four collections the
  `AddBackendDescription` methods update through a reference, as the Go
  code does through `*Backend`. The Pub/Sub wrapper of the SDK is a class
  holding the one buffer `val` shared by every call, plus a log of the
  callback invocations.
- **Go map order.** Loops over Go maps pick the next key with `:|`, so every
  order is covered. Every property is stated without reference to order.
- **Panics.** A panic is an `Outcome.Panicked(message)` or a
  `Result.Failure(message)` that carries the Go message, typos included;
  the reflect messages that name a dynamic type are the exception, listed
  under "Left out".
- **Reflection.** A callback is a `CallbackValue`: either a nil or non-func
  value, or a func with a `GoType` signature. JSON decoding and
  unmarshalling are function-typed parameters, so the proofs hold for every
  decoder.
- **Environment.** `os.Getenv` reads an `Env` map passed in as a parameter.
- **Templates.** Rendering is string concatenation, with the template's
  whitespace trimming applied by hand.

## Model

| member | source | states |
|---|---|---|
| Manifest.EntryPointRoundTrip | pubsub/pubsub.go:48 | the entry point `symbol + ".Callback"` gives back the symbol |
| Manifest.ProjectOrDefault | support/emulator/backend.go:76-81 | a non-empty project is returned as is; otherwise `GCLOUD_PROJECT`; the result is empty iff both are empty; it never fails; the same holds for internal/emulator/backend.go lines 76-81 |
| PubSub.FirstSlash | pubsub/pubsub.go:56 | finds the first `/`, or reports there is none; a helper for parsing the resource name back |
| PubSub.ResourceRoundTrip | pubsub/pubsub.go:56 | `projects/<project>/topics/<topic>` parses back into project and topic when the project has no `/` |
| PubSub.Function.EffectiveEventType | pubsub/pubsub.go:13-44 | an empty event type becomes `google.cloud.pubsub.topic.v1.messagePublished`; a non-empty one is kept |
| PubSub.Function.Spec | pubsub/pubsub.go:46-63 | id is the symbol and the entry point gives it back; API version 2; region copied and project empty; exactly one filter, `resource`, whose value is `projects/<GCLOUD_PROJECT>/topics/<topic>` for every environment, and parses back to `GCLOUD_PROJECT` and the topic when the project holds no `/`; run-with options copied |
| PubSub.Function.AddBackendDescription | pubsub/pubsub.go:37-64 | an empty topic panics with a message naming the symbol and leaves the backend unchanged; otherwise exactly one spec is appended; the other three collections never change |
| Https.Function.Callback | https/https.go:20 | the callback is a func of exactly the HTTP handler type |
| Https.Function.Spec | https/https.go:26-33 | id is the symbol and the entry point gives it back; API version `GCFv1`; empty trigger; empty region and project; run-with options copied |
| Https.Function.AddBackendDescription | https/https.go:24-34 | appends exactly one spec, never panics, and leaves the other three collections unchanged |
| Triggers.Function.Spec | support/emulator/server.go:25 | whichever implementation describes a function, the spec's id is the symbol and its entry point gives the symbol back |
| Triggers.Function.AddBackendDescription | support/emulator/server.go:25 | dispatches to the implementation: it panics iff a Pub/Sub function has no topic, and otherwise appends that function's spec |
| Triggers.FilterFunctions | support/emulator/server.go:106-110 | a symbol is kept iff its value implements `function`, and it keeps its value; the same holds for internal/emulator/server.go lines 79-83 |
| Triggers.DistinctElements | support/emulator/server.go:24 | keys visited once each are as many as the distinct keys |
| Triggers.DescribedRegistry | support/emulator/server.go:24-26 | specs appended in a key order that visits each key once match the registry: same count, ids equal to the key set, distinct ids, each spec is its function's |
| Triggers.DescribeBackend | support/emulator/server.go:17-28 | aborts iff some Pub/Sub entry has no topic, with that entry's message, and then writes nothing; otherwise the document has one spec per registry key, ids equal to the key set and distinct, each the function's own spec, and empty required APIs, topics and schedules; the same holds for internal/emulator/server.go lines 17-28 |
| Callbacks.Classify | support/emulator/server.go:36-49 | a non-func panics; a wrong arity panics; the exact HTTP handler type is returned unchanged; a first parameter other than `context.Context` panics; anything else is an event handler over the second parameter type. Each outcome is stated as an if-and-only-if; the same holds for internal/emulator/server.go lines 41-54 |
| Callbacks.HttpsIsHttpShaped | support/emulator/server.go:43-45 | an `https.Function` callback is always mounted unchanged |
| Callbacks.RouteInjective | support/emulator/server.go:114 | distinct symbols get distinct routes `/symbol` |
| Callbacks.RegisterHandlers | support/emulator/server.go:112-115 | fails iff some function's classification panics, with that panic's message; otherwise every symbol is routed at `/symbol` to its classification, and there are no other routes |
| Ports.ParseInt16 | support/emulator/server.go:86 | `strconv.ParseInt(s, 10, 16)`: an accepted string is an optional `+` or `-` followed by one or more decimal digits, and the result is the signed number it spells, within [-32768, 32767]; a string that spells no number (empty, a lone sign, a stray character, a base prefix) or spells one outside 16 bits is rejected |
| Ports.FormatNat | support/emulator/server.go:86 | decimal rendering is a non-empty digit string; a helper for the round trip |
| Ports.DecimalOfFormat | support/emulator/server.go:86 | reading back the digits of a number gives the number |
| Ports.ParseFormatRoundTrip | support/emulator/server.go:86 | every 16-bit value, written in decimal with an optional `-`, parses back to itself |
| Ports.ParsePlusSign | support/emulator/server.go:86 | a leading `+` is accepted |
| Ports.ParseRejectsOutOfRange | support/emulator/server.go:86 | a number outside 16 bits is rejected |
| Ports.ResolvePorts | support/emulator/server.go:83-96 | fails iff a set `PORT` or `ADMIN_PORT` does not parse, with `PORT` checked first and each message exact; an unset variable takes its default; a set one takes its parsed value; the same holds for internal/emulator/server.go lines 92-105 |
| Ports.DefaultPorts | support/emulator/server.go:83-98 | with neither variable set, the ports are 8080 and 8081 and the admin API listens |
| Ports.AdminPortZeroDisables | support/emulator/server.go:98-129 | an `ADMIN_PORT` that parses to 0 (`0`, `-0`, `+00`, ...) starts no admin listener; the same holds for internal/emulator/server.go lines 114-116 |
| SupportEmulator.HandleEvent | support/emulator/server.go:51-75 | the callback is called exactly once, with the request's context and an argument of exactly the declared type; one pointer level is stripped for decoding and added back; status 200 is written |
| SupportEmulator.DecodeErrorIgnored | support/emulator/server.go:63 | two decoders that fill the value alike give the same invocation, whatever errors they report |
| SupportEmulator.Serve | support/emulator/server.go:82-117 | a bad port fails first, with its message; then a panicking classification fails; otherwise the server holds the resolved ports, the filtered registry, one route per function and the manifest at `/backend.yaml` |
| InternalEmulator.HandleEvent | internal/emulator/server.go:56-67 | the callback is called exactly once, with the request's context and the zero value of its declared type; status 200 is written |
| InternalEmulator.BodyIgnored | internal/emulator/server.go:59-62 | the body and the decoder make no difference to the invocation |
| InternalEmulator.RevisionsDiverge | internal/emulator/server.go:59-65 | whenever the declared type is a pointer or the body decodes to something, the two revisions pass different arguments; for a pointer type this revision passes a zero pointer value where the other passes an address |
| InternalEmulator.Serve | internal/emulator/server.go:74-105 | a panicking classification fails before the ports are read; otherwise a bad port fails; otherwise the server holds the ports, the filtered registry, one route per function and the manifest at `/__/backend.yaml` |
| Sdk.OnRequest | codegen/functions/sdk.go:20-30 | no call in discovery mode; otherwise exactly one call with the same writer and request |
| Sdk.OnlyBooleanTrueDiscovers | codegen/functions/sdk.go:25 | a discovery value other than boolean `true` does not switch discovery on |
| Sdk.CallCheck | codegen/functions/sdk.go:54-57 | a call with `(ctx, value)` is accepted iff the parameters are exactly `context.Context` and the passed type |
| Sdk.ConstructionPanic | codegen/functions/sdk.go:35-36 | reading the second parameter type panics iff the callback is not a func of at least two parameters: a nil callback with the nil-dereference error, a non-func with `reflect: In of non-func type T`, a shorter func with `index out of range [1] with length N` |
| Sdk.OnPubSubEvent | codegen/functions/sdk.go:32-43 | panics iff the callback is not a func of at least two parameters, with `ConstructionPanic`'s message; otherwise builds a handler with the topic, the callback, an empty log and one fresh zero buffer of the stripped second parameter type |
| Sdk.PubSubHandler.Handle | codegen/functions/sdk.go:44-57 | discovery returns before decoding and changes nothing; otherwise the shared buffer takes the unmarshalled value, a decode error panics without calling, and on success the callback is logged once with the context and the buffer's address, or the call panics when the types do not fit |
| Sdk.ValuePayloadPanics | codegen/functions/sdk.go:35-57 | a callback that declares a value payload is rejected at call time; one that declares a pointer payload is accepted |
| Sdk.PubSubHandler.HandleCorrected | codegen/functions/sdk.go:44-57 | the same handler delivering by address only when the declared type is a pointer: after a successful decode, a callback taking `(context.Context, T)` is logged once with an argument of exactly its declared type |
| Sdk.CorrectedDeliveryMatches | codegen/functions/sdk.go:35-40 | stripping one pointer level and delivering by address exactly when the declared type is a pointer yields the declared type |
| GoPackages.Select | deployer/deploy_functions.go:79-84 | the kept symbols are exactly the scope's symbols the filter accepts |
| GoPackages.SelectPreservesOrder | deployer/deploy_functions.go:79-84 | the kept symbols come from strictly increasing scope positions, so scope order is kept |
| GoPackages.SelectAppend | codegen/deployer/decorator_discovery.go:79-84 | filtering distributes over concatenation, so the loop can append one symbol at a time |
| GoPackages.CollectExports | codegen/deployer/decorator_discovery.go:77-84 | the loop returns exactly the filtered scope, in order |
| GoPackages.IsListedExport | deployer/deploy_functions.go:93-106 | the `isTrigger` loop accepts a symbol iff it is exported and some listed type equals its type string |
| GoPackages.Exports | deployer/deploy_functions.go:67-106 | a load error is returned; package errors give "one or mor errors"; otherwise success iff some symbol passes the filter (for the deployer: exported and of type `https.Function` or `pubsub.Function`), with exactly those symbols in scope order, else "no exported member" |
| GoPackages.LoadExports | codegen/deployer/decorator_discovery.go:67-91 | the loader computes `Exports`; with the decorator's filter (exported, and one of the two handler signatures) it is that file's loader with package errors reported, and it is the deployer's loader as it stands |
| DecoratorDiscovery.IsTrigger | codegen/deployer/decorator_discovery.go:93-114 | a symbol is a trigger iff it is exported and its type is the HTTP handler signature or the Pub/Sub handler signature |
| DecoratorDiscovery.LoadExportsAsWritten | codegen/deployer/decorator_discovery.go:67-91 | on package errors the loader as written reports success with no symbols; otherwise it agrees with `GoPackages.Exports` |
| DecoratorDiscovery.ToTrigger | codegen/deployer/decorator_discovery.go:52-60 | a symbol maps to a trigger iff its type is one of the two; the HTTP type gives an HTTP trigger; package and name are carried over |
| DecoratorDiscovery.TriggersOf | codegen/deployer/decorator_discovery.go:50-64 | succeeds iff every export has a trigger type, with one trigger per export in order; otherwise fails naming an unsupported type |
| DecoratorDiscovery.ExtractTriggers | codegen/deployer/decorator_discovery.go:44-65 | fails exactly when loading fails and with its error (the unsupported-type branch is unreachable); otherwise one trigger per export, in order, with the export's name and the kind its type says |
| DecoratorDiscovery.ExtractTriggersAsWritten | codegen/deployer/decorator_discovery.go:44-74 | a package with errors yields success and no triggers, while `Exports` reports an error |
| DecoratorDiscovery.Trigger.Name | codegen/deployer/decorator_discovery.go:160-162 | the name, with the kind and the package, identifies the trigger; the same holds for lines 238-240 |
| DecoratorDiscovery.Trigger.Discover | codegen/deployer/decorator_discovery.go:134-254 | the discovery program as evidently intended (the handler's arguments in declared order, no `fmt` import for Pub/Sub) ends with `discover(nil, req)` or `discover(ctx, nil)`, and those arguments fit the handler's parameter types; neither generated program compiles as written (see Findings) |
| DecoratorDiscovery.Trigger.DiscoverAsWritten | codegen/deployer/decorator_discovery.go:134-254 | the discovery program as the templates write it, importing `fmt` for Pub/Sub, ends with `discover(req, nil)` or `discover(ctx, nil)` |
| DecoratorDiscovery.InvocationEndsProgram | codegen/deployer/decorator_discovery.go:134-218 | every discovery program, whatever its imports and arguments, ends with its call of the handler |
| DecoratorDiscovery.PubSubDiscoveryFmtUnused | codegen/deployer/decorator_discovery.go:204-218 | the Pub/Sub discovery program imports `fmt`, yet no text after its import block selects `fmt.`, for any handler name and arguments, so not every import is used |
| DecoratorDiscovery.PubSubProgramListsFmt | codegen/deployer/decorator_discovery.go:204-211 | the Pub/Sub discovery program's import block lists `"fmt"` right after `"context"` |
| DecoratorDiscovery.FmtImportListed | codegen/deployer/decorator_discovery.go:204-211 | the Pub/Sub template's import lines are `"context"` then `"fmt"`, whatever follows them |
| DecoratorDiscovery.PubSubMainHasNoFmtSelector | codegen/deployer/decorator_discovery.go:213-217 | the Pub/Sub `main` holds no `fmt.` for any handler identifier and arguments |
| DecoratorDiscovery.FmtUnusedIn | codegen/deployer/decorator_discovery.go:204-218 | a `main` without `fmt.` leaves the Pub/Sub template's `fmt` import unused |
| DecoratorDiscovery.CorrectedDiscoveryImportsUsed | codegen/deployer/decorator_discovery.go:134-218 | with `fmt` dropped, every import of either discovery program is used by its `main`: `context.` builds the context and `http.` the request |
| DecoratorDiscovery.ContextSelected | codegen/deployer/decorator_discovery.go:146 | the discovery context line selects from `context` |
| DecoratorDiscovery.RequestSelectsHttp | codegen/deployer/decorator_discovery.go:147-150 | the HTTP request lines select from `http` |
| DecoratorDiscovery.Trigger.Route | codegen/deployer/decorator_discovery.go:154-236 | the route opens a handler named after the trigger and calls the user function with the writer and request, or with the context and the raw body |
| DecoratorDiscovery.DiscoveryProgramShape | codegen/deployer/decorator_discovery.go:134-218 | each discovery program imports the package as `alias`, takes the trigger's function from it and builds the `firebase_discovery` context |
| DecoratorDiscovery.HttpDiscoveryArgsSwapped | codegen/deployer/decorator_discovery.go:150 | the HTTP discovery call passes `req` where the handler declares an `http.ResponseWriter`, which it cannot be, and `nil` where the request goes |
| DecoratorDiscovery.CorrectedHttpDiscoverySkipsHandler | codegen/deployer/decorator_discovery.go:145-150 | with the arguments in declared order both discovery calls fit the handler types, and the request carrying the discovery context makes the SDK's `OnRequest` wrapper call nothing, whatever the writer |
| DecoratorDiscovery.RunPubSubDiscovery | codegen/deployer/decorator_discovery.go:213-217 | were the Pub/Sub discovery program to compile (as generated it does not: see Findings), `discover(ctx, nil)` on the handler `OnPubSubEvent` built returns without panicking, calls nothing and leaves the shared buffer as it was |
| DecoratorDiscovery.ExpectedImports | codegen/deployer/decorator_discovery.go:286-304 | the import list is sorted, always holds `log` and `net/http`, and holds `encoding/json` and `io/ioutil` iff Pub/Sub triggers exist |
| DecoratorDiscovery.HeaderListsImport | codegen/deployer/decorator_discovery.go:270-278 | each import is one line of the header's import block, in list order |
| DecoratorDiscovery.GenerateHeader | codegen/deployer/decorator_discovery.go:285-321 | after the loop, the appends and the sort, the header lists exactly `ExpectedImports` for "some trigger is Pub/Sub" |
| DecoratorDiscovery.GenerateRoutes | codegen/deployer/decorator_discovery.go:323-335 | the text is every trigger's route, in trigger order, joined with a newline |
| DecoratorDiscovery.RoutesDefineHandlers | codegen/deployer/decorator_discovery.go:323-335 | the routes text defines a handler for each trigger, at increasing offsets in trigger order |
| DecoratorDiscovery.GenerateMain | codegen/deployer/decorator_discovery.go:353-373 | the text is the `main` template over the trigger names, in trigger order |
| DecoratorDiscovery.MainMountsEveryName | codegen/deployer/decorator_discovery.go:337-347 | every name `n` has its `mux.HandleFunc("/n", n)` line, at its place in name order |
| DeployFunctions.IsTrigger | deployer/deploy_functions.go:93-106 | a symbol is a trigger iff it is exported and its type is `https.Function` or `pubsub.Function` |
| DeployFunctions.ExtractTriggers | deployer/deploy_functions.go:49-65 | fails exactly when loading fails; otherwise one `Trigger{Name, Type}` per export, in order, each of one of the two SDK types |
| DeployFunctions.GenerateEntrypoint | deployer/deploy_functions.go:125-144 | the entry point opens with the package clause, the `alias` import and the opening of the `emulator.Serve` map, and closes the map and `main` at its very end |
| DeployFunctions.EntrypointImportsPackage | deployer/deploy_functions.go:108-114 | the entry point imports the user package as `alias` |
| DeployFunctions.EntrypointServesEveryTrigger | deployer/deploy_functions.go:116-121 | every trigger has its `"Name": alias.Name,` entry in the map given to `emulator.Serve`, in trigger order |
| Text.ConcatAt | codegen/deployer/decorator_discovery.go:340 | each part of a concatenation sits at its offset, and offsets grow by the part's length |
| Text.JoinAt | codegen/deployer/decorator_discovery.go:334 | each part of `strings.Join` sits at its offset, and the next one follows after the separator |
| Text.Sort | codegen/deployer/decorator_discovery.go:304 | `sort.Strings` yields a sorted permutation |
| Text.SortedUnique | codegen/deployer/decorator_discovery.go:304 | two sorted permutations of each other are equal, so the sorted import list is determined |
| Text.LessTransitive | codegen/deployer/decorator_discovery.go:304 | byte-wise string order is transitive |
| Text.LessTrichotomy | codegen/deployer/decorator_discovery.go:304 | byte-wise string order is total |

## Left out

- HTTP listeners, the `done` channel and the goroutines of `Serve` are not
  modelled; the model stops at the server's configuration (ports, routes,
  manifest path, registry).
- YAML encoding and struct tags are not modelled. The manifest is the
  `Document` snapshot of the `Backend` before encoding.
- JSON decoding is an arbitrary function parameter. What `Decode` and
  `json.Unmarshal` do with a particular body is not modelled.
- Reflection is replaced by the `GoType` datatype. `reflect` assignability
  is simplified to type equality. Named function types and variadic
  signatures are not modelled.
- `Sdk.CallCheck`: the reflect panic message for a wrong first argument
  names the argument's dynamic type. The model does not compute it and
  reports a fixed text, so only the `None`/`Some` split is exact.
- `Triggers.AnyValue`: a pointer `*pubsub.Function` or `*https.Function`
  also implements `function` (value-receiver methods belong to the
  pointer's method set), so `Serve` keeps it, and `getHandler`'s
  `FieldByName` then panics on the pointer. The model's values are the two
  function structs or non-triggers, so this panic is not modelled.
- `Https.Function.Callback`: a nil `https.Function` callback is not
  modelled separately. The field is typed, so the model always treats it
  as a func of the handler type.
- Console output (`fmt.Print*`, `log.*`) and the command-line argument
  check of the deployer are not modelled.
- `text/template` parse and execute errors are not modelled: the templates
  are constants and their data are plain structs, so those errors cannot
  arise. `Route`, `Discover` and the generators return plain strings, and
  the "first `Route` error aborts" branch of `generateRoutes` is absent.
- `packages.Load` and `go/types` are not modelled. A package is a record
  of its load error, its error count and its scope in `scope.Names()`
  order, which is sorted by name. Each symbol is its name, whether it is
  exported and its type string.
- `DecoratorDiscovery.GenerateHeader`: `sort.Strings` sorts the slice in
  place; the model sorts a sequence value, by insertion sort.
- `Manifest.ApiVersion`: `GCFv1` is not defined in either `backend.go`.
  The model keeps it as a separate constant whose number is unknown.
- The `function` interface of `internal/emulator` is declared over that
  package's own `Backend`, while the shown `pubsub` and `https` packages
  implement the `support/emulator` one. Both revisions are modelled over
  the same closed union of the two implementations.
- The sample programs (`sample/`, `codegen/acme/user_code.go`) are not
  modelled.

## Findings

| source | as written | input that shows it | evidently intended | confidence | as-written member | corrected member |
|---|---|---|---|---|---|---|
| codegen/deployer/decorator_discovery.go:73-74 | when the loaded package has errors, `loadExports` returns `nil, err` while `err` is the nil error of the successful load | a package whose load succeeds with one type error: `errorCount = 1` and no load error | report an error, as deployer/deploy_functions.go:73-74 does; the corrected model reports the deployer's message | not executed | DecoratorDiscovery.ExtractTriggersAsWritten | DecoratorDiscovery.ExtractTriggers |
| codegen/deployer/decorator_discovery.go:150 | the HTTP discovery program calls `discover(req, nil)`, the request in the `http.ResponseWriter` slot and `nil` in the `*http.Request` slot | any HTTP trigger, e.g. `var MyFunction = functions.OnRequest(myFunction)` (codegen/acme/user_code.go:25): the generated program does not compile | `discover(nil, req)`, so the SDK wrapper receives the request that carries the discovery context | not executed | DecoratorDiscovery.HttpDiscoveryArgsSwapped | DecoratorDiscovery.CorrectedHttpDiscoverySkipsHandler |
| codegen/deployer/decorator_discovery.go:204-218 | the Pub/Sub discovery template imports `"fmt"`, and its `main` never uses it | any Pub/Sub trigger, e.g. `var MyOtherFunction = functions.OnPubSubEvent("test_topic", onSignUp)` (codegen/acme/user_code.go:27): Go refuses the program, `"fmt" imported and not used` | import only `context` and the user package | not executed | DecoratorDiscovery.PubSubDiscoveryFmtUnused | DecoratorDiscovery.CorrectedDiscoveryImportsUsed |
| codegen/functions/sdk.go:41-43,54-57 | the callback is called with `val`, the pointer from `reflect.New`, even when its second parameter is declared as a value type `T` | `OnPubSubEvent("t", func(ctx context.Context, u User))` with any body that decodes | pass `val.Elem()` when the declared type is not a pointer | not executed | Sdk.ValuePayloadPanics | Sdk.CorrectedDeliveryMatches |
