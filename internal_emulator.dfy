/**
 * The earlier revision of the emulator server (internal/emulator/server.go):
 * its event handler, which hands the decoder a copy of the argument, and the
 * start-up part of `Serve` (registry and routes first, then the ports).
 */
module InternalEmulator {
  import opened Wrappers
  import opened GoModel
  import opened Triggers
  import opened Callbacks
  import opened Ports
  import SupportEmulator

  /**
   * The handler for an event-shaped callback. The argument is the element of
   * a fresh `reflect.New(argType)`; the decoder only ever sees the copy
   * `argValue.Interface()`, a non-pointer it cannot write through, so the
   * callback gets the zero value of its declared type whatever the body and
   * whatever the decoder does; then 200 is written.
   */
  function HandleEvent(callback: CallbackValue, argType: GoType, r: Request, decode: Decoder): (c: Completion)
    ensures |c.calls| == 1 && c.status == 200
    ensures c.calls[0].callback == callback && c.calls[0].ctx == r.ctx
    ensures c.calls[0].arg == Direct(Value(argType, ZeroPayload))
  {
    // `Decode(arg)` is handed the copy, not a pointer: it can write nothing
    // the callback sees, so no call of `decode` stands for it.
    var argValue := Value(argType, ZeroPayload);
    Completion([Invocation(callback, r.ctx, Direct(argValue))], 200)
  }

  /** The body cannot matter: any two requests with the same context are served alike. */
  lemma BodyIgnored(callback: CallbackValue, argType: GoType, r1: Request, r2: Request, d1: Decoder, d2: Decoder)
    requires r1.ctx == r2.ctx
    ensures HandleEvent(callback, argType, r1, d1) == HandleEvent(callback, argType, r2, d2)
  {
  }

  /**
   * Where the two revisions part: given a body the decoder fills in, the later
   * revision passes the decoded value while this one passes the zero value;
   * and for a pointer payload this one passes a nil pointer where the later
   * passes the address of a fresh value, whatever the body.
   */
  lemma RevisionsDiverge(callback: CallbackValue, argType: GoType, r: Request, decode: Decoder)
    requires argType.Ptr? || decode(r.body, argType).filled != ZeroPayload
    ensures SupportEmulator.HandleEvent(callback, argType, r, decode).calls[0].arg != HandleEvent(callback, argType, r, decode).calls[0].arg
    ensures argType.Ptr? ==> HandleEvent(callback, argType, r, decode).calls[0].arg.v.payload == ZeroPayload
    ensures argType.Ptr? ==> SupportEmulator.HandleEvent(callback, argType, r, decode).calls[0].arg.AddressOf?
  {
  }

  /** The manifest route of this revision. */
  const ManifestPath := "/__/backend.yaml"

  datatype Server = Server(registry: map<string, Function>, routes: map<string, Shape>, ports: PortConfig, manifestPath: string)

  /**
   * The start-up part of `Serve`: keeps the values implementing `function`,
   * routes "/<symbol>" to each one's handler (a callback of a bad shape panics
   * before the ports are looked at), mounts the manifest at
   * "/__/backend.yaml", and resolves the ports.
   */
  method Serve(symbols: map<string, AnyValue>, env: Env) returns (r: Result<Server, string>)
    ensures (exists k :: k in symbols && symbols[k].FunctionValue? && Classify(symbols[k].fn.Callback()).Panic?) ==>
      r.Failure? && exists k :: k in symbols && symbols[k].FunctionValue? && Classify(symbols[k].fn.Callback()) == Panic(r.error)
    ensures r.Failure? <==> (ResolvePorts(env).Failure? ||
      exists k :: k in symbols && symbols[k].FunctionValue? && Classify(symbols[k].fn.Callback()).Panic?)
    ensures (forall k :: k in symbols && symbols[k].FunctionValue? ==> !Classify(symbols[k].fn.Callback()).Panic?) ==>
      r.Failure? ==> r == Failure(ResolvePorts(env).error)
    ensures r.Success? ==> r.value.ports == ResolvePorts(env).value && r.value.manifestPath == ManifestPath
    ensures r.Success? ==> forall k :: k in r.value.registry <==> k in symbols && symbols[k].FunctionValue?
    ensures r.Success? ==> forall k :: k in r.value.registry ==>
      r.value.registry[k] == symbols[k].fn && "/" + k in r.value.routes &&
      r.value.routes["/" + k] == Classify(symbols[k].fn.Callback())
    ensures r.Success? ==> forall p :: p in r.value.routes ==> exists k :: k in r.value.registry && p == "/" + k
  {
    var d := FilterFunctions(symbols);
    var routes := RegisterHandlers(d);
    if routes.Failure? {
      return Failure(routes.error);
    }
    var ports := ResolvePorts(env);
    if ports.Failure? {
      return Failure(ports.error);
    }
    return Success(Server(d, routes.value, ports.value, ManifestPath));
  }
}
