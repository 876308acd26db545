/**
 * The later revision of the emulator server (support/emulator/server.go):
 * the handler it builds for event-shaped callbacks, and the start-up part of
 * `Serve` (ports first, then the registry and its routes).
 */
module SupportEmulator {
  import opened Wrappers
  import opened GoModel
  import opened Triggers
  import opened Callbacks
  import opened Ports

  /**
   * The handler `getHandler` returns for an event-shaped callback: decode the
   * body into a fresh value of the payload type (the argument type with at
   * most one pointer level stripped), ignore whether decoding failed, pass the
   * value, or its address when a pointer was declared, then write 200.
   */
  function HandleEvent(callback: CallbackValue, argType: GoType, r: Request, decode: Decoder): (c: Completion)
    ensures |c.calls| == 1 && c.status == 200
    ensures c.calls[0].callback == callback && c.calls[0].ctx == r.ctx
    ensures c.calls[0].arg.Type() == argType
    ensures argType.Ptr? ==> c.calls[0].arg == AddressOf(Value(argType.elem, decode(r.body, argType.elem).filled))
    ensures !argType.Ptr? ==> c.calls[0].arg == Direct(Value(argType, decode(r.body, argType).filled))
  {
    var valueType := StripPointer(argType);
    var decoded := decode(r.body, valueType);
    var value := Value(valueType, decoded.filled);
    var arg := if Direct(value).Type() != argType then AddressOf(value) else Direct(value);
    Completion([Invocation(callback, r.ctx, arg)], 200)
  }

  /**
   * A decode error changes nothing: two decoders that leave the same payload
   * behind give the same completion, whichever of them reports a failure.
   */
  lemma DecodeErrorIgnored(callback: CallbackValue, argType: GoType, r: Request, d1: Decoder, d2: Decoder)
    requires d1(r.body, StripPointer(argType)).filled == d2(r.body, StripPointer(argType)).filled
    ensures HandleEvent(callback, argType, r, d1) == HandleEvent(callback, argType, r, d2)
  {
  }

  const ManifestPath := "/backend.yaml"

  /** What a successful start-up has set up before its listeners run. */
  datatype Server = Server(registry: map<string, Function>, routes: map<string, Shape>, ports: PortConfig, manifestPath: string)

  /**
   * The start-up part of `Serve`: resolves the ports (a malformed one panics
   * before anything else), keeps the values implementing `function`, and
   * routes "/<symbol>" to each one's handler (a callback of a bad shape panics).
   */
  method Serve(symbols: map<string, AnyValue>, env: Env) returns (r: Result<Server, string>)
    ensures ResolvePorts(env).Failure? ==> r == Failure(ResolvePorts(env).error)
    ensures r.Failure? <==> (ResolvePorts(env).Failure? ||
      exists k :: k in symbols && symbols[k].FunctionValue? && Classify(symbols[k].fn.Callback()).Panic?)
    ensures r.Failure? && ResolvePorts(env).Success? ==>
      exists k :: k in symbols && symbols[k].FunctionValue? && Classify(symbols[k].fn.Callback()) == Panic(r.error)
    ensures r.Success? ==> r.value.ports == ResolvePorts(env).value && r.value.manifestPath == ManifestPath
    ensures r.Success? ==> forall k :: k in r.value.registry <==> k in symbols && symbols[k].FunctionValue?
    ensures r.Success? ==> forall k :: k in r.value.registry ==>
      r.value.registry[k] == symbols[k].fn && "/" + k in r.value.routes &&
      r.value.routes["/" + k] == Classify(symbols[k].fn.Callback())
    ensures r.Success? ==> forall p :: p in r.value.routes ==> exists k :: k in r.value.registry && p == "/" + k
  {
    var ports := ResolvePorts(env);
    if ports.Failure? {
      return Failure(ports.error);
    }
    var d := FilterFunctions(symbols);
    var routes := RegisterHandlers(d);
    if routes.Failure? {
      return Failure(routes.error);
    }
    return Success(Server(d, routes.value, ports.value, ManifestPath));
  }
}
