/**
 * `getHandler`'s decision over the shape of a callback, which both server
 * revisions make with the same checks and the same panic messages, and the
 * loop of `Serve` that turns every registry entry into a route.
 */
module Callbacks {
  import opened Wrappers
  import opened GoModel
  import Triggers

  const NotAFunctionMessage := "CloudFunctions should have a Callback function"
  const ArityMessage := "CloudFunctions' Callback should take two parameters"
  const ContextMessage := "Event-handling CloudFunctions should take a first parameter of *context.Context"

  /** What `getHandler` makes of a callback. */
  datatype Shape =
    | Panic(message: string)
    | Http(handler: CallbackValue)                     // the callback itself serves requests
    | Event(callback: CallbackValue, argType: GoType)  // wrapped: decode the body, then call

  /** A call a handler made to the user's callback, as a test double would record it. */
  datatype Invocation = Invocation(callback: CallbackValue, ctx: Context, arg: Arg)

  /** What serving one request did: the callback calls made and the status written. */
  datatype Completion = Completion(calls: seq<Invocation>, status: int)

  /**
   * The decision chain: not a func, or a func not taking exactly two
   * parameters, panics; exactly `func(http.ResponseWriter, *http.Request)` is
   * its own handler; any other callback must take a `context.Context` first,
   * and its second parameter is the declared payload type.
   */
  function Classify(callback: CallbackValue): (s: Shape)
    ensures s == Panic(NotAFunctionMessage) <==> !callback.IsFunc()
    ensures s == Panic(ArityMessage) <==> callback.IsFunc() && |callback.ty.params| != 2
    ensures s.Http? <==> callback.IsFunc() && callback.ty == HttpHandlerType
    ensures s.Http? ==> s.handler == callback
    ensures s == Panic(ContextMessage) <==>
      callback.IsFunc() && |callback.ty.params| == 2 && callback.ty != HttpHandlerType &&
      callback.ty.params[0] != ContextType
    ensures s.Event? <==>
      callback.IsFunc() && |callback.ty.params| == 2 && callback.ty != HttpHandlerType &&
      callback.ty.params[0] == ContextType
    ensures s.Event? ==> s.callback == callback && s.argType == callback.ty.params[1]
  {
    if !callback.IsFunc() then Panic(NotAFunctionMessage)
    else if |callback.ty.params| != 2 then Panic(ArityMessage)
    else if callback.ty == HttpHandlerType then Http(callback)
    else if callback.ty.params[0] != ContextType then Panic(ContextMessage)
    else Event(callback, callback.ty.params[1])
  }

  /** Every HTTPS trigger is served by its own callback: its static type is the handler type. */
  lemma HttpsIsHttpShaped(h: Triggers.Function)
    requires h.HttpsFunction?
    ensures Classify(h.Callback()) == Http(h.Callback())
  {
  }

  /** Distinct symbols get distinct routes. */
  lemma RouteInjective(a: string, b: string)
    ensures "/" + a == "/" + b ==> a == b
  {
    assert ("/" + a)[1..] == a && ("/" + b)[1..] == b;
  }

  /**
   * The second loop of `Serve`: registers `getHandler(fn)` at "/<symbol>" for
   * every entry, in the map's unspecified order; the first callback of a bad
   * shape panics and ends start-up.
   */
  method RegisterHandlers(d: map<string, Triggers.Function>) returns (r: Result<map<string, Shape>, string>)
    ensures r.Failure? <==> exists k :: k in d && Classify(d[k].Callback()).Panic?
    ensures r.Failure? ==> exists k :: k in d && Classify(d[k].Callback()) == Panic(r.error)
    ensures r.Success? ==> forall k :: k in d ==> "/" + k in r.value && r.value["/" + k] == Classify(d[k].Callback())
    ensures r.Success? ==> forall p :: p in r.value ==> exists k :: k in d && p == "/" + k
  {
    var routes: map<string, Shape> := map[];
    var remaining := d.Keys;
    while remaining != {}
      invariant remaining <= d.Keys
      invariant forall k :: k in d && k !in remaining ==>
        "/" + k in routes && routes["/" + k] == Classify(d[k].Callback()) && !routes["/" + k].Panic?
      invariant forall p :: p in routes ==> exists k :: k in d && k !in remaining && p == "/" + k
      decreases remaining
    {
      var symbol :| symbol in remaining;
      var shape := Classify(d[symbol].Callback());
      if shape.Panic? {
        return Failure(shape.message);
      }
      forall k | k in d && k !in remaining && k != symbol ensures "/" + k != "/" + symbol {
        RouteInjective(k, symbol);
      }
      routes := routes["/" + symbol := shape];
      remaining := remaining - {symbol};
    }
    return Success(routes);
  }
}
