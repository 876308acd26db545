/**
 * The SDK wrappers of codegen/functions/sdk.go: user callbacks wrapped so
 * that a request whose context carries `"firebase_discovery" == true` runs no
 * business logic, and a Pub/Sub wrapper that decodes every message into one
 * buffer allocated when the wrapper was built.
 */
module Sdk {
  import opened Wrappers
  import opened GoModel
  import opened Ports

  /** A call a wrapper made to the user's HTTP callback. */
  datatype HttpCall = HttpCall(callback: CallbackValue, w: ResponseWriter, r: Request)

  /**
   * The handler `OnRequest(callback)` applied to one request: in discovery
   * mode it returns without calling; otherwise it calls the callback once,
   * with the very writer and request it was given.
   */
  function OnRequest(callback: CallbackValue, w: ResponseWriter, r: Request): (calls: seq<HttpCall>)
    ensures IsDiscovery(r.ctx) <==> calls == []
    ensures !IsDiscovery(r.ctx) ==> calls == [HttpCall(callback, w, r)]
  {
    if IsDiscovery(r.ctx) then [] else [HttpCall(callback, w, r)]
  }

  /** Only the boolean `true` means discovery: the string "true" does not switch it on. */
  lemma OnlyBooleanTrueDiscovers(callback: CallbackValue, w: ResponseWriter, r: Request)
    requires DiscoveryKey in r.ctx.values && r.ctx.values[DiscoveryKey] != BoolValue(true)
    ensures |OnRequest(callback, w, r)| == 1
  {
  }

  /** The value `val` that `OnPubSubEvent` allocates once; `p` is its address. */
  class PayloadBuffer {
    const ty: GoType
    var payload: Payload

    constructor (ty: GoType)
      ensures this.ty == ty && payload == ZeroPayload
    {
      this.ty := ty;
      payload := ZeroPayload;
    }
  }

  /**
   * `json.Unmarshal(data, p)` into a buffer that already holds a payload (a
   * later message is merged into what earlier ones left): what the buffer
   * holds afterwards, and the error, if one was returned.
   */
  datatype UnmarshalResult = UnmarshalResult(payload: Payload, err: Option<string>)

  type Unmarshaler = (seq<char>, GoType, Payload) -> UnmarshalResult

  /** What the callback was handed: the shared buffer's address, or a copy of its value. */
  datatype Delivered = ByPointer(buffer: PayloadBuffer) | ByValue(v: Value)

  /** A call the wrapper made to the user's callback, with the payload as the callback saw it. */
  datatype PubSubCall = PubSubCall(ctx: Context, delivered: Delivered, seen: Payload)

  const TooFewArgumentsMessage := "reflect: Call with too few input arguments"

  const NilDereferenceMessage := "runtime error: invalid memory address or nil pointer dereference"

  /** The runtime's bounds-check panic for index `index` of a slice of length `length`. */
  function IndexOutOfRangeMessage(index: nat, length: nat): string
  {
    "runtime error: index out of range [" + FormatNat(index) + "] with length " + FormatNat(length)
  }

  /** The panic `reflect.Value.Call` raises for an argument not assignable to its parameter. */
  function ArgumentMessage(passed: string, param: GoType): string
  {
    "reflect: Call using " + passed + " as type " + TypeString(param)
  }

  /**
   * `reflect.Value.Call(ctx, arg)`'s checks, with `arg` of type `passed`: a
   * callback taking more than two parameters, a first parameter other than
   * `context.Context`, or a second one other than `passed`, panics.
   */
  function CallCheck(params: seq<GoType>, passed: GoType): (r: Option<string>)
    requires |params| >= 2
    ensures r.None? <==> params == [ContextType, passed]
  {
    if |params| != 2 then Some(TooFewArgumentsMessage)
    else if params[0] != ContextType then Some(ArgumentMessage("context.Context", params[0]))
    else if params[1] != passed then Some(ArgumentMessage(TypeString(passed), params[1]))
    else None
  }

  /** The handler `OnPubSubEvent(topic, callback)` returns, with the buffer it closes over. */
  class PubSubHandler {
    const topic: string
    const callback: CallbackValue
    const val: PayloadBuffer
    /** Every call made to the user's callback so far. */
    var calls: seq<PubSubCall>

    /**
     * The payload type is the callback's second parameter with one pointer
     * level stripped, and every pointer the callback was ever handed is `val`.
     */
    ghost predicate Valid()
      reads this, val
    {
      callback.IsFunc() && |callback.ty.params| >= 2 &&
      val.ty == StripPointer(callback.ty.params[1]) &&
      forall i :: 0 <= i < |calls| ==> calls[i].delivered.ByPointer? ==> calls[i].delivered.buffer == val
    }

    constructor (topic: string, callback: CallbackValue)
      requires callback.IsFunc() && |callback.ty.params| >= 2
      ensures Valid() && fresh(val)
      ensures this.topic == topic && this.callback == callback && calls == [] && val.payload == ZeroPayload
    {
      this.topic := topic;
      this.callback := callback;
      var argType := callback.ty.params[1];
      if argType.Ptr? {
        argType := argType.elem;
      }
      val := new PayloadBuffer(argType);
      calls := [];
    }

    /** The declared type of the callback's payload parameter. */
    function Declared(): GoType
      reads this
      requires callback.IsFunc() && |callback.ty.params| >= 2
    {
      callback.ty.params[1]
    }

    /**
     * One message, as the code is written: in discovery mode return before
     * decoding; otherwise unmarshal into the shared buffer, panic on an error
     * before the callback runs, and call the callback with `(ctx, val)`,
     * `val` being the buffer's address whatever type the callback declared.
     */
    method Handle(ctx: Context, data: seq<char>, unmarshal: Unmarshaler) returns (outcome: Outcome)
      requires Valid()
      modifies this, val
      ensures Valid()
      ensures IsDiscovery(ctx) ==> outcome == Returned && calls == old(calls) && val.payload == old(val.payload)
      ensures !IsDiscovery(ctx) ==> val.payload == unmarshal(data, val.ty, old(val.payload)).payload
      ensures !IsDiscovery(ctx) && unmarshal(data, val.ty, old(val.payload)).err.Some? ==>
        outcome == Panicked(unmarshal(data, val.ty, old(val.payload)).err.value) && calls == old(calls)
      ensures !IsDiscovery(ctx) && unmarshal(data, val.ty, old(val.payload)).err.None? ==>
        match CallCheck(callback.ty.params, Ptr(val.ty))
        case None => outcome == Returned && calls == old(calls) + [PubSubCall(ctx, ByPointer(val), val.payload)]
        case Some(msg) => outcome == Panicked(msg) && calls == old(calls)
    {
      if IsDiscovery(ctx) {
        return Returned;
      }
      var result := unmarshal(data, val.ty, val.payload);
      val.payload := result.payload;
      if result.err.Some? {
        return Panicked(result.err.value);
      }
      var check := CallCheck(callback.ty.params, Ptr(val.ty));
      if check.Some? {
        return Panicked(check.value);
      }
      calls := calls + [PubSubCall(ctx, ByPointer(val), val.payload)];
      return Returned;
    }

    /**
     * One message as evidently intended: as `Handle`, except that a callback
     * declaring a non-pointer payload is handed a copy of the buffer's value,
     * so the argument always has the declared type.
     */
    method HandleCorrected(ctx: Context, data: seq<char>, unmarshal: Unmarshaler) returns (outcome: Outcome)
      requires Valid()
      modifies this, val
      ensures Valid()
      ensures IsDiscovery(ctx) ==> outcome == Returned && calls == old(calls) && val.payload == old(val.payload)
      ensures !IsDiscovery(ctx) ==> val.payload == unmarshal(data, val.ty, old(val.payload)).payload
      ensures !IsDiscovery(ctx) && unmarshal(data, val.ty, old(val.payload)).err.Some? ==>
        outcome == Panicked(unmarshal(data, val.ty, old(val.payload)).err.value) && calls == old(calls)
      ensures (!IsDiscovery(ctx) && unmarshal(data, val.ty, old(val.payload)).err.None? &&
               |callback.ty.params| == 2 && callback.ty.params[0] == ContextType) ==>
        outcome == Returned && |calls| == |old(calls)| + 1 && calls[..|old(calls)|] == old(calls) &&
        calls[|old(calls)|].ctx == ctx && calls[|old(calls)|].seen == val.payload &&
        DeliveredType(calls[|old(calls)|].delivered) == Declared()
    {
      if IsDiscovery(ctx) {
        return Returned;
      }
      var result := unmarshal(data, val.ty, val.payload);
      val.payload := result.payload;
      if result.err.Some? {
        return Panicked(result.err.value);
      }
      var declared := callback.ty.params[1];
      var check := CallCheck(callback.ty.params, declared);
      if check.Some? {
        return Panicked(check.value);
      }
      var delivered := if declared.Ptr? then ByPointer(val) else ByValue(Value(val.ty, val.payload));
      calls := calls + [PubSubCall(ctx, delivered, val.payload)];
      return Returned;
    }
  }

  /** The type of what the callback was handed. */
  function DeliveredType(d: Delivered): GoType
    reads if d.ByPointer? then {d.buffer} else {}
  {
    match d
    case ByPointer(b) => Ptr(b.ty)
    case ByValue(v) => v.ty
  }

  /**
   * The panic `OnPubSubEvent` raises while reading the callback's second
   * parameter type with `reflect.TypeOf(callback).In(1)`: a nil callback has
   * a nil type, so the method call dereferences nil; `In` refuses a non-func
   * type; and on a func it indexes the parameter list directly, so a func of
   * fewer than two parameters fails the runtime's bounds check.
   */
  function ConstructionPanic(callback: CallbackValue): (panic: Option<string>)
    ensures panic.None? <==> callback.IsFunc() && |callback.ty.params| >= 2
    ensures callback.NilCallback? ==> panic == Some(NilDereferenceMessage)
    ensures callback.CallbackOf? && !callback.ty.Func? ==> panic == Some("reflect: In of non-func type " + TypeString(callback.ty))
    ensures callback.IsFunc() && |callback.ty.params| < 2 ==> panic == Some(IndexOutOfRangeMessage(1, |callback.ty.params|))
  {
    match callback
    case NilCallback => Some(NilDereferenceMessage)
    case CallbackOf(ty, _) =>
      if !ty.Func? then Some("reflect: In of non-func type " + TypeString(ty))
      else if |ty.params| < 2 then Some(IndexOutOfRangeMessage(1, |ty.params|))
      else None
  }

  /**
   * `OnPubSubEvent`: panics unless the callback is a func with a second
   * parameter; otherwise allocates the buffer once and returns the handler.
   */
  method OnPubSubEvent(topic: string, callback: CallbackValue) returns (r: Result<PubSubHandler, string>)
    ensures r.Failure? <==> !(callback.IsFunc() && |callback.ty.params| >= 2)
    ensures r.Failure? ==> ConstructionPanic(callback) == Some(r.error)
    ensures r.Success? ==> fresh(r.value) && fresh(r.value.val) && r.value.Valid()
    ensures r.Success? ==> r.value.topic == topic && r.value.callback == callback
    ensures r.Success? ==> r.value.calls == [] && r.value.val.payload == ZeroPayload
  {
    var panic := ConstructionPanic(callback);
    if panic.Some? {
      return Failure(panic.value);
    }
    var h := new PubSubHandler(topic, callback);
    return Success(h);
  }

  /**
   * The wrapper as written cannot serve a callback that declares its payload
   * by value: after a successful decode it hands over `*T` where `T` is
   * declared, and the reflective call panics. Declaring `*T` works.
   * `Named(t)` stands for a named non-interface type `T`: `GoType` has no
   * interface types, and assignability is modelled as type equality, which
   * is Go's rule for a non-interface `T` (a `*T` is not assignable to it).
   */
  lemma ValuePayloadPanics(t: string)
    ensures CallCheck([ContextType, Named(t)], Ptr(StripPointer(Named(t)))).Some?
    ensures CallCheck([ContextType, Ptr(Named(t))], Ptr(StripPointer(Ptr(Named(t))))).None?
  {
  }

  /** The corrected delivery passes the declared type exactly, pointer or not. */
  lemma CorrectedDeliveryMatches(declared: GoType)
    ensures CallCheck([ContextType, declared], declared).None?
    ensures (if declared.Ptr? then Ptr(StripPointer(declared)) else StripPointer(declared)) == declared
  {
  }
}
