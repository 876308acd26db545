/**
 * The pieces of the Go runtime the core touches, as plain values: the types
 * that reflection inspects, callback values, request contexts, the process
 * environment, panics, and the payload a JSON decoder leaves in a value.
 */
module GoModel {

  /** Go types as far as callback classification distinguishes them. */
  datatype GoType =
    | Named(name: string)                               // any type that is neither a pointer nor a function
    | Ptr(elem: GoType)                                 // *elem
    | Func(params: seq<GoType>, results: seq<GoType>)   // an unnamed, non-variadic func type

  const ContextType := Named("context.Context")
  const ResponseWriterType := Named("net/http.ResponseWriter")
  const RequestType := Named("net/http.Request")

  /** `func(http.ResponseWriter, *http.Request)`, the plain HTTP handler type. */
  const HttpHandlerType := Func([ResponseWriterType, Ptr(RequestType)], [])

  /** Go's spelling of a type, as `reflect.Type.String` prints it. */
  function TypeString(t: GoType): string
  {
    match t
    case Named(n) => n
    case Ptr(e) => "*" + TypeString(e)
    case Func(ps, rs) => "func(" + TypeList(ps) + ")" + (if rs == [] then "" else " (" + TypeList(rs) + ")")
  }

  function TypeList(ts: seq<GoType>): string
    decreases ts
  {
    if ts == [] then ""
    else if |ts| == 1 then TypeString(ts[0])
    else TypeString(ts[0]) + ", " + TypeList(ts[1..])
  }

  /**
   * The value stored in a `Callback` field: a nil interface, or a value of
   * some dynamic type; `code` tells apart callbacks of the same type.
   */
  datatype CallbackValue = NilCallback | CallbackOf(ty: GoType, code: nat)
  {
    /** `reflect.Value.Kind() == reflect.Func` */
    predicate IsFunc() { CallbackOf? && ty.Func? }
  }

  /** The type with one level of pointer indirection removed, if it has one. */
  function StripPointer(t: GoType): GoType
  {
    if t.Ptr? then t.elem else t
  }

  /** A value stored in a request context under a string key. */
  datatype CtxValue = BoolValue(b: bool) | StringValue(s: string) | OtherValue

  /** A `context.Context`: the values it carries, keyed by string. */
  datatype Context = Context(values: map<string, CtxValue>)

  const DiscoveryKey := "firebase_discovery"

  /** `ctx.Value("firebase_discovery") == true`: the value must be the boolean `true`. */
  predicate IsDiscovery(ctx: Context)
  {
    DiscoveryKey in ctx.values && ctx.values[DiscoveryKey] == BoolValue(true)
  }

  /** An inbound HTTP request: its context and its body. */
  datatype Request = Request(ctx: Context, body: seq<char>)

  /** An `http.ResponseWriter`, identified by the connection it writes to. */
  datatype ResponseWriter = ResponseWriter(id: nat)

  /** The process environment, as `os.Getenv` sees it. */
  type Env = map<string, string>

  /** `os.Getenv`: the value, or "" when the variable is unset. */
  function Getenv(env: Env, key: string): string
  {
    if key in env then env[key] else ""
  }

  /** How a Go call ends: it returns, or it panics with a message. */
  datatype Outcome = Returned | Panicked(message: string)

  /** What a JSON decoder has written into a value; a fresh value holds the zero payload. */
  datatype Payload = ZeroPayload | Filled(data: seq<char>)

  /**
   * What decoding a JSON body into a fresh zero value of a type leaves in that
   * value, and whether the decoder reported an error (it may have written
   * part of the value before failing).
   */
  datatype DecodeResult = DecodeResult(filled: Payload, failed: bool)

  /** `json.NewDecoder(body).Decode(ptr)`, for a pointer to a fresh value of the given type. */
  type Decoder = (seq<char>, GoType) -> DecodeResult

  /** A Go value of type `ty`. */
  datatype Value = Value(ty: GoType, payload: Payload)

  /** An argument passed by reflection: a value itself, or the address of one. */
  datatype Arg = Direct(v: Value) | AddressOf(v: Value)
  {
    function Type(): GoType
    {
      match this
      case Direct(v) => v.ty
      case AddressOf(v) => Ptr(v.ty)
    }
  }
}
