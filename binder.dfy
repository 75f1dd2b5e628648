/** The argument binder: checks a JSON array of positional arguments against a
    function's or method's parameter list and turns it into argument values,
    injecting a context first when the callee expects one.

    encoding/json is not modelled: decoding the array text into raw elements
    and decoding one raw element into a parameter type are the oracles
    `decode` and `coerce`, supplied by the caller. */
module Binder {
  import opened GoTypes
  import opened Values
  import opened Errors

  /** json.RawMessage: the undecoded text of one array element. */
  type Raw = string

  /** What json.Unmarshal of the argument text into []json.RawMessage gives. */
  datatype DecodeResult =
    | Elements(raws: seq<Raw>)
    | SyntaxError                   // a *json.SyntaxError
    | DecodeError(message: string)  // any other error

  /** What json.Unmarshal of one element into a new value of a type gives. */
  datatype CoerceResult =
    | Coerced(value: Value)
    | TypeMismatch(observed: string, typ: GoType)  // a *json.UnmarshalTypeError: the JSON value's description and the Go type
    | CoerceError(message: string)              // any other error

  /** An Option. The only way to build one is WithContextFunc. */
  datatype Option = WithContextFunc(fn: ContextFunc)

  /** The context function the options select: the last one given, or the
      default when there is none. */
  function ContextFuncOf(options: seq<Option>): ContextFunc {
    if options == [] then DefaultContextFunc else options[|options| - 1].fn
  }

  /** The value of a config's settings at one moment. */
  datatype Settings = Settings(contextFunc: ContextFunc, arity: int, offset: int, contextIndex: nat)

  /** The settings line up with the function type: the `arity` parameters
      starting at `offset` are exactly the last ones, so every parameter index
      the binder computes is in range. */
  predicate Aligned(t: GoType, c: Settings) {
    t.Func? && 0 <= c.offset && c.offset + c.arity == |t.params|
  }

  /** config. `contextCalls` counts the calls of `contextFunc` made through it,
      the one side effect of binding the caller can observe. */
  class Config {
    var contextFunc: ContextFunc
    var arity: int
    var offset: int
    var contextIndex: nat
    var contextCalls: nat

    function State(): Settings
      reads this
    {
      Settings(contextFunc, arity, offset, contextIndex)
    }

    /** newConfig: the default context function, then every option in order. */
    constructor (options: seq<Option>)
      ensures State() == Settings(ContextFuncOf(options), 0, 0, 0)
      ensures contextCalls == 0
    {
      contextFunc := DefaultContextFunc;
      arity, offset, contextIndex, contextCalls := 0, 0, 0, 0;
      new;
      var i := 0;
      while i < |options|
        invariant 0 <= i <= |options|
        invariant State() == Settings(ContextFuncOf(options[..i]), 0, 0, 0)
        invariant contextCalls == 0
      {
        Apply(options[i]);
        i := i + 1;
      }
      assert options[..i] == options;
    }

    /** The option closure WithContextFunc returns, applied to this config. */
    method Apply(o: Option)
      modifies this
      ensures State() == old(State()).(contextFunc := o.fn)
      ensures contextCalls == old(contextCalls)
    {
      contextFunc := o.fn;
    }

    /** c.contextFunc(): a new context from the configured function. */
    method NewContext() returns (v: Value)
      modifies this
      ensures v == ContextValue(contextFunc)
      ensures State() == old(State())
      ensures contextCalls == old(contextCalls) + 1
    {
      v := ContextValue(contextFunc);
      contextCalls := contextCalls + 1;
    }
  }

  /** The function type of a bound callable has a context parameter at the
      configured index and is not variadic, so a context is injected. */
  predicate Injects(t: GoType, contextIndex: nat)
    requires t.Func?
  {
    !t.variadic && HasContext(t, contextIndex)
  }

  /** The settings after the context step: with a context parameter, the JSON
      arguments start one later and there is one fewer of them. */
  function AfterInjection(t: GoType, c: Settings): Settings
    requires Aligned(t, c)
  {
    if HasContext(t, c.contextIndex) then c.(offset := c.offset + 1, arity := c.arity - 1) else c
  }

  /** The arguments that come before the JSON ones: the injected context, if any. */
  function InjectedContext(t: GoType, c: Settings): seq<Value>
    requires t.Func?
  {
    if HasContext(t, c.contextIndex) then [ContextValue(c.contextFunc)] else []
  }

  /** The error a failed element decoding turns into: an UnmarshalError for a
      type mismatch, the json error itself otherwise. */
  function Failure(r: CoerceResult): Error
    requires !r.Coerced?
  {
    if r.TypeMismatch? then Unmarshal(r.observed, r.typ) else Foreign(r.message)
  }

  /** Decoding each raw element into its parameter type, in order, up to the
      first failure. */
  function CoerceAll(ts: seq<GoType>, raws: seq<Raw>, coerce: (Raw, GoType) -> CoerceResult): Result<seq<Value>>
    requires |ts| == |raws|
    decreases |ts|
  {
    if ts == [] then Ok([])
    else
      var first := coerce(raws[0], ts[0]);
      if !first.Coerced? then Err(Failure(first))
      else match CoerceAll(ts[1..], raws[1..], coerce)
        case Ok(rest) => Ok([first.value] + rest)
        case Err(e) => Err(e)
  }

  /** The element decodings succeed together exactly when each one succeeds,
      and then they give each element's value at its position. */
  lemma {:induction false} CoerceAllOk(ts: seq<GoType>, raws: seq<Raw>, coerce: (Raw, GoType) -> CoerceResult)
    requires |ts| == |raws|
    ensures CoerceAll(ts, raws, coerce).Ok? <==>
            forall i :: 0 <= i < |ts| ==> coerce(raws[i], ts[i]).Coerced?
    ensures var r := CoerceAll(ts, raws, coerce);
            r.Ok? ==> |r.value| == |ts| &&
                      forall i :: 0 <= i < |ts| ==> coerce(raws[i], ts[i]) == Coerced(r.value[i])
  {
    if ts != [] {
      CoerceAllOk(ts[1..], raws[1..], coerce);
      assert forall i :: 1 <= i < |ts| ==> coerce(raws[i], ts[i]) == coerce(raws[1..][i - 1], ts[1..][i - 1]);
    }
  }

  /** The first failing element decides the error; nothing after it matters. */
  lemma {:induction false} CoerceAllStops(ts: seq<GoType>, raws: seq<Raw>, coerce: (Raw, GoType) -> CoerceResult, k: nat)
    requires |ts| == |raws| && k < |ts|
    requires forall j :: 0 <= j < k ==> coerce(raws[j], ts[j]).Coerced?
    requires !coerce(raws[k], ts[k]).Coerced?
    ensures CoerceAll(ts, raws, coerce) == Err(Failure(coerce(raws[k], ts[k])))
  {
    if k > 0 {
      assert forall j :: 0 <= j < k - 1 ==> coerce(raws[1..][j], ts[1..][j]) == coerce(raws[j + 1], ts[j + 1]);
      CoerceAllStops(ts[1..], raws[1..], coerce, k - 1);
    }
  }

  /** arguments, as a value: variadic rejection, context injection, decoding,
      the count check, then the element decodings. */
  function Bind(t: GoType, c: Settings, s: string,
                decode: string -> DecodeResult, coerce: (Raw, GoType) -> CoerceResult): Result<seq<Value>>
    requires Aligned(t, c)
  {
    if t.variadic then Err(Variadic)
    else
      var d := AfterInjection(t, c);
      match decode(s)
      case SyntaxError => Err(InvalidJSON)
      case DecodeError(m) => Err(Foreign(m))
      case Elements(raws) =>
        if |raws| < d.arity then Err(TooFewArguments)
        else if |raws| > d.arity then Err(TooManyArguments)
        else match CoerceAll(t.params[d.offset..], raws, coerce)
          case Err(e) => Err(e)
          case Ok(vs) => Ok(InjectedContext(t, c) + vs)
  }

  /** arguments: binds the JSON text `s` to the parameters of `t` that `c`
      selects. It keeps `c` aligned with `t` through the context step. */
  method Arguments(t: GoType, s: string, c: Config,
                   decode: string -> DecodeResult, coerce: (Raw, GoType) -> CoerceResult)
    returns (r: Result<seq<Value>>)
    requires Aligned(t, c.State())
    modifies c
    ensures r == Bind(t, old(c.State()), s, decode, coerce)
    ensures Aligned(t, c.State())
    ensures c.State() == if t.variadic then old(c.State()) else AfterInjection(t, old(c.State()))
    ensures c.contextCalls == old(c.contextCalls) + if Injects(t, old(c.contextIndex)) then 1 else 0
  {
    var args: seq<Value> := [];

    if t.variadic {
      return Err(Variadic);
    }

    if HasContext(t, c.contextIndex) {
      var ctx := c.NewContext();
      args := args + [ctx];
      c.offset := c.offset + 1;
      c.arity := c.arity - 1;
    }

    var decoded := decode(s);
    if decoded.SyntaxError? {
      return Err(InvalidJSON);
    }
    if decoded.DecodeError? {
      return Err(Foreign(decoded.message));
    }
    var params := decoded.raws;

    if |params| < c.arity {
      return Err(TooFewArguments);
    }
    if |params| > c.arity {
      return Err(TooManyArguments);
    }

    ghost var ts := t.params[c.offset..];
    ghost var prefix := args;
    ghost var state := c.State();
    assert state == AfterInjection(t, old(c.State())) && prefix == InjectedContext(t, old(c.State()));
    var i := 0;
    while i < c.arity
      invariant c.State() == state && 0 <= i <= c.arity == |params| == |ts|
      invariant |args| == |prefix| + i && args[..|prefix|] == prefix
      invariant forall j :: 0 <= j < i ==> coerce(params[j], ts[j]) == Coerced(args[|prefix| + j])
    {
      var kind := t.params[c.offset + i];
      var res := coerce(params[i], kind);
      if res.TypeMismatch? {
        CoerceAllStops(ts, params, coerce, i);
        return Err(Unmarshal(res.observed, res.typ));
      }
      if res.CoerceError? {
        CoerceAllStops(ts, params, coerce, i);
        return Err(Foreign(res.message));
      }
      args := args + [res.value];
      i := i + 1;
    }

    CoerceAllOk(ts, params, coerce);
    assert args == prefix + CoerceAll(ts, params, coerce).value;
    return Ok(args);
  }

  /** The settings ArgumentsOfFunc starts from: every parameter comes from JSON
      except a context in position 0. */
  function FuncSettings(t: GoType, options: seq<Option>): Settings
    requires t.Func?
  {
    Settings(ContextFuncOf(options), |t.params|, 0, 0)
  }

  /** The settings ArgumentsOfMethod starts from: the receiver in position 0 is
      skipped and a context is looked for in position 1. */
  function MethodSettings(m: GoType, options: seq<Option>): Settings
    requires m.Func?
  {
    Settings(ContextFuncOf(options), |m.params| - 1, 1, 1)
  }

  function FuncArguments(t: GoType, s: string, options: seq<Option>,
                         decode: string -> DecodeResult, coerce: (Raw, GoType) -> CoerceResult): Result<seq<Value>>
  {
    if !t.Func? then Err(NotFunction) else Bind(t, FuncSettings(t, options), s, decode, coerce)
  }

  function MethodArguments(m: GoType, s: string, options: seq<Option>,
                           decode: string -> DecodeResult, coerce: (Raw, GoType) -> CoerceResult): Result<seq<Value>>
    requires m.Func?
  {
    Bind(m, MethodSettings(m, options), s, decode, coerce)
  }

  /** ArgumentsOfFunc. A non-function is refused before anything else; the
      context function is called once when a context is injected and never
      otherwise (not for a variadic function, not for a non-function). */
  method ArgumentsOfFunc(t: GoType, s: string, options: seq<Option>,
                         decode: string -> DecodeResult, coerce: (Raw, GoType) -> CoerceResult)
    returns (r: Result<seq<Value>>, contextCalls: nat)
    ensures r == FuncArguments(t, s, options, decode, coerce)
    ensures !t.Func? ==> r == Err(NotFunction)
    ensures contextCalls == if t.Func? && Injects(t, 0) then 1 else 0
  {
    if !t.Func? {
      return Err(NotFunction), 0;
    }
    var c := new Config(options);
    c.arity := |t.params|;
    r := Arguments(t, s, c, decode, coerce);
    contextCalls := c.contextCalls;
  }

  /** ArgumentsOfMethod, for a method whose type includes the receiver. */
  method ArgumentsOfMethod(m: Callable, s: string, options: seq<Option>,
                           decode: string -> DecodeResult, coerce: (Raw, GoType) -> CoerceResult)
    returns (r: Result<seq<Value>>, contextCalls: nat)
    requires m.typ.Func?
    ensures r == MethodArguments(m.typ, s, options, decode, coerce)
    ensures contextCalls == if Injects(m.typ, 1) then 1 else 0
  {
    var c := new Config(options);
    c.arity := |m.typ.params| - 1;
    c.offset := 1;
    c.contextIndex := 1;
    r := Arguments(m.typ, s, c, decode, coerce);
    contextCalls := c.contextCalls;
  }

  /** Binding fails before any element is decoded when the function is
      variadic, the text does not decode, or the element count is wrong, in
      that order of precedence. */
  lemma BindErrorPrecedence(t: GoType, c: Settings, s: string,
                            decode: string -> DecodeResult, coerce: (Raw, GoType) -> CoerceResult)
    requires Aligned(t, c)
    ensures var r := Bind(t, c, s, decode, coerce);
            var arity := AfterInjection(t, c).arity;
            && (t.variadic ==> r == Err(Variadic))
            && (!t.variadic && decode(s).SyntaxError? ==> r == Err(InvalidJSON))
            && (!t.variadic && decode(s).DecodeError? ==> r == Err(Foreign(decode(s).message)))
            && (!t.variadic && decode(s).Elements? && |decode(s).raws| < arity ==> r == Err(TooFewArguments))
            && (!t.variadic && decode(s).Elements? && |decode(s).raws| > arity ==> r == Err(TooManyArguments))
  {
  }

  /** Elements are decoded only when their count is exactly the arity: in every
      other case the element decoder cannot change the outcome. */
  lemma BindCoercesOnlyOnExactCount(t: GoType, c: Settings, s: string, decode: string -> DecodeResult,
                                    coerce1: (Raw, GoType) -> CoerceResult, coerce2: (Raw, GoType) -> CoerceResult)
    requires Aligned(t, c)
    requires t.variadic || !decode(s).Elements? || |decode(s).raws| != AfterInjection(t, c).arity
    ensures Bind(t, c, s, decode, coerce1) == Bind(t, c, s, decode, coerce2)
  {
  }

  /** Binding succeeds exactly when the function is not variadic, the text
      decodes to as many elements as there are JSON parameters and each element
      decodes into its parameter's type. The arguments are then the injected
      context, if any, followed by the decoded elements in parameter order:
      one per parameter from `offset` on. */
  lemma {:induction false} BindSucceeds(t: GoType, c: Settings, s: string,
                                        decode: string -> DecodeResult, coerce: (Raw, GoType) -> CoerceResult)
    requires Aligned(t, c)
    ensures var d := AfterInjection(t, c);
            Bind(t, c, s, decode, coerce).Ok? <==>
              && !t.variadic && decode(s).Elements? && |decode(s).raws| == d.arity
              && forall i :: 0 <= i < d.arity ==> coerce(decode(s).raws[i], t.params[d.offset + i]).Coerced?
    ensures var r := Bind(t, c, s, decode, coerce);
            var d := AfterInjection(t, c);
            var p := InjectedContext(t, c);
            r.Ok? ==>
              && |r.value| == |t.params| - c.offset
              && r.value[..|p|] == p
              && forall i :: 0 <= i < d.arity ==>
                   coerce(decode(s).raws[i], t.params[d.offset + i]) == Coerced(r.value[|p| + i])
  {
    var d := AfterInjection(t, c);
    if !t.variadic && decode(s).Elements? && |decode(s).raws| == d.arity {
      var raws := decode(s).raws;
      var ts := t.params[d.offset..];
      CoerceAllOk(ts, raws, coerce);
      assert forall i :: 0 <= i < d.arity ==> ts[i] == t.params[d.offset + i];
    }
  }

  /** On success a function gets one argument per parameter, the context first
      when its first parameter is one. */
  lemma FuncArgumentsShape(t: GoType, s: string, options: seq<Option>,
                           decode: string -> DecodeResult, coerce: (Raw, GoType) -> CoerceResult)
    requires FuncArguments(t, s, options, decode, coerce).Ok?
    ensures var args := FuncArguments(t, s, options, decode, coerce).value;
            && t.Func? && |args| == |t.params|
            && (HasContext(t, 0) ==> args[0] == ContextValue(ContextFuncOf(options)))
  {
    BindSucceeds(t, FuncSettings(t, options), s, decode, coerce);
  }

  /** On success a method gets one argument per parameter after the receiver,
      the context first when its first parameter after the receiver is one. */
  lemma MethodArgumentsShape(m: GoType, s: string, options: seq<Option>,
                             decode: string -> DecodeResult, coerce: (Raw, GoType) -> CoerceResult)
    requires m.Func? && MethodArguments(m, s, options, decode, coerce).Ok?
    ensures var args := MethodArguments(m, s, options, decode, coerce).value;
            && |args| == |m.params| - 1
            && (HasContext(m, 1) ==> args[0] == ContextValue(ContextFuncOf(options)))
  {
    BindSucceeds(m, MethodSettings(m, options), s, decode, coerce);
  }

  /** Binding stops at the first element that does not decode: its error is the
      result, and for a type mismatch the message names the JSON value and the
      expected type as the type namer gives it. */
  lemma BindStopsAtFirstFailure(t: GoType, c: Settings, s: string, raws: seq<Raw>,
                                decode: string -> DecodeResult, coerce: (Raw, GoType) -> CoerceResult, k: nat)
    requires Aligned(t, c) && !t.variadic
    requires decode(s) == Elements(raws) && |raws| == AfterInjection(t, c).arity && k < |raws|
    requires var d := AfterInjection(t, c);
             forall j :: 0 <= j < k ==> coerce(raws[j], t.params[d.offset + j]).Coerced?
    requires !coerce(raws[k], t.params[AfterInjection(t, c).offset + k]).Coerced?
    ensures var f := coerce(raws[k], t.params[AfterInjection(t, c).offset + k]);
            && Bind(t, c, s, decode, coerce) == Err(Failure(f))
            && (f.TypeMismatch? ==>
                  Message(Bind(t, c, s, decode, coerce).error) ==
                  "Incorrect type " + f.observed + ", expected " + TypeName(f.typ))
  {
    var d := AfterInjection(t, c);
    var ts := t.params[d.offset..];
    assert forall j :: 0 <= j < |ts| ==> ts[j] == t.params[d.offset + j];
    CoerceAllStops(ts, raws, coerce, k);
  }

  /** No element after the first failing one is looked at: element decoders
      that agree up to that element give the same result. */
  lemma BindIgnoresLaterElements(t: GoType, c: Settings, s: string, raws: seq<Raw>, decode: string -> DecodeResult,
                                 coerce1: (Raw, GoType) -> CoerceResult, coerce2: (Raw, GoType) -> CoerceResult, k: nat)
    requires Aligned(t, c) && !t.variadic
    requires decode(s) == Elements(raws) && |raws| == AfterInjection(t, c).arity && k < |raws|
    requires var d := AfterInjection(t, c);
             forall j :: 0 <= j < k ==> coerce1(raws[j], t.params[d.offset + j]).Coerced?
    requires !coerce1(raws[k], t.params[AfterInjection(t, c).offset + k]).Coerced?
    requires var d := AfterInjection(t, c);
             forall j :: 0 <= j <= k ==> coerce1(raws[j], t.params[d.offset + j]) == coerce2(raws[j], t.params[d.offset + j])
    ensures Bind(t, c, s, decode, coerce1) == Bind(t, c, s, decode, coerce2)
  {
    BindStopsAtFirstFailure(t, c, s, raws, decode, coerce1, k);
    BindStopsAtFirstFailure(t, c, s, raws, decode, coerce2, k);
  }
}
