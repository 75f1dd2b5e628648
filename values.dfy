/** Runtime values as the binding layer handles them: reflect.Value is opaque
    here except for the context values it synthesizes itself and the type and
    nil-ness of a call's outputs. */
module Values {
  import opened GoTypes

  /** A ContextFunc, as a token: the package default (context.Background) or
      one supplied by the caller through WithContextFunc. */
  datatype ContextFunc = DefaultContextFunc | CustomContextFunc(id: nat)

  /** A reflect.Value: a context produced by calling `factory`, or any other
      value (a decoded argument, a receiver, an output of a call). */
  datatype Value = ContextValue(factory: ContextFunc) | Opaque(id: nat)

  /** One output of reflect.Value.Call: its static type, whether it is nil, and
      the value itself. */
  datatype Output = Output(typ: GoType, isNil: bool, value: Value)

  /** A callable as reflection sees it: a function value with its type, or a
      method's Func with the method's type (whose first parameter is the
      receiver). `call` is reflect's Call, which the model does not see into. */
  datatype Callable = Callable(typ: GoType, call: seq<Value> -> seq<Output>)
}
