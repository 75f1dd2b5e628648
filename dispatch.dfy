/** The call dispatcher: invokes a bound function or method and splits its
    outputs into results or the first non-nil error, plus CallFunc and
    CallMethod, which bind JSON arguments first. */
module Dispatch {
  import opened GoTypes
  import opened Values
  import opened Errors
  import opened Binder

  /** An output that ends the call: error-typed and not nil. */
  predicate IsErrorOutput(o: Output) {
    IsError(o.typ) && !o.isNil
  }

  /** The classification of a call's outputs: the first non-nil error if
      there is one, otherwise every output in order. */
  function Classify(res: seq<Output>): Result<seq<Output>> {
    if res == [] then Ok([])
    else if IsErrorOutput(res[0]) then Err(Returned(res[0]))
    else match Classify(res[1..])
      case Ok(rest) => Ok([res[0]] + rest)
      case Err(e) => Err(e)
  }

  /** Without a non-nil error among the outputs, all of them are the result,
      nil error outputs included; with one, there is no result. */
  lemma {:induction false} ClassifyOk(res: seq<Output>)
    ensures Classify(res).Ok? <==> forall i :: 0 <= i < |res| ==> !IsErrorOutput(res[i])
    ensures Classify(res).Ok? ==> Classify(res).value == res
  {
    if res != [] {
      ClassifyOk(res[1..]);
      assert forall i :: 1 <= i < |res| ==> res[i] == res[1..][i - 1];
    }
  }

  /** The error returned is the first non-nil error output; the outputs before
      and after it are dropped. */
  lemma {:induction false} ClassifyFirstError(res: seq<Output>, k: nat)
    requires k < |res| && IsErrorOutput(res[k])
    requires forall j :: 0 <= j < k ==> !IsErrorOutput(res[j])
    ensures Classify(res) == Err(Returned(res[k]))
  {
    if k > 0 {
      assert forall j :: 0 <= j < k - 1 ==> res[1..][j] == res[j + 1];
      ClassifyFirstError(res[1..], k - 1);
    }
  }

  /** The loop over the outputs shared by CallFuncArgs and CallMethodArgs. */
  method CollectResults(res: seq<Output>) returns (r: Result<seq<Output>>)
    ensures r == Classify(res)
  {
    var values: seq<Output> := [];
    var i := 0;
    while i < |res|
      invariant 0 <= i <= |res|
      invariant values == res[..i]
      invariant forall j :: 0 <= j < i ==> !IsErrorOutput(res[j])
    {
      var v := res[i];
      if IsError(v.typ) && !v.isNil {
        ClassifyFirstError(res, i);
        return Err(Returned(v));
      }
      values := values + [v];
      i := i + 1;
    }
    ClassifyOk(res);
    assert values == res;
    return Ok(values);
  }

  /** CallFuncArgs: calls the function with the arguments as given. */
  method CallFuncArgs(fn: Callable, args: seq<Value>) returns (r: Result<seq<Output>>)
    ensures r == Classify(fn.call(args))
  {
    var res := fn.call(args);
    r := CollectResults(res);
  }

  /** CallMethodArgs: calls the method with the receiver put before the
      arguments, in position 0. */
  method CallMethodArgs(receiver: Value, m: Callable, args: seq<Value>) returns (r: Result<seq<Output>>)
    ensures r == Classify(m.call([receiver] + args))
  {
    var all := [receiver] + args;
    var res := m.call(all);
    r := CollectResults(res);
  }

  /** CallFunc: binds the JSON arguments and calls the function only if that
      succeeds. A binding error is returned as it is, and then the result
      depends only on the function's type, never on what calling it gives. */
  method CallFunc(fn: Callable, s: string, options: seq<Option>,
                  decode: string -> DecodeResult, coerce: (Raw, GoType) -> CoerceResult)
    returns (r: Result<seq<Output>>, contextCalls: nat)
    ensures match FuncArguments(fn.typ, s, options, decode, coerce)
            case Err(e) => r == Err(e)
            case Ok(args) => r == Classify(fn.call(args))
    ensures contextCalls == if fn.typ.Func? && Injects(fn.typ, 0) then 1 else 0
  {
    var bound;
    bound, contextCalls := ArgumentsOfFunc(fn.typ, s, options, decode, coerce);
    if bound.Err? {
      return Err(bound.error), contextCalls;
    }
    r := CallFuncArgs(fn, bound.value);
  }

  /** CallMethod: binds the JSON arguments against the method's parameters
      after the receiver and calls the method on the receiver only if that
      succeeds; a binding error does not depend on the method's behaviour. */
  method CallMethod(receiver: Value, m: Callable, s: string, options: seq<Option>,
                    decode: string -> DecodeResult, coerce: (Raw, GoType) -> CoerceResult)
    returns (r: Result<seq<Output>>, contextCalls: nat)
    requires m.typ.Func?
    ensures match MethodArguments(m.typ, s, options, decode, coerce)
            case Err(e) => r == Err(e)
            case Ok(args) => r == Classify(m.call([receiver] + args))
    ensures contextCalls == if Injects(m.typ, 1) then 1 else 0
  {
    var bound;
    bound, contextCalls := ArgumentsOfMethod(m, s, options, decode, coerce);
    if bound.Err? {
      return Err(bound.error), contextCalls;
    }
    r := CallMethodArgs(receiver, m, bound.value);
  }

  /** The returns the package's examples show: a lone error is propagated, a
      value with a nil error gives the value and the nil error. */
  lemma ClassifyExamples(three: Value, boom: Value, nilErr: Value)
    ensures var errType := Interface(false, true);
            Classify([Output(errType, false, boom)]) == Err(Returned(Output(errType, false, boom)))
    ensures var errType := Interface(false, true);
            var outs := [Output(Int, false, three), Output(errType, true, nilErr)];
            Classify(outs) == Ok(outs)
  {
    var errType := Interface(false, true);
    var outs := [Output(Int, false, three), Output(errType, true, nilErr)];
    ClassifyOk(outs);
  }
}
