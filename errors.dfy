/** The errors the binding layer returns, and their messages. */
module Errors {
  import opened GoTypes
  import opened Values

  datatype Error =
    | NotFunction                           // ErrNotFunction
    | TooManyArguments                      // ErrTooManyArguments
    | TooFewArguments                       // ErrTooFewArguments
    | InvalidJSON                           // ErrInvalidJSON
    | Variadic                              // errVariadic
    | Unmarshal(value: string, typ: GoType) // UnmarshalError: the JSON value's description, the Go type
    | Foreign(message: string)              // an encoding/json error passed through unchanged
    | Returned(output: Output)              // a non-nil error returned by the called function

  datatype Result<T> = Ok(value: T) | Err(error: Error)

  /** Error() of each error. The message of an error returned by the called
      function is that function's business and is not modelled. */
  function Message(e: Error): (m: string)
    requires !e.Returned?
    ensures IsSentinel(e) ==> |m| > 0
    ensures e.Unmarshal? ==> |m| > 26 + |e.value| && m[..15] == "Incorrect type " &&
                             m[15..15 + |e.value|] == e.value
    ensures e.Foreign? ==> m == e.message
  {
    match e
    case NotFunction => "Must pass a function"
    case TooManyArguments => "Too many arguments passed"
    case TooFewArguments => "Too few arguments passed"
    case InvalidJSON => "Invalid JSON"
    case Variadic => "Variadic functions are not yet supported"
    case Unmarshal(value, typ) => "Incorrect type " + value + ", expected " + TypeName(typ)
    case Foreign(message) => message
  }

  predicate IsSentinel(e: Error) {
    e.NotFunction? || e.TooManyArguments? || e.TooFewArguments? || e.InvalidJSON? || e.Variadic?
  }

  /** A common head can be cut off again: two texts with the same head are
      equal exactly when what follows the head is. */
  lemma {:induction false} SameHead(head: string, a: string, b: string)
    ensures (head + a)[|head|..] == a
    ensures head + a == head + b <==> a == b
  {
    assert (head + a)[|head|..] == a;
    assert (head + b)[|head|..] == b;
  }

  /** A type-mismatch message ends with the JSON-domain name of the expected
      type, and for one JSON value two messages are equal exactly when the
      two types get the same name. */
  lemma UnmarshalMessageNamesType(value: string, t1: GoType, t2: GoType)
    ensures var m := Message(Unmarshal(value, t1));
            var name := TypeName(t1);
            |name| < |m| && m[|m| - |name|..] == name &&
            (name in BaseNames || m[|m| - 1] == 's')
    ensures Message(Unmarshal(value, t1)) == Message(Unmarshal(value, t2)) <==>
            TypeName(t1) == TypeName(t2)
  {
    var head := "Incorrect type " + value + ", expected ";
    var n1, n2 := TypeName(t1), TypeName(t2);
    assert Message(Unmarshal(value, t1)) == head + n1;
    assert Message(Unmarshal(value, t2)) == head + n2;
    SameHead(head, n1, n2);
    assert |head + n1| - |n1| == |head|;
    assert n1 in BaseNames || n1[|n1| - 1] == 's';
    assert (head + n1)[|head + n1| - 1] == n1[|n1| - 1];
  }

  /** The message of a JSON string passed for an int parameter. */
  lemma NumberMismatchMessage()
    ensures Message(Unmarshal("string", Int)) == "Incorrect type string, expected number"
  {
    var name := TypeName(Int);
    assert name == "number";
    assert "Incorrect type " + "string" + ", expected " == "Incorrect type string, expected ";
    assert Message(Unmarshal("string", Int)) == "Incorrect type string, expected " + name;
  }

  /** The message of a JSON string passed for a struct parameter: the struct is
      named "object", not by its Go name. */
  lemma ObjectMismatchMessage()
    ensures Message(Unmarshal("string", Struct)) == "Incorrect type string, expected object"
  {
    var name := TypeName(Struct);
    assert name == "object";
    assert "Incorrect type " + "string" + ", expected " == "Incorrect type string, expected ";
    assert Message(Unmarshal("string", Struct)) == "Incorrect type string, expected " + name;
  }
}
