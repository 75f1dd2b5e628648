# jsoncall in Dafny

A model of go-jsoncall, the layer that lets a caller invoke a Go function or
method with its arguments given as a JSON array. The model covers:

- `Normalize` (module `Normalizer`): trims the text and wraps it in brackets
  unless it is already array text.
- the argument binder (module `Binder`): the `config` struct as the class
  `Config`, `newConfig` as its constructor, the closure that `WithContextFunc`
  returns as `Config.Apply`, and `arguments` as the method `Arguments`.
  `Arguments` rejects variadic signatures, injects a context when the
  parameter at the context index is a context interface, checks the element
  count against the arity, and decodes each element in order up to the first
  failure. `ArgumentsOfFunc` and `ArgumentsOfMethod` set up the config for a
  function (offset 0, context at 0) or a method (receiver skipped, offset 1,
  context at 1).
- the result classifier (module `Dispatch`): `CallFuncArgs` and
  `CallMethodArgs` return the first non-nil error output, or else every
  output in order. `CallFunc` and `CallMethod` bind first. When binding fails, the
  result is the binding error whatever the callable would return.
- the helpers of util.go (module `GoTypes`): `typeName`, `unrollPointer`,
  `hasContext`, `isContext` and `isError`, over a closed datatype of Go type
  descriptors.
- the package's errors and their messages (module `Errors`), and the runtime
  values the layer handles (module `Values`).

Each imperative operation is proved against a specification function:
- `Arguments` against `Bind`;
- `CollectResults` (the output loop) against `Classify`;
- `UnrollPointer` against `Unrolled`;
- the `Config` constructor against `ContextFuncOf` (the last option wins).

The lemmas then state what the source promises about those functions:
- error precedence: variadic, then invalid JSON, then other decode errors,
  then too few or too many arguments, and only then element decoding;
- binding stops at the first element that fails;
- the exact shape of a successful argument list;
- the `offset + arity == NumIn` alignment that keeps every parameter index in
  range;
- what classification keeps and drops;
- the naming table of the type namer.

Points where the model follows the code closely:
- `typeName`'s slice and array branch recurses on the element of the type it
  was given, not of the unrolled type (util.go:16 and util.go:22). So `*[]int`
  is named "array of array of numberss", not "array of numbers".
  `GoTypes.TypeName` does this. `GoTypes.PointeeFirstName` is a reference
  naming with every pointer unwrapped before the kind is taken.
  `TypeNameMatchesPointeeFirstName` proves the two agree on every type with
  no pointer to a slice or array. `PointerToIntSliceName` shows where they
  differ.
- The expected type in a type-mismatch message is the type encoding/json
  reports (`e.Type`), which is not always the declared parameter type (for
  example, it can be a struct field's type). The model carries the type the
  element decoder reports.
- Outputs are classified by checking every output for a non-nil error, not
  only the last declared one.

## Model

| member | source | states |
|---|---|---|
| `GoTypes.Unrolled` | util.go:36-42 | the unrolled type is never a pointer |
| `GoTypes.UnrollPointer` | util.go:37-42 | the loop ends on a non-pointer and returns exactly `Unrolled(t)` |
| `GoTypes.UnrolledStripsPointers` | util.go:37-42 | unrolling removes exactly the leading pointers: `t` is its unrolled form under `PointerDepth(t)` pointers, and unrolling a pointer chain over a non-pointer gives that non-pointer |
| `GoTypes.UnrolledIdempotent` | util.go:37-42 | unrolling is the identity on non-pointers and unrolling twice is unrolling once |
| `GoTypes.TypeName` | util.go:15-34 | every name is one of the five base names, or starts with "array of " and ends with "s" |
| `GoTypes.TypeNameMatchesPointeeFirstName` | util.go:15-34 | on types with no pointer to a slice or array, typeName equals the pointee-first naming: number/boolean/string/object/unknown, pointers transparent, "array of " + element name + "s" |
| `GoTypes.TypeNameOfPointerToSequence` | util.go:16-22 | a pointer to a slice or array is named "array of " + the slice's own name + "s", while the pointee-first naming ignores the pointer |
| `GoTypes.PointerToIntSliceName` | util.go:16-22 | `*[]int` is named "array of array of numberss"; the pointee-first naming gives "array of numbers" |
| `GoTypes.TypeNameThroughPointers` | util.go:15-33 | any number of pointers over a non-slice, non-array type leave its name unchanged, so a pointer to a struct is "object" |
| `GoTypes.TypeNameTable` | util_test.go:16-24 | the naming table: int and float64 are "number", string "string", bool "boolean", struct and map "object", []string/[]bool/[]int "array of strings/booleans/numbers", interfaces and funcs "unknown" |
| `GoTypes.CapabilitiesOfInterfacesOnly` | util.go:44-61 | only interface types are contexts or errors; a pointer never is; hasContext(t, i) holds iff parameter i exists and is a context interface |
| `Normalizer.TrimLeftRemovesLeadingSpace` | jsoncall.go:75 | leading trimming removes a prefix made only of white space and leaves text that does not start with white space |
| `Normalizer.TrimRightRemovesTrailingSpace` | jsoncall.go:75 | trailing trimming removes a suffix made only of white space and leaves text that does not end with white space |
| `Normalizer.TrimSpaceKeepsTheCore` | jsoncall.go:75 | the trimmed text is a contiguous part of the input with only white space outside it, and neither starts nor ends with white space |
| `Normalizer.TrimSpaceOfTrimmed` | jsoncall.go:75 | text that neither starts nor ends with white space is unchanged by trimming |
| `Normalizer.Normalize` | jsoncall.go:74-80 | the result is never empty and always starts with '[', whatever the input |
| `Normalizer.NormalizeIdempotent` | jsoncall.go:74-80 | normalizing twice gives the same text as normalizing once |
| `Normalizer.NormalizeWrapsUnlessArray` | jsoncall.go:76-79 | the trimmed text is returned bare exactly when it starts with '[' and wrapped as "[" + text + "]" exactly when it does not |
| `Normalizer.TrimLeftSpaces` | jsoncall.go:75 | any white space put before a text is trimmed away with the text's own leading white space |
| `Normalizer.TrimRightSpaces` | jsoncall.go:75 | any white space put after a text is trimmed away with the text's own trailing white space |
| `Normalizer.NormalizeIgnoresPadding` | jsoncall.go:74-80 | white space around a text that neither starts nor ends with white space changes neither its trimmed form nor its normalization |
| `Normalizer.NormalizeExamples` | jsoncall_test.go:66-73 | "" and "[]" give "[]", "5" gives "[5]", "[1, 2, 3]" is unchanged |
| `Normalizer.NormalizeSpacedExamples` | jsoncall_test.go:69 | "  5" and " 5 " give "[5]" |
| `Errors.Message` | jsoncall.go:26-47 | the five fixed errors have non-empty messages; an UnmarshalError reads "Incorrect type " then the JSON value's description, followed by more text; a json error passes its own text through |
| `Errors.UnmarshalMessageNamesType` | jsoncall.go:45-47 | a type-mismatch message ends with typeName of the expected type, which is a base name or ends in "s"; for one JSON value two messages are equal iff the two types get the same name |
| `Errors.NumberMismatchMessage` | jsoncall.go:45-47 | a JSON string for an int parameter reads "Incorrect type string, expected number" |
| `Errors.ObjectMismatchMessage` | jsoncall.go:45-47 | a JSON string for a struct parameter reads "Incorrect type string, expected object" |
| `Binder.Config.constructor` | jsoncall.go:63-71 | a new config has the context function of the last option, or the default when there is none; arity, offset and context index are 0 |
| `Binder.Config.Apply` | jsoncall.go:57-61 | a WithContextFunc option sets the context function and nothing else |
| `Binder.Config.NewContext` | jsoncall.go:170 | calling the context function yields a context from the configured function and counts one call |
| `Binder.CoerceAllOk` | jsoncall.go:198-217 | the element decodings succeed together iff each succeeds, and then yield one value per parameter, in order |
| `Binder.CoerceAllStops` | jsoncall.go:198-212 | the first failing element's error (UnmarshalError for a type mismatch, the json error otherwise) is the result |
| `Binder.Arguments` | jsoncall.go:159-218 | the result is `Bind` of the config on entry; the config stays aligned (`offset + arity == NumIn`) and moves one parameter on exactly when a context is injected; the context function is called exactly then |
| `Binder.ArgumentsOfFunc` | jsoncall.go:149-157 | a non-function gives ErrNotFunction; otherwise binding from offset 0 with the context at 0; the context function is called once iff a context is injected |
| `Binder.ArgumentsOfMethod` | jsoncall.go:140-147 | binding skips the receiver (offset 1, arity NumIn-1, context at 1); the context function is called once iff a context is injected |
| `Binder.BindErrorPrecedence` | jsoncall.go:163-196 | variadic gives errVariadic, a syntax error ErrInvalidJSON, another decode error passes through, fewer elements than the arity ErrTooFewArguments, more ErrTooManyArguments, in that order |
| `Binder.BindCoercesOnlyOnExactCount` | jsoncall.go:178-199 | unless the element count equals the arity, the element decoder has no influence on the result |
| `Binder.BindSucceeds` | jsoncall.go:168-217 | binding succeeds iff not variadic, the count matches and every element decodes; the arguments are then the context (if injected) followed by the decoded elements in parameter order, one per parameter from the offset on |
| `Binder.FuncArgumentsShape` | jsoncall.go:149-157 | a function's successful argument list has NumIn entries, the context first when parameter 0 is a context |
| `Binder.MethodArgumentsShape` | jsoncall.go:140-147 | a method's successful argument list has NumIn-1 entries, the context first when parameter 1 is a context |
| `Binder.BindStopsAtFirstFailure` | jsoncall.go:199-212 | the first element that fails decides the error, and a type mismatch reads "Incorrect type <value>, expected <typeName(type)>" |
| `Binder.BindIgnoresLaterElements` | jsoncall.go:199-212 | elements after the first failing one are never decoded: decoders that agree up to it give the same result |
| `Dispatch.ClassifyOk` | jsoncall.go:109-117 | the outputs are returned iff none is a non-nil error, and then all of them, in order, nil errors included |
| `Dispatch.ClassifyFirstError` | jsoncall.go:110-113 | when outputs include a non-nil error, the first one is the error returned and no values are returned |
| `Dispatch.CollectResults` | jsoncall.go:129-137 | the loop over the outputs computes `Classify` |
| `Dispatch.CallFuncArgs` | jsoncall.go:104-118 | the function's outputs on the given arguments, classified |
| `Dispatch.CallMethodArgs` | jsoncall.go:120-138 | the method's outputs on the receiver followed by the arguments, classified |
| `Dispatch.CallFunc` | jsoncall.go:82-92 | a binding error is returned as the result, which then depends only on the function's type and never on its outputs; otherwise the result is the classification of the function's outputs on the bound arguments |
| `Dispatch.CallMethod` | jsoncall.go:94-102 | a binding error is returned as the result, independent of the method's outputs; otherwise the result is the classification of the method's outputs on the receiver and the bound arguments |
| `Dispatch.ClassifyExamples` | jsoncall_test.go:192-203 | a lone non-nil error is returned as the error; a value with a nil error gives both outputs and no error |

## Left out

- Calling Go code (`reflect.Value.Call`, `m.Func.Call`) is not modelled. A callable carries its call as an opaque function from arguments to outputs (`Values.Callable.call`).
- encoding/json is not modelled. Decoding the argument text and decoding one element into a type are oracles the caller supplies (`decode`, `coerce`). So the model does not decide whether `null` into a pointer gives a nil pointer, or `null` into a struct a zero struct; that is json's behaviour.
- `context.Background`, `context.TODO` and custom context functions are tokens (`ContextFunc`). The context the binder injects records which function made it. The calls are counted, not performed.
- Go's `Implements` check is not modelled. It is represented by two flags on interface types.
- `strings.TrimSpace` works on UTF-8 bytes. The model works on a sequence of runes with Unicode's White_Space table, so invalid UTF-8 is not modelled.
- `GoTypes.GoType`, `GoTypes.TypeName`, `GoTypes.UnrollPointer`: the type datatype is inductive, so recursive named Go types such as `type S []S` or `type P *P` cannot be expressed. On those the Go code does not terminate: `unrollPointer` loops forever on `P` (util.go:38-40), and `typeName` recurses without end on `S` (util.go:22). That happens, for instance, when `UnmarshalError.Error` (jsoncall.go:46) names such a type. The termination of `TypeName` and `UnrollPointer` holds only for the finite types the model can express.
- Panics are not modelled. That covers `IsVariadic`/`In` on a non-function type, a nil option, and `Call` with ill-typed arguments. `Arguments` and `ArgumentsOfMethod` require a function type, which every caller in the package guarantees.
- `contextIndex` is an `int` in Go. The model uses a natural number, because the package only ever sets it to 0 or 1.
- `v.IsValid()` in the output loop is always true for outputs of `Call`, so it is dropped.
- The message of an error the called function returns belongs to that function and is not modelled.
- Test helpers and benchmarks (`abs`, `sum`, `avg`, `BenchmarkArguments`, `BenchmarkCallFunc`) are not modelled.
