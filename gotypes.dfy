/** Go type descriptors, as far as the binding layer inspects them, and the
    helpers of util.go: the JSON-domain type namer, pointer unrolling and the
    context/error capability checks. */
module GoTypes {

  /** A closed view of reflect.Type. Only the parts the binding layer reads are
      kept: element types of slices, arrays and pointers, the parameter list and
      variadic flag of function types, and for interface types whether they
      implement context.Context and error. Map key/value types, array lengths
      and struct fields are never inspected and are dropped; every kind not
      listed (uintptr, complex numbers, channels, unsafe pointers) is `Other`. */
  datatype GoType =
    | Int | Int8 | Int16 | Int32 | Int64
    | Uint | Uint8 | Uint16 | Uint32 | Uint64
    | Float32 | Float64
    | Bool
    | String
    | Map
    | Struct
    | Slice(elem: GoType)
    | Array(elem: GoType)
    | Ptr(elem: GoType)
    | Interface(implementsContext: bool, implementsError: bool)
    | Func(params: seq<GoType>, variadic: bool)
    | Other

  predicate IsNumeric(t: GoType) {
    t.Int? || t.Int8? || t.Int16? || t.Int32? || t.Int64? ||
    t.Uint? || t.Uint8? || t.Uint16? || t.Uint32? || t.Uint64? ||
    t.Float32? || t.Float64?
  }

  predicate IsSequence(t: GoType) {
    t.Slice? || t.Array?
  }

  /** The five names the type namer gives to a type that is not a slice or array. */
  const BaseNames: set<string> := {"number", "boolean", "string", "object", "unknown"}

  /** `t` with every leading pointer removed: what unrollPointer returns. */
  function Unrolled(t: GoType): (r: GoType)
    ensures !r.Ptr?
    decreases t
  {
    if t.Ptr? then Unrolled(t.elem) else t
  }

  /** unrollPointer: follows Elem() for as long as the kind is Ptr. */
  method UnrollPointer(t: GoType) returns (u: GoType)
    ensures !u.Ptr?
    ensures u == Unrolled(t)
  {
    u := t;
    while u.Ptr?
      invariant Unrolled(u) == Unrolled(t)
      decreases u
    {
      u := u.elem;
    }
  }

  /** `k` pointers wrapped around `t`. */
  function PtrTo(k: nat, t: GoType): GoType {
    if k == 0 then t else Ptr(PtrTo(k - 1, t))
  }

  /** The number of leading pointers of `t`. */
  function PointerDepth(t: GoType): nat {
    if t.Ptr? then 1 + PointerDepth(t.elem) else 0
  }

  /** Unrolling removes exactly the leading pointers: `t` is its unrolled form
      under PointerDepth(t) pointers, and unrolling any pointer chain over a
      non-pointer gives that non-pointer back. */
  lemma {:induction false} UnrolledStripsPointers(t: GoType, k: nat, b: GoType)
    ensures t == PtrTo(PointerDepth(t), Unrolled(t))
    ensures !b.Ptr? ==> Unrolled(PtrTo(k, b)) == b
  {
    if t.Ptr? {
      UnrolledStripsPointers(t.elem, 0, b);
    }
    if k > 0 {
      UnrolledStripsPointers(t, k - 1, b);
    }
  }

  /** Unrolling is the identity on non-pointers and therefore idempotent. */
  lemma UnrolledIdempotent(t: GoType)
    ensures !t.Ptr? ==> Unrolled(t) == t
    ensures Unrolled(Unrolled(t)) == Unrolled(t)
  {
  }

  /** The switch of typeName for every kind except slices and arrays. */
  function BaseName(u: GoType): string {
    if IsNumeric(u) then "number"
    else if u.Bool? then "boolean"
    else if u.String? then "string"
    else if u.Map? || u.Struct? then "object"
    else "unknown"
  }

  /** typeName. The kind is taken after unrolling pointers, but the slice and
      array branch recurses on the element of the type it was GIVEN: for a
      pointer to a slice that element is the slice itself. */
  function TypeName(t: GoType): (name: string)
    ensures name in BaseNames ||
            (|name| >= 16 && name[..9] == "array of " && name[|name| - 1] == 's')
    decreases t
  {
    var u := Unrolled(t);
    if IsSequence(u) then
      assert t.Ptr? || t.Slice? || t.Array?;
      "array of " + TypeName(t.elem) + "s"
    else
      BaseName(u)
  }

  /** A reference naming with every pointer unwrapped before the kind is
      taken: a slice or array is named after its own element type. */
  function PointeeFirstName(t: GoType): string {
    match t
    case Ptr(e) => PointeeFirstName(e)
    case Slice(e) => "array of " + PointeeFirstName(e) + "s"
    case Array(e) => "array of " + PointeeFirstName(e) + "s"
    case _ => BaseName(t)
  }

  /** No pointer inside `t` leads (after unrolling) to a slice or array. */
  predicate SequencePointerFree(t: GoType) {
    match t
    case Ptr(e) => !IsSequence(Unrolled(e)) && SequencePointerFree(e)
    case Slice(e) => SequencePointerFree(e)
    case Array(e) => SequencePointerFree(e)
    case _ => true
  }

  /** typeName agrees with the pointee-first naming on every type without a
      pointer to a slice or array. */
  lemma {:induction false} TypeNameMatchesPointeeFirstName(t: GoType)
    requires SequencePointerFree(t)
    ensures TypeName(t) == PointeeFirstName(t)
  {
    match t
    case Ptr(e) =>
      TypeNameMatchesPointeeFirstName(e);
      UnrolledIdempotent(Unrolled(e));
    case Slice(e) =>
      TypeNameMatchesPointeeFirstName(e);
    case Array(e) =>
      TypeNameMatchesPointeeFirstName(e);
    case _ =>
  }

  /** Where the two differ: a pointer to a slice or array is named as an array
      of arrays, with one "s" more than its slice. */
  lemma TypeNameOfPointerToSequence(t: GoType)
    requires IsSequence(t)
    ensures TypeName(Ptr(t)) == "array of " + TypeName(t) + "s"
    ensures PointeeFirstName(Ptr(t)) == PointeeFirstName(t)
  {
  }

  /** The smallest instance: `*[]int`. */
  lemma PointerToIntSliceName()
    ensures TypeName(Ptr(Slice(Int))) == "array of array of numberss"
    ensures PointeeFirstName(Ptr(Slice(Int))) == "array of numbers"
  {
    TypeNameOfPointerToSequence(Slice(Int));
    assert TypeName(Slice(Int)) == "array of numbers" by {
      assert TypeName(Int) == "number";
    }
  }

  /** Pointers are transparent to the namer whenever they do not lead to a
      slice or array: a pointer to a struct is an "object". */
  lemma {:induction false} TypeNameThroughPointers(k: nat, t: GoType)
    requires !IsSequence(Unrolled(t))
    ensures TypeName(PtrTo(k, t)) == TypeName(t)
  {
    if k > 0 {
      TypeNameThroughPointers(k - 1, t);
      UnrolledIdempotent(t);
    }
  }

  /** The table the namer is meant to produce. */
  lemma TypeNameTable()
    ensures TypeName(Int) == "number" && TypeName(Float64) == "number"
    ensures TypeName(String) == "string" && TypeName(Bool) == "boolean"
    ensures TypeName(Struct) == "object" && TypeName(Map) == "object"
    ensures TypeName(Slice(String)) == "array of strings"
    ensures TypeName(Slice(Bool)) == "array of booleans"
    ensures TypeName(Slice(Int)) == "array of numbers"
    ensures TypeName(Ptr(Struct)) == "object"
    ensures TypeName(Interface(true, false)) == "unknown"
    ensures TypeName(Func([], false)) == "unknown"
  {
  }

  /** isContext: an interface type implementing context.Context. */
  predicate IsContext(t: GoType) {
    t.Interface? && t.implementsContext
  }

  /** isError: an interface type implementing error. */
  predicate IsError(t: GoType) {
    t.Interface? && t.implementsError
  }

  /** hasContext: the function type has a context parameter at index `i`. */
  predicate HasContext(t: GoType, i: nat)
    requires t.Func?
  {
    if |t.params| < i + 1 then false else IsContext(t.params[i])
  }

  /** The capabilities belong to interface types only: no pointer, struct or
      other concrete type is treated as a context or an error, and a missing
      parameter is never a context. */
  lemma CapabilitiesOfInterfacesOnly(t: GoType, f: GoType, i: nat)
    requires f.Func?
    ensures IsContext(t) ==> t.Interface?
    ensures IsError(t) ==> t.Interface?
    ensures !IsContext(Ptr(t)) && !IsError(Ptr(t))
    ensures HasContext(f, i) <==>
            i < |f.params| && f.params[i].Interface? && f.params[i].implementsContext
  {
  }
}
