/** Descriptors that stand in for the .NET reflection objects the generator
    inspects (Type, ParameterInfo, MethodInfo), the generator's errors, and the
    wrapper types used to report them. */
module SemanticTypes {

  datatype Option<+T> = None | Some(value: T)

  /** A value, or the exception the generator throws instead of producing it. */
  datatype Result<+T> = Success(value: T) | Failure(error: Error)

  /** The value types the generator tells apart by identity (`typeof(byte)`,
      `typeof(float)`, ...), plus any other struct, which carries the size
      `Marshal.SizeOf` reports for it. */
  datatype Prim =
    | Byte | SByte | Short | UShort | Int | UInt | Long | ULong | Float | Double
    | Struct(structName: string, size: nat)

  /** A .NET type as the generator sees it. */
  datatype SemType =
    | Void
    | Value(prim: Prim)
    | Str                           // System.String, a reference type
    | Delegate(invoke: MethodDesc)  // a subclass of System.Delegate, with its Invoke method
    | Object(className: string)     // any other class
    | ArrayOf(elem: SemType)        // an array type `T[]`
    | Pointer(elem: SemType)        // an unmanaged pointer type `T*`
    | ByRef(elem: SemType)          // the type of a `ref` or `out` parameter

  datatype Param = Param(name: string, ty: SemType, isOut: bool)

  /** An extern method: its name, declaring type, parameters in declared order and return type. */
  datatype MethodDesc = MethodDesc(name: string, declaringType: string, params: seq<Param>, ret: SemType)

  /** The exceptions the generator can throw while it runs. */
  datatype Error =
    | UnsupportedExtern(methodName: string, declaringType: string)
    | BadOutParam
    | CannotMarshal(ty: SemType)
    | NullType                  // a classifier applied to the missing element type of a type that is not an array, pointer or by-ref type
    | IndexOutOfRange           // InitializeInternal declared with fewer than three parameters
    | BadInitializeSignature

  /** What an in-line appender adds to the builder's current line, and the
      exception it throws part-way, if any: the text written before the throw
      stays in the builder. */
  datatype Chunk = Chunk(text: string, err: Option<Error>)

  /** `Marshal.SizeOf` for value types. */
  function MarshalSize(p: Prim): nat {
    match p
    case Byte => 1
    case SByte => 1
    case Short => 2
    case UShort => 2
    case Int => 4
    case UInt => 4
    case Long => 8
    case ULong => 8
    case Float => 4
    case Double => 8
    case Struct(_, size) => size
  }

  /** `Type.IsValueType`: System.Void is a struct in .NET; arrays, pointers and
      by-ref types are not value types. */
  predicate IsValueType(t: SemType) {
    t.Void? || t.Value?
  }

  /** A type `Type.GetElementType` looks through: an array, a pointer or a by-ref type. */
  predicate HasElement(t: SemType) {
    t.ArrayOf? || t.Pointer? || t.ByRef?
  }

  /** `Type.GetElementType`: the element type of an array, the pointee of a
      pointer, the referenced type of a by-ref type; null for every other type. */
  function ElementType(t: SemType): (r: Option<SemType>)
    ensures r.Some? <==> HasElement(t)
    ensures r.Some? ==> r.value == t.elem
  {
    if HasElement(t) then Some(t.elem) else None
  }

  /** Appending a concatenation is appending its parts in turn. */
  lemma Assoc<T>(a: seq<T>, b: seq<T>, c: seq<T>)
    ensures a + (b + c) == a + b + c
  {
  }

  /** One element in front of five. */
  lemma ConsSix<T>(x: T, a: T, b: T, c: T, d: T, e: T)
    ensures [x] + [a, b, c, d, e] == [x, a, b, c, d, e]
  {
  }
}
