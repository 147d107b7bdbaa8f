/** The two type classifiers of the generator: the one-character
    `Runtime.dynCall` signature tag (GetDyncallType) and the `setValue`
    storage tag (GetEmscriptenType), and the dynCall signature of a method
    (AppendDyncallSignature). */
module Classifier {
  import opened SemanticTypes

  /** Width in bytes of the argument slot a dynCall tag stands for. */
  function TagWidth(c: char): nat {
    match c
    case 'v' => 0
    case 'j' => 8
    case 'd' => 8
    case _ => 4
  }

  /** Width in bytes that a `setValue` storage tag writes ("i" is a 32-bit pointer). */
  function StoreWidth(tag: string): nat {
    match tag
    case "i8" => 1
    case "i16" => 2
    case "i64" => 8
    case "double" => 8
    case _ => 4
  }

  /** The types that are neither value types nor by-ref types: strings,
      delegates, classes, arrays and pointers. */
  predicate IsReference(t: SemType) {
    t.Str? || t.Delegate? || t.Object? || t.ArrayOf? || t.Pointer?
  }

  /** GetDyncallType: by-ref, then void, then reference types, then float and
      double, then the marshalled size of the remaining value types. */
  function DyncallType(t: SemType): (r: Result<char>)
    ensures r == Success('v') <==> t == Void
    ensures r == Success('f') <==> t == Value(Float)
    ensures r == Success('d') <==> t == Value(Double)
    ensures r == Success('i') <==>
              t.ByRef? || IsReference(t) || (t.Value? && t.prim != Float && MarshalSize(t.prim) == 4)
    ensures r.Failure? <==>
              t.Value? && t.prim != Float && t.prim != Double && MarshalSize(t.prim) !in {4, 8}
    ensures r.Failure? ==> r.error == CannotMarshal(t)
    ensures r.Success? && t.Value? ==> TagWidth(r.value) == MarshalSize(t.prim)
  {
    if t.ByRef? then Success('i')
    else if t == Void then Success('v')
    else if !IsValueType(t) then Success('i')
    else if t == Value(Float) then Success('f')
    else if t == Value(Double) then Success('d')
    else if MarshalSize(t.prim) == 4 then Success('i')
    else if MarshalSize(t.prim) == 8 then Success('j')
    else Failure(CannotMarshal(t))
  }

  /** GetEmscriptenType: every type that is not a value type stores as a
      pointer; byte, short, int, long, float and double store under their own
      tag; everything else (void, sbyte, ushort, uint, ulong, structs) fails. */
  function EmscriptenType(t: SemType): (r: Result<string>)
    ensures r == Success("i") <==> !IsValueType(t)
    ensures r == Success("i8") <==> t == Value(Byte)
    ensures r == Success("i16") <==> t == Value(Short)
    ensures r == Success("i32") <==> t == Value(Int)
    ensures r == Success("i64") <==> t == Value(Long)
    ensures r == Success("float") <==> t == Value(Float)
    ensures r == Success("double") <==> t == Value(Double)
    ensures r.Success? <==>
              !IsValueType(t) || (t.Value? && t.prim in {Byte, Short, Int, Long, Float, Double})
    ensures r.Failure? ==> r.error == CannotMarshal(t)
    ensures r.Success? && t.Value? ==> StoreWidth(r.value) == MarshalSize(t.prim)
  {
    if !IsValueType(t) then Success("i")
    else if t == Value(Byte) then Success("i8")
    else if t == Value(Short) then Success("i16")
    else if t == Value(Int) then Success("i32")
    else if t == Value(Long) then Success("i64")
    else if t == Value(Float) then Success("float")
    else if t == Value(Double) then Success("double")
    else Failure(CannotMarshal(t))
  }

  /** Where the two classifiers disagree: the types one resolves and the other rejects. */
  lemma ClassifierCoverage(t: SemType)
    ensures DyncallType(t).Failure? && EmscriptenType(t).Success? <==>
              t == Value(Byte) || t == Value(Short)
    ensures DyncallType(t).Success? && EmscriptenType(t).Failure? <==>
              t == Void || t == Value(UInt) || t == Value(ULong) ||
              (t.Value? && t.prim.Struct? && t.prim.size in {4, 8})
  {
  }

  /** When both classifiers resolve a value type, they agree on its width. */
  lemma ClassifiersAgreeOnWidth(t: SemType)
    requires t.Value? && DyncallType(t).Success? && EmscriptenType(t).Success?
    ensures TagWidth(DyncallType(t).value) == StoreWidth(EmscriptenType(t).value)
  {
  }

  /** The types whose tags make up a method's dynCall signature: the return
      type, then every parameter type in declared order (out parameters included). */
  function SignatureTypes(m: MethodDesc): (ts: seq<SemType>)
    ensures |ts| == |m.params| + 1 && ts[0] == m.ret
    ensures forall i :: 0 <= i < |m.params| ==> ts[i + 1] == m.params[i].ty
  {
    [m.ret] + ParamTypes(m.params)
  }

  /** The parameters' types, in declared order. */
  function ParamTypes(ps: seq<Param>): (ts: seq<SemType>)
    ensures |ts| == |ps| && forall i :: 0 <= i < |ps| ==> ts[i] == ps[i].ty
  {
    if ps == [] then [] else [ps[0].ty] + ParamTypes(ps[1..])
  }

  /** The tags of the first `k` types of `ts`, appended one by one until the
      first type that cannot be classified; that type's exception ends the run. */
  function TagRun(ts: seq<SemType>, k: nat): Chunk
    requires k <= |ts|
    decreases k
  {
    if k == 0 then Chunk("", None)
    else
      var prev := TagRun(ts, k - 1);
      if prev.err.Some? then prev
      else match DyncallType(ts[k - 1])
        case Failure(e) => Chunk(prev.text, Some(e))
        case Success(c) => Chunk(prev.text + [c], None)
  }

  /** The whole run of tags of `ts`. */
  function Tags(ts: seq<SemType>): Chunk {
    TagRun(ts, |ts|)
  }


  /** Once a type has failed, the types after it are not visited. */
  lemma {:induction false} TagRunStop(ts: seq<SemType>, k: nat, n: nat)
    requires k <= n <= |ts| && TagRun(ts, k).err.Some?
    ensures TagRun(ts, n) == TagRun(ts, k)
    decreases n
  {
    if k < n {
      TagRunStop(ts, k, n - 1);
    }
  }

  /** AppendDyncallSignature as a value: the signature, or the exception. */
  function DyncallSignature(m: MethodDesc): Result<string> {
    var run := Tags(SignatureTypes(m));
    if run.err.None? then Success(run.text) else Failure(run.err.value)
  }

  /** A run of tags succeeds exactly when every type has a tag, and then
      character i is the tag of type i. */
  lemma {:induction false} TagRunResolved(ts: seq<SemType>, k: nat)
    requires k <= |ts|
    ensures TagRun(ts, k).err.None? <==> forall i :: 0 <= i < k ==> DyncallType(ts[i]).Success?
    ensures TagRun(ts, k).err.None? ==>
              |TagRun(ts, k).text| == k &&
              forall i :: 0 <= i < k ==> TagRun(ts, k).text[i] == DyncallType(ts[i]).value
    decreases k
  {
    if k > 0 {
      TagRunResolved(ts, k - 1);
    }
  }

  lemma TagsResolved(ts: seq<SemType>)
    ensures Tags(ts).err.None? <==> forall i :: 0 <= i < |ts| ==> DyncallType(ts[i]).Success?
    ensures Tags(ts).err.None? ==>
              |Tags(ts).text| == |ts| &&
              forall i :: 0 <= i < |ts| ==> Tags(ts).text[i] == DyncallType(ts[i]).value
  {
    TagRunResolved(ts, |ts|);
  }

  /** A failed run stops at the first unclassifiable type: it throws that
      type's exception, after appending the tags of the types before it. */
  lemma {:induction false} TagRunFirstFailure(ts: seq<SemType>, n: nat)
    requires n <= |ts| && TagRun(ts, n).err.Some?
    ensures exists k :: 0 <= k < n &&
              DyncallType(ts[k]) == Failure(TagRun(ts, n).err.value) &&
              (forall j :: 0 <= j < k ==> DyncallType(ts[j]).Success?) &&
              TagRun(ts, k) == Chunk(TagRun(ts, n).text, None)
    decreases n
  {
    if TagRun(ts, n - 1).err.Some? {
      TagRunFirstFailure(ts, n - 1);
    } else {
      TagRunResolved(ts, n - 1);
    }
  }

  lemma TagsFirstFailure(ts: seq<SemType>)
    requires Tags(ts).err.Some?
    ensures exists k :: 0 <= k < |ts| &&
              DyncallType(ts[k]) == Failure(Tags(ts).err.value) &&
              (forall j :: 0 <= j < k ==> DyncallType(ts[j]).Success?) &&
              TagRun(ts, k) == Chunk(Tags(ts).text, None)
  {
    TagRunFirstFailure(ts, |ts|);
  }

  /** The dynCall signature has one tag for the return type followed by one
      tag per parameter, in declared order, and it fails exactly when one of
      those types has no tag. */
  lemma DyncallSignatureShape(m: MethodDesc)
    ensures DyncallSignature(m).Success? <==>
              DyncallType(m.ret).Success? &&
              forall i :: 0 <= i < |m.params| ==> DyncallType(m.params[i].ty).Success?
    ensures DyncallSignature(m).Success? ==>
              var s := DyncallSignature(m).value;
              |s| == 1 + |m.params| && s[0] == DyncallType(m.ret).value &&
              forall i :: 0 <= i < |m.params| ==> s[i + 1] == DyncallType(m.params[i].ty).value
  {
    var ts := SignatureTypes(m);
    TagsResolved(ts);
    if DyncallType(m.ret).Success? && forall i :: 0 <= i < |m.params| ==> DyncallType(m.params[i].ty).Success? {
      forall i | 0 <= i < |ts| ensures DyncallType(ts[i]).Success? {
        if i > 0 { assert ts[i] == m.params[i - 1].ty; }
      }
    }
  }

  /** A failing signature reports the first type, in signature order, that has no tag. */
  lemma DyncallSignatureFailure(m: MethodDesc)
    requires DyncallSignature(m).Failure?
    ensures exists k :: 0 <= k < |SignatureTypes(m)| &&
              DyncallType(SignatureTypes(m)[k]).Failure? &&
              DyncallSignature(m).error == CannotMarshal(SignatureTypes(m)[k]) &&
              forall j :: 0 <= j < k ==> DyncallType(SignatureTypes(m)[j]).Success?
  {
    TagsFirstFailure(SignatureTypes(m));
  }
}
