/** What each emitter of JsLibGenerator writes, as values: the blocks it
    leaves in the builder, the text on the unfinished line, and the exception
    that escapes, if any. The imperative generator in module Generator is
    proved to write exactly these. */
module Emission {
  import opened SemanticTypes
  import opened Classifier
  import opened GlueText

  /** One member of the TypedArrayTypeCode enumeration: its integer code and its name. */
  datatype TypeCode = TypeCode(code: int, name: string)

  /** The collaborators' constants: the Module key under which the runtime
      instance is stored, the key of its constructor, and the
      TypedArrayTypeCode members in the order `Enum.GetValues` returns them
      (sorted by their unsigned value, not in declaration order). */
  datatype Env = Env(instanceKey: string, constructorKey: string, typeCodes: seq<TypeCode>)

  /** The effect of an emitter started on an empty line: the blocks it wrote
      (a block opened by `using` is closed even when an exception unwinds
      through it), the text left on the unfinished line, and the exception. */
  datatype Emission = Emission(nodes: seq<Node>, pending: string, err: Option<Error>)

  /** The reserved name of the initializer entry point (RuntimeRaw.InitializeInternal). */
  const InitializeName := "InitializeInternal"

  const Banner := "// This file was automatically generated by JsLibGenerator.cs"
  const MergeHead := "mergeInto(LibraryManager.library,"

  // ---------------------------------------------------------------------
  // Parameter lists (AppendParams)

  /** The parameters that are not `out` parameters, in declared order (the `Where` filter). */
  function NonOut(ps: seq<Param>): seq<Param>
    decreases |ps|
  {
    if ps == [] then []
    else NonOut(ps[..|ps| - 1]) + (if ps[|ps| - 1].isOut then [] else [ps[|ps| - 1]])
  }

  function Visible(ps: seq<Param>, includeOut: bool): seq<Param> {
    if includeOut then ps else NonOut(ps)
  }

  function Names(ps: seq<Param>): (r: seq<string>)
    ensures |r| == |ps| && forall i :: 0 <= i < |ps| ==> r[i] == ps[i].name
  {
    if ps == [] then [] else [ps[0].name] + Names(ps[1..])
  }

  /** The text AppendParams appends. */
  function ParamList(ps: seq<Param>, includeOut: bool): string {
    Join(Names(Visible(ps, includeOut)))
  }

  /** With out parameters filtered out, exactly the parameters that are not
      `out` remain, and a list without out parameters is kept whole. */
  lemma NonOutExact(ps: seq<Param>)
    ensures forall p :: p in NonOut(ps) <==> p in ps && !p.isOut
    ensures (forall i :: 0 <= i < |ps| ==> !ps[i].isOut) ==> NonOut(ps) == ps
  {
    NonOutMembers(ps);
    if forall i :: 0 <= i < |ps| ==> !ps[i].isOut {
      NonOutKeepsAll(ps);
    }
  }

  lemma {:induction false} NonOutMembers(ps: seq<Param>)
    ensures forall p :: p in NonOut(ps) <==> p in ps && !p.isOut
    decreases |ps|
  {
    if ps != [] {
      var init, last := ps[..|ps| - 1], ps[|ps| - 1];
      NonOutMembers(init);
      assert ps == init + [last];
    }
  }

  lemma {:induction false} NonOutKeepsAll(ps: seq<Param>)
    requires forall i :: 0 <= i < |ps| ==> !ps[i].isOut
    ensures NonOut(ps) == ps
    decreases |ps|
  {
    if ps != [] {
      var init, last := ps[..|ps| - 1], ps[|ps| - 1];
      assert forall i :: 0 <= i < |init| ==> init[i] == ps[i];
      NonOutKeepsAll(init);
      assert !last.isOut;
      assert NonOut(ps) == init + [last];
      assert init + [last] == ps;
    }
  }

  /** Every parameter list reads back, split at its separators, as the names
      of the parameters it was asked for, in declared order. */
  lemma ParamListSplits(ps: seq<Param>, includeOut: bool)
    requires forall i :: 0 <= i < |ps| ==> IsName(ps[i].name)
    ensures Split(ParamList(ps, includeOut)) == Names(Visible(ps, includeOut))
    ensures ParamList(ps, includeOut) == "" <==> Visible(ps, includeOut) == []
  {
    var vs := Visible(ps, includeOut);
    NonOutExact(ps);
    assert forall i :: 0 <= i < |vs| ==> vs[i] in ps;
    SplitJoin(Names(vs));
    JoinEmpty(Names(vs));
  }

  /** A standard method whose only out parameter is the status channel
      forwards exactly its other parameters. */
  lemma ForwardedArguments(m: MethodDesc)
    requires IsStandardMethod(m)
    requires forall i :: 1 <= i < |m.params| ==> !m.params[i].isOut
    ensures Visible(m.params, false) == m.params[1..]
  {
    var ps := m.params;
    NonOutExact(ps[1..]);
    assert NonOut(ps[1..]) == ps[1..];
    NonOutFront(ps);
  }

  /** Filtering a list whose first element is an out parameter is filtering the rest. */
  lemma {:induction false} NonOutFront(ps: seq<Param>)
    requires ps != [] && ps[0].isOut
    ensures NonOut(ps) == NonOut(ps[1..])
    decreases |ps|
  {
    if |ps| > 1 {
      var init := ps[..|ps| - 1];
      NonOutFront(init);
      assert init[1..] == ps[1..][..|ps[1..]| - 1];
    } else {
      assert ps[..0] == [];
    }
  }

  // ---------------------------------------------------------------------
  // String parameters (WriteProcessStrings)

  function DecodeLine(name: string): string {
    name + " = Pointer_stringify(" + name + ");"
  }

  /** The lines WriteProcessStrings writes, one parameter after the other. */
  function ProcessStrings(ps: seq<Param>): seq<Node>
    decreases |ps|
  {
    if ps == [] then []
    else
      var last := ps[|ps| - 1];
      ProcessStrings(ps[..|ps| - 1]) + (if last.ty == Str then [Text(DecodeLine(last.name))] else [])
  }

  /** The parameters of type string, in declared order. */
  function StringParams(ps: seq<Param>): (r: seq<Param>)
    ensures forall p :: p in r <==> p in ps && p.ty == Str
    decreases |ps|
  {
    if ps == [] then []
    else
      var last := ps[|ps| - 1];
      assert ps == ps[..|ps| - 1] + [last];
      StringParams(ps[..|ps| - 1]) + (if last.ty == Str then [last] else [])
  }

  /** One decoding line per string parameter, in parameter order, and nothing else. */
  lemma {:induction false} ProcessStringsExact(ps: seq<Param>)
    ensures |ProcessStrings(ps)| == |StringParams(ps)|
    ensures forall i :: 0 <= i < |StringParams(ps)| ==>
              ProcessStrings(ps)[i] == Text(DecodeLine(StringParams(ps)[i].name))
    decreases |ps|
  {
    if ps != [] {
      ProcessStringsExact(ps[..|ps| - 1]);
    }
  }

  // ---------------------------------------------------------------------
  // Out parameter, return statements

  function SetValueLine(name: string, value: string, tag: string): string {
    "setValue(" + name + ", " + value + ", '" + tag + "');"
  }

  /** WriteOutParam: rejects a parameter that is not `out` before writing
      anything; otherwise the storage tag of the parameter's element type is
      computed after "setValue(name, value, '" has already been appended. */
  function OutParam(p: Param, value: string): (r: Emission)
    ensures r.err.None? <==> p.isOut && HasElement(p.ty) && EmscriptenType(p.ty.elem).Success?
    ensures r.err == Some(BadOutParam) <==> !p.isOut
    ensures !p.isOut ==> r.nodes == [] && r.pending == ""
    ensures r.err.None? ==> r.nodes == [Text(SetValueLine(p.name, value, EmscriptenType(p.ty.elem).value))]
                            && r.pending == ""
  {
    if !p.isOut then Emission([], "", Some(BadOutParam))
    else
      var partial := "setValue(" + p.name + ", " + value + ", '";
      match ElementType(p.ty)
      case None => Emission([], partial, Some(NullType))
      case Some(e) =>
        match EmscriptenType(e)
        case Failure(err) => Emission([], partial, Some(err))
        case Success(tag) => Emission([Text(partial + tag + "');")], "", None)
  }

  /** WriteStringReturn: copy the string into a fresh UTF-8 buffer and return its address. */
  function StringReturn(value: string): seq<Node> {
    [ Text("var returnStr  = " + value + ";"),
      Text("var bufferSize = lengthBytesUTF8(returnStr) + 1;"),
      Text("var strBuffer = _malloc(bufferSize);"),
      Text("stringToUTF8(returnStr, strBuffer, bufferSize);"),
      Text("return strBuffer;") ]
  }

  /** The statements that end the try block of a standard method. */
  function ReturnStatements(m: MethodDesc): (r: seq<Node>)
    ensures m.ret == Str ==> |r| == 5 && r[1] == Text("var bufferSize = lengthBytesUTF8(returnStr) + 1;")
    ensures m.ret != Str ==> r == [Text("return ret.value;")]
  {
    if m.ret == Str then StringReturn("ret.value") else [Text("return ret.value;")]
  }

  // ---------------------------------------------------------------------
  // Standard methods (WriteMethod)

  /** The shape WriteMethod accepts: a first parameter that is out and whose element type is int. */
  predicate IsStandardMethod(m: MethodDesc) {
    |m.params| > 0 && m.params[0].isOut && ElementType(m.params[0].ty) == Some(Value(Int))
  }

  /** The status parameter WriteMethod accepts is an `out int`, an `[Out] int[]`
      or an `[Out] int*`: the three types whose element type is int. */
  lemma StandardStatusTypes(m: MethodDesc)
    ensures IsStandardMethod(m) <==>
              |m.params| > 0 && m.params[0].isOut &&
              m.params[0].ty in {ByRef(Value(Int)), ArrayOf(Value(Int)), Pointer(Value(Int))}
  {
  }

  /** `Module['<instance key>']`, the runtime instance (AppendContextGetter). */
  function ContextGetter(env: Env): string {
    "Module['" + env.instanceKey + "']"
  }

  /** `Name: function (every, parameter)` (WriteMethodHeader). */
  function Header(m: MethodDesc): string {
    m.name + ": function (" + ParamList(m.params, true) + ")"
  }

  /** `context.Name(non, out, parameters);` (AppendMethodForwarding). */
  function Forwarding(contextVar: string, m: MethodDesc): string {
    contextVar + "." + m.name + "(" + ParamList(m.params, false) + ");"
  }

  /** The try block of a standard method: decode the strings, forward the
      call to the runtime instance, pass the result kind back through the
      status parameter, and return the result. */
  function TryBlock(env: Env, m: MethodDesc): Node
    requires IsStandardMethod(m)
  {
    Block("try", ProcessStrings(m.params) + Invocation(env, m) + ReturnStatements(m))
  }

  /** The call into the runtime instance and the status it reports. */
  function Invocation(env: Env, m: MethodDesc): seq<Node>
    requires IsStandardMethod(m)
  {
    [ Text("var context = " + ContextGetter(env) + ";"),
      Text("var ret = " + Forwarding("context", m) + ";"),
      Text(SetValueLine(m.params[0].name, "ret.type", "i32")) ]
  }

  /** The catch block of a standard method: status -1, then a nested try that
      returns the error text as a runtime string, whose own catch returns 0. */
  function CatchBlock(env: Env, status: string): Node {
    Block("catch (error)", [
      Text(SetValueLine(status, "-1", "i32")),
      ErrorReport(env),
      Block("catch (innerError)", [ Text("return 0;") ]) ])
  }

  /** The nested try of the catch block: log the error and return its text
      as a string allocated by the runtime instance. */
  function ErrorReport(env: Env): Node {
    Block("try", [
      Text("console.log(error)"),
      Text("var errString = String(error)"),
      Text("var strRet = " + ContextGetter(env) + ".CreateString(errString);"),
      Text("return strRet.value;") ])
  }

  /** The glue function written for a standard method. */
  function StandardMethodTree(env: Env, m: MethodDesc): Node
    requires IsStandardMethod(m)
  {
    Block(Header(m), [TryBlock(env, m), CatchBlock(env, m.params[0].name)])
  }

  /** The tokens of a standard method's glue function after `pre`, in writing order. */
  lemma StandardMethodTokens(env: Env, m: MethodDesc, pre: seq<Token>)
    requires IsStandardMethod(m)
    ensures pre + Flatten([StandardMethodTree(env, m)]) ==
              pre + [Open(Header(m))] + Flatten([TryBlock(env, m)]) +
              Flatten([CatchBlock(env, m.params[0].name)]) + [Close]
  {
    BlockTokens2(pre, Header(m), TryBlock(env, m), CatchBlock(env, m.params[0].name));
  }

  /** The tokens of the try block after `pre`, in writing order. */
  lemma TryBlockTokens(env: Env, m: MethodDesc, pre: seq<Token>)
    requires IsStandardMethod(m)
    ensures pre + Flatten([TryBlock(env, m)]) ==
              pre + [Open("try")] + Flatten(ProcessStrings(m.params)) +
              Flatten(Invocation(env, m)) + Flatten(ReturnStatements(m)) + [Close]
  {
    BlockTokens3(pre, "try", ProcessStrings(m.params), Invocation(env, m), ReturnStatements(m));
  }

  /** The tokens of the call and status lines after `pre`. */
  lemma InvocationTokens(env: Env, m: MethodDesc, pre: seq<Token>)
    requires IsStandardMethod(m)
    ensures pre + Flatten(Invocation(env, m)) ==
              pre + [Line("var context = " + ContextGetter(env) + ";")] +
              [Line("var ret = " + Forwarding("context", m) + ";")] +
              [Line(SetValueLine(m.params[0].name, "ret.type", "i32"))]
  {
    TextsTokens3(pre, "var context = " + ContextGetter(env) + ";", "var ret = " + Forwarding("context", m) + ";",
                 SetValueLine(m.params[0].name, "ret.type", "i32"));
  }

  /** The tokens of the catch block after `pre`, in writing order. */
  lemma CatchBlockTokens(env: Env, status: string, pre: seq<Token>)
    ensures pre + Flatten([CatchBlock(env, status)]) ==
              pre + [Open("catch (error)")] +
              [Line(SetValueLine(status, "-1", "i32"))] +
              Flatten([ErrorReport(env)]) +
              [Open("catch (innerError)")] +
              [Line("return 0;")] +
              [Close] +
              [Close]
  {
    var b := CatchBlock(env, status).body;
    FlattenBlock("catch (error)", b);
    assert b == [b[0]] + ([b[1]] + [b[2]]);
    FlattenAppend([b[0]], [b[1]] + [b[2]]);
    FlattenAppend([b[1]], [b[2]]);
    FlattenText(b[0].line);
    FlattenBlock("catch (innerError)", b[2].body);
    FlattenText("return 0;");
  }

  /** The tokens of the nested try after `pre`, in writing order. */
  lemma ErrorReportTokens(env: Env, pre: seq<Token>)
    ensures pre + Flatten([ErrorReport(env)]) ==
              pre + [Open("try")] +
              [Line("console.log(error)")] +
              [Line("var errString = String(error)")] +
              [Line("var strRet = " + ContextGetter(env) + ".CreateString(errString);")] +
              [Line("return strRet.value;")] +
              [Close]
  {
    var b := ErrorReport(env).body;
    FlattenBlock("try", b);
    FlattenTexts(b);
  }

  /** WriteMethod: a method of any other shape is rejected before anything is written. */
  function MethodEmission(env: Env, m: MethodDesc): (r: Emission)
    ensures r.err.None? <==> IsStandardMethod(m)
    ensures r.err.Some? ==> r == Emission([], "", Some(UnsupportedExtern(m.name, m.declaringType)))
  {
    if IsStandardMethod(m) then Emission([StandardMethodTree(env, m)], "", None)
    else Emission([], "", Some(UnsupportedExtern(m.name, m.declaringType)))
  }

  /** The status parameter of a standard method is always written as a 32-bit int. */
  lemma StatusIsInt32(m: MethodDesc, value: string)
    requires IsStandardMethod(m)
    ensures OutParam(m.params[0], value) ==
              Emission([Text(SetValueLine(m.params[0].name, value, "i32"))], "", None)
  {
  }

  /** The error protocol of a standard method: the try block ends with the
      return statements; the catch block writes -1 to the status parameter
      before its nested try, whose catch returns 0. */
  lemma StandardMethodProtocol(env: Env, m: MethodDesc)
    requires IsStandardMethod(m)
    ensures var t := StandardMethodTree(env, m);
            var status := m.params[0].name;
            t.Block? && t.head == Header(m) && |t.body| == 2 &&
            t.body[0].Block? && t.body[0].head == "try" &&
            |t.body[0].body| >= |ReturnStatements(m)| + 1 &&
            t.body[0].body[|t.body[0].body| - |ReturnStatements(m)|..] == ReturnStatements(m) &&
            t.body[0].body[|t.body[0].body| - |ReturnStatements(m)| - 1] ==
              Text(SetValueLine(status, "ret.type", "i32")) &&
            t.body[1].Block? && t.body[1].head == "catch (error)" && |t.body[1].body| == 3 &&
            t.body[1].body[0] == Text(SetValueLine(status, "-1", "i32")) &&
            t.body[1].body[1].Block? && t.body[1].body[1].head == "try" &&
            t.body[1].body[2] == Block("catch (innerError)", [Text("return 0;")])
  {
  }

  // ---------------------------------------------------------------------
  // The initializer (WriteInitializeMethod, AppendCallbackFunction, AppendArrayBuilderFunction)

  function CaseLine(tc: TypeCode): string {
    "case " + Decimal(tc.code) + ": return new " + tc.name + "(buffer, pointer, length);"
  }

  /** The switch cases of the array builder, one member after the other. */
  function Cases(codes: seq<TypeCode>): seq<Node>
    decreases |codes|
  {
    if codes == [] then []
    else Cases(codes[..|codes| - 1]) + [Text(CaseLine(codes[|codes| - 1]))]
  }

  /** The array builder function, written after `lead` on its first line. */
  function ArrayBuilder(lead: string, codes: seq<TypeCode>): Node {
    Block(lead + "function(pointer, typeCode, length)", [Block("switch (typeCode)", Cases(codes))])
  }

  /** Exactly one case per enumeration member, in the order of `typeCodes`. */
  lemma {:induction false} CasesExact(codes: seq<TypeCode>)
    ensures |Cases(codes)| == |codes|
    ensures forall i :: 0 <= i < |codes| ==> Cases(codes)[i] == Text(CaseLine(codes[i]))
    decreases |codes|
  {
    if codes != [] {
      var init, last := codes[..|codes| - 1], codes[|codes| - 1];
      CasesExact(init);
      var cs := Cases(codes);
      assert cs == Cases(init) + [Text(CaseLine(last))];
      forall i | 0 <= i < |codes|
        ensures cs[i] == Text(CaseLine(codes[i]))
      {
        if i < |init| {
          assert cs[i] == Cases(init)[i];
          assert init[i] == codes[i];
        } else {
          assert cs[i] == Text(CaseLine(last));
        }
      }
    }
  }

  /** AppendCallbackFunction: a trampoline that calls the function pointer
      through Runtime.dynCall with the method's signature. The non-out
      parameters are listed before the signature is computed, so a failing
      tag leaves them, and the tags before it, behind. */
  function CallbackFunction(pointerVar: string, m: MethodDesc): (r: Chunk)
    ensures r.err.None? <==> DyncallSignature(m).Success?
    ensures r.err.Some? ==> r.err == Some(DyncallSignature(m).error)
  {
    var args := ParamList(m.params, false);
    var lead := "function(" + args + "){" + "return Runtime.dynCall('";
    var sig := Tags(SignatureTypes(m));
    if sig.err.Some? then Chunk(lead + sig.text, sig.err)
    else Chunk(lead + sig.text + "', " + pointerVar + ", [" + args + "]);}", None)
  }

  /** The trampoline's text after `start`, piece by piece as it is appended:
      the listed arguments and the signature's tags, then, when every tag was
      found, the call through the pointer. */
  lemma CallbackFunctionText(pointerVar: string, m: MethodDesc, start: string)
    ensures var args := ParamList(m.params, false);
            var sig := Tags(SignatureTypes(m));
            var r := CallbackFunction(pointerVar, m);
            r.err == sig.err &&
            start + r.text ==
              if sig.err.Some? then start + "function(" + args + "){" + "return Runtime.dynCall('" + sig.text
              else start + "function(" + args + "){" + "return Runtime.dynCall('" + sig.text +
                   "', " + pointerVar + ", [" + args + "]);}"
  {
    var args := ParamList(m.params, false);
    var sig := Tags(SignatureTypes(m));
    var lead := "function(" + args + "){" + "return Runtime.dynCall('";
    Assoc(start, "function(", args);
    Assoc(start, "function(" + args, "){");
    Assoc(start, "function(" + args + "){", "return Runtime.dynCall('");
    Assoc(start, lead, sig.text);
    if sig.err.None? {
      Assoc(start, lead + sig.text, "', ");
      Assoc(start, lead + sig.text + "', ", pointerVar);
      Assoc(start, lead + sig.text + "', " + pointerVar, ", [");
      Assoc(start, lead + sig.text + "', " + pointerVar + ", [", args);
      Assoc(start, lead + sig.text + "', " + pointerVar + ", [" + args, "]);}");
    }
  }

  /** The three callback parameters are delegates. */
  predicate HasCallbacks(m: MethodDesc) {
    |m.params| >= 3 && m.params[0].ty.Delegate? && m.params[1].ty.Delegate? && m.params[2].ty.Delegate?
  }

  /** The trampoline for callback parameter i. */
  function Callback(m: MethodDesc, i: nat): Chunk
    requires i < 3 && HasCallbacks(m)
  {
    CallbackFunction(m.params[i].name, m.params[i].ty.invoke)
  }

  /** A trampoline declared on a line of its own, followed by what comes
      after it. A trampoline that throws leaves its unfinished line behind and
      stops the method. */
  function Trampoline(decl: string, c: Chunk, rest: Emission): (t: Emission)
    ensures c.err.Some? ==> t.nodes == [] && t.err == c.err && t.pending == decl + c.text
    ensures c.err.None? ==> t.err == rest.err && t.pending == rest.pending
    ensures c.err.None? ==> |t.nodes| == 1 + |rest.nodes| && t.nodes[0] == Text(decl + c.text + ";") && t.nodes[1..] == rest.nodes
  {
    if c.err.Some? then Emission([], decl + c.text, c.err)
    else Emission([Text(decl + c.text + ";")] + rest.nodes, rest.pending, rest.err)
  }

  /** The tokens of a trampoline that does not throw, after `pre`. */
  lemma TrampolineTokens(pre: seq<Token>, decl: string, c: Chunk, rest: Emission)
    requires c.err.None?
    ensures pre + Flatten(Trampoline(decl, c, rest).nodes) ==
              pre + [Line(decl + c.text + ";")] + Flatten(rest.nodes)
  {
    FlattenAppend([Text(decl + c.text + ";")], rest.nodes);
    FlattenText(decl + c.text + ";");
  }

  /** The two lines that wire the runtime instance after the trampolines. */
  function Wiring(env: Env): seq<Node> {
    [ Text("var ctr = Module['" + env.constructorKey + "'];"),
      Text(ContextGetter(env) + " = new ctr(arrayBuilder, ch, oac, orc);") ]
  }

  /** The trampoline of the third callback, then the wiring. */
  function LastTrampoline(env: Env, c2: Chunk): Emission {
    Trampoline("var orc = ", c2, Emission(Wiring(env), "", None))
  }

  /** The trampolines of the second and third callbacks, then the wiring. */
  function LaterTrampolines(env: Env, c1: Chunk, c2: Chunk): Emission {
    Trampoline("var oac = ", c1, LastTrampoline(env, c2))
  }

  /** The trampolines of three callbacks, given by the chunks their functions
      produce, in parameter order, then the wiring. */
  function TrampolineChain(env: Env, c0: Chunk, c1: Chunk, c2: Chunk): Emission {
    Trampoline("var ch = ", c0, LaterTrampolines(env, c1, c2))
  }

  /** The chain stops at the first trampoline that throws, with its
      exception, and otherwise ends with the wiring and no unfinished line. */
  lemma TrampolineChainOutcome(env: Env, c0: Chunk, c1: Chunk, c2: Chunk)
    ensures var t := TrampolineChain(env, c0, c1, c2);
            t.err == (if c0.err.Some? then c0.err else if c1.err.Some? then c1.err else c2.err) &&
            (t.err.None? ==> t.pending == "")
  {
  }

  /** A chain that throws nowhere declares the three trampolines in order,
      each on its own line, then wires the runtime instance. */
  lemma TrampolineChainLayout(env: Env, c0: Chunk, c1: Chunk, c2: Chunk)
    requires c0.err.None? && c1.err.None? && c2.err.None?
    ensures TrampolineChain(env, c0, c1, c2).nodes ==
              [Text("var ch = " + c0.text + ";"), Text("var oac = " + c1.text + ";"),
               Text("var orc = " + c2.text + ";"), Text("var ctr = Module['" + env.constructorKey + "'];"),
               Text(ContextGetter(env) + " = new ctr(arrayBuilder, ch, oac, orc);")]
  {
  }

  /** The trampolines of the three callbacks, in parameter order, then the wiring. */
  function Trampolines(env: Env, m: MethodDesc): Emission
    requires HasCallbacks(m)
  {
    TrampolineChain(env, Callback(m, 0), Callback(m, 1), Callback(m, 2))
  }

  /** What WriteInitializeMethod writes inside the header's block once the
      three callback parameters are known to be delegates: the array builder,
      then the trampolines. */
  function InitializeParts(env: Env, m: MethodDesc): (r: Emission)
    requires HasCallbacks(m)
    ensures |r.nodes| >= 1 && r.nodes[0] == ArrayBuilder("var arrayBuilder = ", env.typeCodes)
  {
    var t := Trampolines(env, m);
    Emission([ArrayBuilder("var arrayBuilder = ", env.typeCodes)] + t.nodes, t.pending, t.err)
  }

  /** WriteInitializeMethod. Everything happens inside the method header's
      block, so an exception closes that block before it escapes. */
  function InitializeEmission(env: Env, m: MethodDesc): (r: Emission)
    ensures |r.nodes| == 1 && r.nodes[0].Block? && r.nodes[0].head == Header(m)
  {
    var head := Header(m);
    if |m.params| < 3 then Emission([Block(head, [])], "", Some(IndexOutOfRange))
    else if !HasCallbacks(m) then Emission([Block(head, [])], "", Some(BadInitializeSignature))
    else
      var parts := InitializeParts(env, m);
      Emission([Block(head, parts.nodes)], parts.pending, parts.err)
  }

  /** The initializer fails on fewer than three parameters, then on a
      callback that is not a delegate, then on a callback whose signature has a
      type without a dynCall tag, and succeeds otherwise. */
  lemma InitializeOutcome(env: Env, m: MethodDesc)
    ensures |m.params| < 3 <==> InitializeEmission(env, m).err == Some(IndexOutOfRange)
    ensures |m.params| >= 3 && !HasCallbacks(m) <==>
              InitializeEmission(env, m).err == Some(BadInitializeSignature)
    ensures InitializeEmission(env, m).err.None? <==> HasCallbacks(m) && SignaturesResolve(m)
  {
    if HasCallbacks(m) {
      TrampolinesOutcome(env, m);
    }
  }

  /** Every callback's signature has a dynCall tag for each of its types. */
  predicate SignaturesResolve(m: MethodDesc)
    requires HasCallbacks(m)
  {
    DyncallSignature(m.params[0].ty.invoke).Success? &&
    DyncallSignature(m.params[1].ty.invoke).Success? &&
    DyncallSignature(m.params[2].ty.invoke).Success?
  }

  /** A trampoline that throws does so for a type that cannot be marshalled. */
  lemma CallbackFailure(pointerVar: string, m: MethodDesc)
    requires CallbackFunction(pointerVar, m).err.Some?
    ensures CallbackFunction(pointerVar, m).err.value.CannotMarshal?
    ensures DyncallType(CallbackFunction(pointerVar, m).err.value.ty).Failure?
  {
    DyncallSignatureFailure(m);
  }

  /** The trampolines are written in full exactly when every callback's
      signature has a dynCall tag for each type, and the exception otherwise
      names a type that cannot be marshalled. */
  lemma TrampolinesOutcome(env: Env, m: MethodDesc)
    requires HasCallbacks(m)
    ensures var t := Trampolines(env, m);
            (t.err.None? <==> SignaturesResolve(m)) &&
            (t.err.Some? ==> t.err.value.CannotMarshal? && DyncallType(t.err.value.ty).Failure?)
  {
    var c0, c1, c2 := Callback(m, 0), Callback(m, 1), Callback(m, 2);
    TrampolineChainOutcome(env, c0, c1, c2);
    if c0.err.Some? {
      CallbackFailure(m.params[0].name, m.params[0].ty.invoke);
    } else if c1.err.Some? {
      CallbackFailure(m.params[1].name, m.params[1].ty.invoke);
    } else if c2.err.Some? {
      CallbackFailure(m.params[2].name, m.params[2].ty.invoke);
    }
  }

  /** A successful initializer writes, inside its header block, the array
      builder, the three trampolines in parameter order, and the wiring of the
      runtime instance under its Module key. */
  lemma InitializeBody(env: Env, m: MethodDesc)
    requires InitializeEmission(env, m).err.None?
    ensures HasCallbacks(m)
    ensures var r := InitializeEmission(env, m);
            r.pending == "" &&
            r.nodes[0].body ==
              [ ArrayBuilder("var arrayBuilder = ", env.typeCodes),
                Text("var ch = " + Callback(m, 0).text + ";"),
                Text("var oac = " + Callback(m, 1).text + ";"),
                Text("var orc = " + Callback(m, 2).text + ";"),
                Text("var ctr = Module['" + env.constructorKey + "'];"),
                Text(ContextGetter(env) + " = new ctr(arrayBuilder, ch, oac, orc);") ]
  {
    assert HasCallbacks(m);
    var c0, c1, c2 := Callback(m, 0), Callback(m, 1), Callback(m, 2);
    var t := TrampolineChain(env, c0, c1, c2);
    assert InitializeEmission(env, m).nodes[0].body == [ArrayBuilder("var arrayBuilder = ", env.typeCodes)] + t.nodes;
    TrampolineChainOutcome(env, c0, c1, c2);
    TrampolineChainLayout(env, c0, c1, c2);
    ConsSix(ArrayBuilder("var arrayBuilder = ", env.typeCodes), t.nodes[0], t.nodes[1], t.nodes[2], t.nodes[3], t.nodes[4]);
  }


  // ---------------------------------------------------------------------
  // The whole document (WriteSpecialMethod, GenerateJsLib)

  /** WriteSpecialMethod, then WriteMethod when it declines. */
  function EntryEmission(env: Env, m: MethodDesc): (r: Emission)
    ensures r.err.None? ==> r.pending == "" && |r.nodes| == 1
  {
    if m.name == InitializeName then InitializeEmission(env, m) else MethodEmission(env, m)
  }

  /** The tree of one entry: the initializer's block for the reserved name,
      the standard method's tree otherwise. */
  function EntryTree(env: Env, m: MethodDesc): Node
    requires m.name == InitializeName || IsStandardMethod(m)
  {
    if m.name == InitializeName then InitializeEmission(env, m).nodes[0] else StandardMethodTree(env, m)
  }

  /** The emissions of the catalog's methods, one per method. */
  function EntryEmissions(env: Env, ms: seq<MethodDesc>): (es: seq<Emission>)
    ensures |es| == |ms| && forall i :: 0 <= i < |ms| ==> es[i] == EntryEmission(env, ms[i])
  {
    if ms == [] then [] else [EntryEmission(env, ms[0])] + EntryEmissions(env, ms[1..])
  }

  /** The foreach loop of GenerateJsLib over the entries' emissions: each
      entry followed by a "," line, until the first exception. */
  function Collect(es: seq<Emission>): Emission
    decreases |es|
  {
    if es == [] then Emission([], "", None)
    else
      var prev := Collect(es[..|es| - 1]);
      var e := es[|es| - 1];
      if prev.err.Some? then prev
      else if e.err.Some? then Emission(prev.nodes + e.nodes, e.pending, e.err)
      else Emission(prev.nodes + e.nodes + [Text(",")], "", None)
  }

  function Entries(env: Env, ms: seq<MethodDesc>): Emission {
    Collect(EntryEmissions(env, ms))
  }

  /** GenerateJsLib: the banner, then every entry inside the mergeInto block,
      then the closing line. An exception closes the mergeInto block and escapes. */
  function Document(env: Env, ms: seq<MethodDesc>): Emission {
    var body := Entries(env, ms);
    var doc := [Text(Banner), Block(MergeHead, body.nodes)];
    if body.err.Some? then Emission(doc, body.pending, body.err)
    else Emission(doc + [Text(");")], "", None)
  }

  /** The tokens of the document around the entries' tokens. */
  lemma DocumentTokens(body: seq<Node>)
    ensures Flatten([Text(Banner), Block(MergeHead, body)]) ==
              [Line(Banner), Open(MergeHead)] + Flatten(body) + [Close]
    ensures Flatten([Text(Banner), Block(MergeHead, body), Text(");")]) ==
              [Line(Banner), Open(MergeHead)] + Flatten(body) + [Close] + [Line(");")]
  {
    var doc := [Text(Banner), Block(MergeHead, body)];
    FlattenAppend([Text(Banner)], [Block(MergeHead, body)]);
    assert doc == [Text(Banner)] + [Block(MergeHead, body)];
    FlattenText(Banner);
    FlattenBlock(MergeHead, body);
    FlattenAppend(doc, [Text(");")]);
    assert doc + [Text(");")] == [Text(Banner), Block(MergeHead, body), Text(");")];
    FlattenText(");");
  }

  /** The tokens of the array builder after `pre`, in writing order. */
  lemma ArrayBuilderTokens(pre: seq<Token>, lead: string, codes: seq<TypeCode>)
    ensures pre + Flatten([ArrayBuilder(lead, codes)]) ==
              pre + [Open(lead + "function(pointer, typeCode, length)")] + [Open("switch (typeCode)")] +
              Flatten(Cases(codes)) + [Close] + [Close]
  {
    FlattenBlock(lead + "function(pointer, typeCode, length)", [Block("switch (typeCode)", Cases(codes))]);
    FlattenBlock("switch (typeCode)", Cases(codes));
  }

  /** One turn of the foreach loop of GenerateJsLib, while nothing has thrown,
      as tokens after `pre`: the entry's tokens, then a "," line unless it threw. */
  lemma CollectNext(pre: seq<Token>, es: seq<Emission>, i: nat)
    requires i < |es| && Collect(es[..i]).err.None?
    ensures var next := Collect(es[..i + 1]);
            next.pending == (if es[i].err.Some? then es[i].pending else "") && next.err == es[i].err &&
            pre + Flatten(next.nodes) ==
              if es[i].err.Some? then pre + Flatten(Collect(es[..i]).nodes) + Flatten(es[i].nodes)
              else pre + Flatten(Collect(es[..i]).nodes) + Flatten(es[i].nodes) + [Line(",")]
  {
    var upto := es[..i + 1];
    assert upto[..i] == es[..i];
    assert upto[i] == es[i];
    var prev, e := Collect(es[..i]).nodes, es[i];
    FlattenAppend(prev, e.nodes);
    Assoc(pre, Flatten(prev), Flatten(e.nodes));
    if e.err.None? {
      assert Collect(upto).nodes == prev + e.nodes + [Text(",")];
      SnocText(pre, prev + e.nodes, ",");
    } else {
      assert Collect(upto).nodes == prev + e.nodes;
    }
  }

  /** The value GenerateJsLib returns: the document's tokens, or the exception. */
  function Generate(env: Env, ms: seq<MethodDesc>): Result<seq<Token>> {
    var d := Document(env, ms);
    if d.err.None? then Success(Flatten(d.nodes)) else Failure(d.err.value)
  }

  /** All or nothing: the loop runs to the end exactly when every entry succeeds. */
  lemma {:induction false} CollectSucceeds(es: seq<Emission>)
    ensures Collect(es).err.None? <==> forall i :: 0 <= i < |es| ==> es[i].err.None?
    decreases |es|
  {
    if es != [] {
      var init := es[..|es| - 1];
      CollectSucceeds(init);
      assert forall i :: 0 <= i < |init| ==> init[i] == es[i];
    }
  }

  /** A complete run holds each entry followed by a "," line, in order. */
  lemma {:induction false} CollectLayout(es: seq<Emission>)
    requires forall i :: 0 <= i < |es| ==> es[i].err.None? && |es[i].nodes| == 1
    ensures Collect(es).err.None? && |Collect(es).nodes| == 2 * |es|
    ensures forall i :: 0 <= i < |es| ==>
              Collect(es).nodes[2 * i] == es[i].nodes[0] && Collect(es).nodes[2 * i + 1] == Text(",")
    decreases |es|
  {
    CollectSucceeds(es);
    if es != [] {
      var init, e := es[..|es| - 1], es[|es| - 1];
      assert forall i :: 0 <= i < |init| ==> init[i] == es[i];
      CollectLayout(init);
      var prev := Collect(init).nodes;
      var body := prev + e.nodes + [Text(",")];
      assert Collect(es).nodes == body;
      forall i | 0 <= i < |es|
        ensures body[2 * i] == es[i].nodes[0] && body[2 * i + 1] == Text(",")
      {
        if i < |init| {
          assert body[2 * i] == prev[2 * i] && body[2 * i + 1] == prev[2 * i + 1];
        }
      }
    }
  }

  /** Once an entry has thrown, the rest of the catalog is not visited. */
  lemma {:induction false} CollectStops(es: seq<Emission>, k: nat)
    requires k <= |es| && Collect(es[..k]).err.Some?
    ensures Collect(es) == Collect(es[..k])
    decreases |es| - k
  {
    if k < |es| {
      var init := es[..|es| - 1];
      assert init[..k] == es[..k];
      CollectStops(init, k);
    } else {
      assert es[..k] == es;
    }
  }

  /** A failing run reports the exception of the first entry that fails. */
  lemma {:induction false} CollectFirstFailure(es: seq<Emission>)
    requires Collect(es).err.Some?
    ensures exists k :: 0 <= k < |es| && es[k].err == Collect(es).err &&
              forall j :: 0 <= j < k ==> es[j].err.None?
    decreases |es|
  {
    var init := es[..|es| - 1];
    assert forall j :: 0 <= j < |init| ==> init[j] == es[j];
    if Collect(init).err.Some? {
      CollectFirstFailure(init);
    } else {
      CollectSucceeds(init);
    }
  }

  /** GenerateJsLib returns the document exactly when every entry is written
      without an exception. */
  lemma GenerateSucceeds(env: Env, ms: seq<MethodDesc>)
    ensures Generate(env, ms).Success? <==>
              forall i :: 0 <= i < |ms| ==> EntryEmission(env, ms[i]).err.None?
  {
    CollectSucceeds(EntryEmissions(env, ms));
  }

  /** A failing GenerateJsLib reports the exception of the first entry that throws. */
  lemma GenerateFirstFailure(env: Env, ms: seq<MethodDesc>)
    requires Generate(env, ms).Failure?
    ensures exists k :: 0 <= k < |ms| &&
              EntryEmission(env, ms[k]).err == Some(Generate(env, ms).error) &&
              forall j :: 0 <= j < k ==> EntryEmission(env, ms[j]).err.None?
  {
    CollectFirstFailure(EntryEmissions(env, ms));
  }

  /** Every block a successful GenerateJsLib opens is closed. */
  lemma GenerateBalanced(env: Env, ms: seq<MethodDesc>)
    requires Generate(env, ms).Success?
    ensures Balanced(Generate(env, ms).value)
  {
    FlattenBalanced(Document(env, ms).nodes);
  }

  /** A successful document is the banner, the mergeInto block holding two
      nodes per entry, and the closing line. */
  lemma GenerateLayout(env: Env, ms: seq<MethodDesc>)
    requires Generate(env, ms).Success?
    ensures Document(env, ms).nodes == [Text(Banner), Block(MergeHead, Entries(env, ms).nodes), Text(");")]
    ensures |Entries(env, ms).nodes| == 2 * |ms|
  {
    var es := EntryEmissions(env, ms);
    CollectSucceeds(es);
    CollectLayout(es);
  }

  /** Inside the mergeInto block of a successful document, each entry's tree
      is followed by a "," line, in catalog order; every entry not named as the
      initializer is a standard method. */
  lemma GenerateEntries(env: Env, ms: seq<MethodDesc>)
    requires Generate(env, ms).Success?
    ensures |Entries(env, ms).nodes| == 2 * |ms|
    ensures forall i :: 0 <= i < |ms| ==> ms[i].name == InitializeName || IsStandardMethod(ms[i])
    ensures forall i :: 0 <= i < |ms| ==>
              Entries(env, ms).nodes[2 * i] == EntryTree(env, ms[i]) &&
              Entries(env, ms).nodes[2 * i + 1] == Text(",")
  {
    var es := EntryEmissions(env, ms);
    CollectSucceeds(es);
    CollectLayout(es);
    forall i | 0 <= i < |ms|
      ensures es[i].nodes[0] == EntryTree(env, ms[i])
    {
      assert es[i] == EntryEmission(env, ms[i]);
    }
  }

}
