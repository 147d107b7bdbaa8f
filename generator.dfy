/** JsLibGenerator: the static generator and the shared StringBuilder it
    appends to. The builder holds the finished lines and block braces
    (`lines`) and the line being written (`pending`); each emitter is proved
    to leave in it exactly what module Emission specifies, exceptions
    included. */
module Generator {
  import opened SemanticTypes
  import opened Classifier
  import opened GlueText
  import opened Emission

  class JsLibGenerator {
    /** The collaborators' constants: Module keys and TypedArrayTypeCode members. */
    const env: Env
    var lines: seq<Token>
    var pending: string

    constructor (env: Env)
      ensures this.env == env && lines == [] && pending == ""
    {
      this.env := env;
      lines := [];
      pending := "";
    }

    // ---------------------------------------------------------------------
    // The builder's primitives: StringBuilder.Append and AppendLine, and the
    // Brace() scope of GeneratorCommon (opened by Brace, closed by EndBrace
    // when the `using` block is left, normally or by an exception).

    method Append(s: string)
      modifies this
      ensures lines == old(lines) && pending == old(pending) + s
      ensures old(pending) == "" ==> pending == s
    {
      assert "" + s == s;
      pending := pending + s;
    }

    method AppendLine(s: string)
      modifies this
      ensures lines == old(lines) + [Line(old(pending) + s)] && pending == ""
      ensures old(pending) == "" ==> lines == old(lines) + [Line(s)]
    {
      assert "" + s == s;
      lines := lines + [Line(pending + s)];
      pending := "";
    }

    method Brace()
      modifies this
      ensures lines == old(lines) + [Open(old(pending))] && pending == ""
    {
      lines := lines + [Open(pending)];
      pending := "";
    }

    method EndBrace()
      modifies this
      ensures lines == old(lines) + [Close] && pending == old(pending)
    {
      lines := lines + [Close];
    }

    // ---------------------------------------------------------------------
    // In-line appenders

    /** AppendParams: the names, filtered of out parameters unless asked for, joined by ", ". */
    method AppendParams(ps: seq<Param>, includeOut: bool)
      modifies this
      ensures lines == old(lines) && pending == old(pending) + ParamList(ps, includeOut)
    {
      var list := if includeOut then ps else NonOut(ps);
      ghost var names := Names(list);
      var length := |list|;
      if length == 0 {
        assert pending == old(pending) + Join(names);
        return;
      }
      Append(list[0].name);
      assert names[..1] == [names[0]];
      for i := 1 to length
        invariant lines == old(lines)
        invariant pending == old(pending) + Join(names[..i])
      {
        JoinNext(old(pending), names, i);
        Append(", ");
        Append(list[i].name);
      }
      assert names[..length] == names;
    }

    /** `sb.Append(GetDyncallType(t))` for type `k` of the signature `ts`
        whose run of tags so far follows `start`: the run grows by the tag
        of `t`, or ends with its exception. */
    method AppendDyncallType(t: SemType, ghost ts: seq<SemType>, ghost k: nat, ghost start: string)
      returns (err: Option<Error>)
      requires k < |ts| && ts[k] == t && TagRun(ts, k).err.None? && pending == start + TagRun(ts, k).text
      modifies this
      ensures lines == old(lines) && err == TagRun(ts, k + 1).err
      ensures pending == start + TagRun(ts, k + 1).text
    {
      var c := DyncallType(t);
      if c.Failure? {
        return Some(c.error);
      }
      Append([c.value]);
      Assoc(start, TagRun(ts, k).text, [c.value]);
      err := None;
    }

    /** AppendDyncallSignature: the return type's tag, then each parameter's,
        until a type has no tag. */
    method AppendDyncallSignature(m: MethodDesc) returns (err: Option<Error>)
      modifies this
      ensures lines == old(lines)
      ensures pending == old(pending) + Tags(SignatureTypes(m)).text
      ensures err == Tags(SignatureTypes(m)).err
    {
      ghost var ts := SignatureTypes(m);
      ghost var start := pending;
      assert start + TagRun(ts, 0).text == start;
      err := AppendDyncallType(m.ret, ts, 0, start);
      if err.Some? {
        TagRunStop(ts, 1, |ts|);
        return;
      }
      err := AppendParamTags(m.params, ts, start);
    }

    /** The foreach loop of AppendDyncallSignature over the parameters, whose
        types follow the return type in `ts`. */
    method AppendParamTags(ps: seq<Param>, ghost ts: seq<SemType>, ghost start: string)
      returns (err: Option<Error>)
      requires |ts| == |ps| + 1 && forall i :: 0 <= i < |ps| ==> ts[i + 1] == ps[i].ty
      requires TagRun(ts, 1).err.None? && pending == start + TagRun(ts, 1).text
      modifies this
      ensures lines == old(lines)
      ensures pending == start + TagRun(ts, |ts|).text && err == TagRun(ts, |ts|).err
    {
      for i := 0 to |ps|
        invariant lines == old(lines)
        invariant pending == start + TagRun(ts, i + 1).text
        invariant TagRun(ts, i + 1).err.None?
      {
        err := AppendDyncallType(ps[i].ty, ts, i + 1, start);
        if err.Some? {
          TagRunStop(ts, i + 2, |ts|);
          return;
        }
      }
      err := None;
    }

    /** AppendMethodForwarding. */
    method AppendMethodForwarding(contextVar: string, m: MethodDesc)
      modifies this
      ensures lines == old(lines) && pending == old(pending) + Forwarding(contextVar, m)
    {
      Append(contextVar + "." + m.name + "(");
      AppendParams(m.params, false);
      Append(");");
    }

    /** AppendCallbackFunction: a dynCall trampoline through `pointerVar`. */
    method AppendCallbackFunction(pointerVar: string, m: MethodDesc) returns (err: Option<Error>)
      modifies this
      ensures lines == old(lines)
      ensures pending == old(pending) + CallbackFunction(pointerVar, m).text
      ensures err == CallbackFunction(pointerVar, m).err
    {
      CallbackFunctionText(pointerVar, m, pending);
      Append("function(");
      AppendParams(m.params, false);
      Append("){");
      Append("return Runtime.dynCall('");
      err := AppendDyncallSignature(m);
      if err.Some? {
        return;
      }
      Append("', ");
      Append(pointerVar);
      Append(", [");
      AppendParams(m.params, false);
      Append("]);}");
    }

    // ---------------------------------------------------------------------
    // Line emitters

    /** WriteProcessStrings: decode every string parameter in place, in declared order. */
    method WriteProcessStrings(ps: seq<Param>)
      requires pending == ""
      modifies this
      ensures lines == old(lines) + Flatten(ProcessStrings(ps)) && pending == ""
    {
      for i := 0 to |ps|
        invariant lines == old(lines) + Flatten(ProcessStrings(ps[..i])) && pending == ""
      {
        assert ps[..i + 1][..i] == ps[..i];
        var p := ps[i];
        assert ps[..i + 1][i] == p;
        ghost var prev := ProcessStrings(ps[..i]);
        if p.ty == Str {
          Append(p.name + " = Pointer_stringify(" + p.name);
          AppendLine(");");
          assert "" + (p.name + " = Pointer_stringify(" + p.name) + ");" == DecodeLine(p.name);
          assert ProcessStrings(ps[..i + 1]) == prev + [Text(DecodeLine(p.name))];
          FlattenText(DecodeLine(p.name));
          FlattenAppend(prev, [Text(DecodeLine(p.name))]);
        } else {
          assert ProcessStrings(ps[..i + 1]) == prev + [];
          assert prev + [] == prev;
        }
      }
      assert ps[..|ps|] == ps;
    }

    /** WriteOutParam: `setValue(name, value, 'tag');` for an out parameter. */
    method WriteOutParam(p: Param, value: string) returns (err: Option<Error>)
      requires pending == ""
      modifies this
      ensures lines == old(lines) + Flatten(OutParam(p, value).nodes)
      ensures pending == OutParam(p, value).pending && err == OutParam(p, value).err
    {
      assert Flatten([]) == [] && lines + [] == lines;
      if !p.isOut {
        return Some(BadOutParam);
      }
      Append("setValue(" + p.name + ", " + value + ", '");
      assert pending == "setValue(" + p.name + ", " + value + ", '";
      match ElementType(p.ty)
      case None =>
        err := Some(NullType);
      case Some(e) =>
        var tag := EmscriptenType(e);
        if tag.Failure? {
          err := Some(tag.error);
        } else {
          Append(tag.value);
          AppendLine("');");
          assert lines == old(lines) + [Line(SetValueLine(p.name, value, tag.value))];
          FlattenText(SetValueLine(p.name, value, tag.value));
          err := None;
        }
    }

    /** WriteStringReturn. */
    method WriteStringReturn(retValue: string)
      requires pending == ""
      modifies this
      ensures lines == old(lines) + Flatten(StringReturn(retValue)) && pending == ""
    {
      ghost var start := lines;
      AppendLine("var returnStr  = " + retValue + ";");
      AppendLine("var bufferSize = lengthBytesUTF8(returnStr) + 1;");
      AppendLine("var strBuffer = _malloc(bufferSize);");
      AppendLine("stringToUTF8(returnStr, strBuffer, bufferSize);");
      AppendLine("return strBuffer;");
      FlattenTexts(StringReturn(retValue));
      assert lines == start + [
        Line("var returnStr  = " + retValue + ";"),
        Line("var bufferSize = lengthBytesUTF8(returnStr) + 1;"),
        Line("var strBuffer = _malloc(bufferSize);"),
        Line("stringToUTF8(returnStr, strBuffer, bufferSize);"),
        Line("return strBuffer;") ];
    }
  
    /** WriteMethodHeader: `Name: function (all, parameters)`, opening the function's block. */
    method WriteMethodHeader(m: MethodDesc)
      requires pending == ""
      modifies this
      ensures lines == old(lines) + [Open(Header(m))] && pending == ""
    {
      Append(m.name);
      Append(": function (");
      AppendParams(m.params, true);
      Append(")");
      Brace();
    }

    /** The `Try` property: opens a try block. */
    method Try()
      requires pending == ""
      modifies this
      ensures lines == old(lines) + [Open("try")] && pending == ""
    {
      Append("try");
      Brace();
    }

    /** Catch: opens a catch block binding `errorName`. */
    method Catch(errorName: string)
      requires pending == ""
      modifies this
      ensures lines == old(lines) + [Open("catch (" + errorName + ")")] && pending == ""
    {
      Append("catch (");
      Append(errorName);
      Append(")");
      Brace();
    }

    /** The first `using (Try)` of WriteMethod. */
    method WriteTryBlock(m: MethodDesc)
      requires IsStandardMethod(m) && pending == ""
      modifies this
      ensures lines == old(lines) + Flatten([TryBlock(env, m)]) && pending == ""
    {
      var ps := m.params;
      TryBlockTokens(env, m, lines);
      Try();
      WriteProcessStrings(ps);
      InvocationTokens(env, m, lines);
      Append("var context = ");
      Append(ContextGetter(env));
      AppendLine(";");
      Append("var ret = ");
      AppendMethodForwarding("context", m);
      AppendLine(";");
      StatusIsInt32(m, "ret.type");
      FlattenText(SetValueLine(ps[0].name, "ret.type", "i32"));
      var outErr := WriteOutParam(ps[0], "ret.type");
      if m.ret == Str {
        WriteStringReturn("ret.value");
      } else {
        AppendLine("return ret.value;");
        FlattenText("return ret.value;");
      }
      EndBrace();
    }

    /** The `using (Catch("error"))` of WriteMethod. */
    method WriteCatchBlock(m: MethodDesc)
      requires IsStandardMethod(m) && pending == ""
      modifies this
      ensures lines == old(lines) + Flatten([CatchBlock(env, m.params[0].name)]) && pending == ""
    {
      var ps := m.params;
      CatchBlockTokens(env, ps[0].name, lines);
      assert "catch (" + "error" + ")" == "catch (error)";
      assert "catch (" + "innerError" + ")" == "catch (innerError)";
      Catch("error");
      StatusIsInt32(m, "-1");
      FlattenText(SetValueLine(ps[0].name, "-1", "i32"));
      var outErr := WriteOutParam(ps[0], "-1");
      ErrorReportTokens(env, lines);
      Try();
      AppendLine("console.log(error)");
      AppendLine("var errString = String(error)");
      Append("var strRet = ");
      Append(ContextGetter(env));
      AppendLine(".CreateString(errString);");
      AppendLine("return strRet.value;");
      EndBrace();
      Catch("innerError");
      AppendLine("return 0;");
      EndBrace();
      EndBrace();
    }

    /** WriteMethod: the standard glue function, or UnsupportedExtern before anything is written. */
    method WriteMethod(m: MethodDesc) returns (err: Option<Error>)
      requires pending == ""
      modifies this
      ensures lines == old(lines) + Flatten(MethodEmission(env, m).nodes)
      ensures pending == MethodEmission(env, m).pending && err == MethodEmission(env, m).err
    {
      var ps := m.params;
      var isStandardMethod := |ps| > 0 && ps[0].isOut && ElementType(ps[0].ty) == Some(Value(Int));
      if !isStandardMethod {
        assert Flatten([]) == [] && lines + [] == lines;
        return Some(UnsupportedExtern(m.name, m.declaringType));
      }
      StandardMethodTokens(env, m, lines);
      WriteMethodHeader(m);
      WriteTryBlock(m);
      WriteCatchBlock(m);
      EndBrace();
      err := None;
    }
  
    /** AppendArrayBuilderFunction: a function that switches over the type
        codes, one case per TypedArrayTypeCode member, written after the text
        already on the current line. */
    method AppendArrayBuilderFunction()
      modifies this
      ensures lines == old(lines) + Flatten([ArrayBuilder(old(pending), env.typeCodes)]) && pending == ""
    {
      ArrayBuilderTokens(lines, pending, env.typeCodes);
      Append("function(pointer, typeCode, length)");
      Brace();
      Append("switch (typeCode)");
      Brace();
      AppendCases(env.typeCodes);
      EndBrace();
      EndBrace();
    }

    /** The switch cases of the array builder, one per enumeration member. */
    method AppendCases(codes: seq<TypeCode>)
      requires pending == ""
      modifies this
      ensures lines == old(lines) + Flatten(Cases(codes)) && pending == ""
    {
      ghost var start := lines;
      assert codes[..0] == [];
      for i := 0 to |codes|
        invariant lines == start + Flatten(Cases(codes[..i])) && pending == ""
      {
        assert codes[..i + 1][..i] == codes[..i];
        assert codes[..i + 1][i] == codes[i];
        SnocText(start, Cases(codes[..i]), CaseLine(codes[i]));
        AppendCase(codes[i]);
      }
      assert codes[..|codes|] == codes;
    }

    /** The case of one enumeration member, on a line of its own. */
    method AppendCase(tc: TypeCode)
      requires pending == ""
      modifies this
      ensures lines == old(lines) + [Line(CaseLine(tc))] && pending == ""
    {
      Append("case ");
      Append(Decimal(tc.code));
      Append(": return new ");
      Append(tc.name);
      AppendLine("(buffer, pointer, length);");
    }

    /** One trampoline of WriteInitializeMethod on a line of its own: the
        declaration, the callback function, and the ";" that ends the line.
        When the trampoline throws, its unfinished line stays behind. */
    method WriteTrampoline(decl: string, p: Param) returns (err: Option<Error>)
      requires p.ty.Delegate? && pending == ""
      modifies this
      ensures var c := CallbackFunction(p.name, p.ty.invoke);
              err == c.err &&
              (c.err.Some? ==> lines == old(lines) && pending == decl + c.text) &&
              (c.err.None? ==> lines == old(lines) + [Line(decl + c.text + ";")] && pending == "")
    {
      Append(decl);
      err := AppendCallbackFunction(p.name, p.ty.invoke);
      if err.None? {
        AppendLine(";");
      }
    }

    /** The wiring of the runtime instance after the trampolines. */
    method WriteWiring()
      requires pending == ""
      modifies this
      ensures lines == old(lines) + Flatten(Wiring(env)) && pending == ""
    {
      var a, b := "var ctr = Module['" + env.constructorKey + "'];", ContextGetter(env) + " = new ctr(arrayBuilder, ch, oac, orc);";
      TextsTokens2(lines, a, b);
      AppendLine(a);
      AppendLine(b);
    }

    /** The trampoline of the third callback and the wiring. */
    method WriteLastTrampoline(m: MethodDesc) returns (err: Option<Error>)
      requires HasCallbacks(m) && pending == ""
      modifies this
      ensures var t := LastTrampoline(env, Callback(m, 2));
              lines == old(lines) + Flatten(t.nodes) && pending == t.pending && err == t.err
    {
      ghost var c := Callback(m, 2);
      if c.err.None? {
        TrampolineTokens(lines, "var orc = ", c, Emission(Wiring(env), "", None));
      } else {
        assert lines + Flatten([]) == lines;
      }
      err := WriteTrampoline("var orc = ", m.params[2]);
      if err.None? {
        WriteWiring();
      }
    }

    /** The trampolines of the second and third callbacks and the wiring. */
    method WriteLaterTrampolines(m: MethodDesc) returns (err: Option<Error>)
      requires HasCallbacks(m) && pending == ""
      modifies this
      ensures var t := LaterTrampolines(env, Callback(m, 1), Callback(m, 2));
              lines == old(lines) + Flatten(t.nodes) && pending == t.pending && err == t.err
    {
      ghost var c := Callback(m, 1);
      if c.err.None? {
        TrampolineTokens(lines, "var oac = ", c, LastTrampoline(env, Callback(m, 2)));
      } else {
        assert lines + Flatten([]) == lines;
      }
      err := WriteTrampoline("var oac = ", m.params[1]);
      if err.None? {
        err := WriteLastTrampoline(m);
      }
    }

    /** The three trampolines of WriteInitializeMethod and the wiring after them. */
    method WriteTrampolines(m: MethodDesc) returns (err: Option<Error>)
      requires HasCallbacks(m) && pending == ""
      modifies this
      ensures lines == old(lines) + Flatten(Trampolines(env, m).nodes)
      ensures pending == Trampolines(env, m).pending && err == Trampolines(env, m).err
    {
      ghost var c := Callback(m, 0);
      if c.err.None? {
        TrampolineTokens(lines, "var ch = ", c, LaterTrampolines(env, Callback(m, 1), Callback(m, 2)));
      } else {
        assert lines + Flatten([]) == lines;
      }
      err := WriteTrampoline("var ch = ", m.params[0]);
      if err.None? {
        err := WriteLaterTrampolines(m);
      }
    }

    /** The body of WriteInitializeMethod's block after the parameter checks. */
    method WriteInitializeBody(m: MethodDesc) returns (err: Option<Error>)
      requires HasCallbacks(m) && pending == ""
      modifies this
      ensures lines == old(lines) + Flatten(InitializeParts(env, m).nodes)
      ensures pending == InitializeParts(env, m).pending && err == InitializeParts(env, m).err
    {
      ghost var start := lines;
      ghost var arr := ArrayBuilder("var arrayBuilder = ", env.typeCodes);
      ghost var t := Trampolines(env, m);
      assert InitializeParts(env, m).nodes == [arr] + t.nodes;
      FlattenAppend([arr], t.nodes);
      Assoc(start, Flatten([arr]), Flatten(t.nodes));
      Append("var arrayBuilder = ");
      AppendArrayBuilderFunction();
      err := WriteTrampolines(m);
    }

    /** WriteInitializeMethod: the header, then, inside its block, the checks
        on the three callback parameters, the array builder, the three
        trampolines and the wiring of the runtime instance. The block is
        closed whether or not an exception escapes. */
    method WriteInitializeMethod(m: MethodDesc) returns (err: Option<Error>)
      requires pending == ""
      modifies this
      ensures lines == old(lines) + Flatten(InitializeEmission(env, m).nodes)
      ensures pending == InitializeEmission(env, m).pending && err == InitializeEmission(env, m).err
    {
      ghost var start := lines;
      var head := Header(m);
      WriteMethodHeader(m);
      assert lines == start + [Open(head)] + Flatten([]);
      var ps := m.params;
      if |ps| < 3 {
        EndBrace();
        BlockTokens(start, head, []);
        return Some(IndexOutOfRange);
      }
      if !ps[0].ty.Delegate? || !ps[1].ty.Delegate? || !ps[2].ty.Delegate? {
        EndBrace();
        BlockTokens(start, head, []);
        return Some(BadInitializeSignature);
      }
      BlockTokens(start, head, InitializeParts(env, m).nodes);
      err := WriteInitializeBody(m);
      EndBrace();
    }

    /** WriteSpecialMethod: the initializer takes the reserved name; any other
        method is declined without writing anything. */
    method WriteSpecialMethod(m: MethodDesc) returns (special: bool, err: Option<Error>)
      requires pending == ""
      modifies this
      ensures special <==> m.name == InitializeName
      ensures special ==> lines == old(lines) + Flatten(InitializeEmission(env, m).nodes) &&
                          pending == InitializeEmission(env, m).pending &&
                          err == InitializeEmission(env, m).err
      ensures !special ==> lines == old(lines) && pending == old(pending) && err.None?
    {
      if m.name == InitializeName {
        err := WriteInitializeMethod(m);
        return true, err;
      }
      return false, None;
    }

    /** One entry of the catalog: WriteSpecialMethod, then WriteMethod when it declines. */
    method WriteEntry(m: MethodDesc) returns (err: Option<Error>)
      requires pending == ""
      modifies this
      ensures lines == old(lines) + Flatten(EntryEmission(env, m).nodes)
      ensures pending == EntryEmission(env, m).pending && err == EntryEmission(env, m).err
    {
      var special;
      special, err := WriteSpecialMethod(m);
      if !special {
        err := WriteMethod(m);
      }
    }

    /** The foreach loop of GenerateJsLib: each entry followed by a "," line,
        until the first exception. */
    method WriteEntries(ms: seq<MethodDesc>) returns (err: Option<Error>)
      requires pending == ""
      modifies this
      ensures lines == old(lines) + Flatten(Entries(env, ms).nodes)
      ensures pending == Entries(env, ms).pending && err == Entries(env, ms).err
    {
      ghost var top := lines;
      ghost var es := EntryEmissions(env, ms);
      assert es[..0] == [];
      for i := 0 to |ms|
        invariant Collect(es[..i]).err.None? && Collect(es[..i]).pending == ""
        invariant lines == top + Flatten(Collect(es[..i]).nodes) && pending == ""
      {
        CollectNext(top, es, i);
        assert es[i] == EntryEmission(env, ms[i]);
        err := WriteEntry(ms[i]);
        if err.Some? {
          CollectStops(es, i + 1);
          return;
        }
        AppendLine(",");
      }
      assert es[..|ms|] == es;
      err := None;
    }

    /** GenerateJsLib: starts a new builder and writes the whole document; an
        exception closes the mergeInto block and escapes, so nothing is returned. */
    method GenerateJsLib(ms: seq<MethodDesc>) returns (r: Result<seq<Token>>)
      modifies this
      ensures lines == Flatten(Document(env, ms).nodes) && pending == Document(env, ms).pending
      ensures r == Generate(env, ms)
    {
      lines, pending := [], "";
      AppendLine(Banner);
      Append(MergeHead);
      Brace();
      assert lines == [Line(Banner), Open(MergeHead)];
      ghost var body := Entries(env, ms);
      DocumentTokens(body.nodes);
      var err := WriteEntries(ms);
      EndBrace();
      if err.Some? {
        return Failure(err.value);
      }
      AppendLine(");");
      return Success(lines);
    }
  }
}
