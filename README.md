# JsLibGenerator, modelled in Dafny

`JsLibGenerator` is the Unity editor tool that writes the Emscripten `.jslib`
glue of the WebGL interop layer. It is given the catalog of extern methods of
the runtime (name, declaring type, parameters, return type). It writes one
JavaScript glue function per method into a single `mergeInto(LibraryManager.library, { ... });`
document.

- **Standard methods.** An ordinary method must take an `out int` status
  parameter first (an `[Out]` int array or pointer passes the same check). Its glue function decodes its string arguments and
  forwards the call to the runtime instance stored under a `Module` key. It
  reports the result kind through the status parameter and returns the value;
  a string result is copied into a fresh UTF-8 buffer. Around all of this is
  a try/catch: on an exception it writes `-1` to the status and tries to
  return the error text, and if that fails too it returns `0`.
- **The initializer.** The method named `InitializeInternal` takes three
  delegate callbacks instead. Its glue function builds:
  - a typed-array builder with one `case` per `TypedArrayTypeCode` member;
  - a `Runtime.dynCall` trampoline per callback, whose signature string is
    the one-character tags of the delegate's return type and parameter types;
  - the runtime instance, constructed from the array builder and the three
    trampolines.
- **Classifiers.** Two classifiers map .NET types to Emscripten tags:
  `GetDyncallType` gives the dynCall signature characters and
  `GetEmscriptenType` gives the `setValue` storage types.
- **Exceptions.** The generator throws on a method it cannot translate. The
  whole run then fails, and no document is returned.

## The model

The model has five modules, one per file:

- **`SemanticTypes`** (semantic_types.dfy) holds descriptors that stand in for
  .NET reflection:
  - `SemType`, with explicit sizes in place of `Marshal.SizeOf`, and arrays,
    pointers and by-ref types carrying the element type that
    `Type.GetElementType` returns;
  - `Param` and `MethodDesc`;
  - the generator's exceptions (`Error`);
  - `Chunk`, the text an in-line appender adds to the current line together
    with the exception it throws part-way, if any.
- **`Classifier`** (classifier.dfy) holds the two classifiers and the dynCall
  signature. The signature is a run of tags that stops at the first type with
  no tag.
- **`GlueText`** (glue_text.dfy) is the shape of the output:
  - a sequence of tokens (`Line`, `Open(head)` for `Brace()`, `Close` for the
    end of the `using` block that `Brace()` opened);
  - trees of blocks, which flatten into those tokens;
  - brace balance;
  - the `", "`-joined name lists and their splitting back into names.
- **`Emission`** (emission.dfy) describes what each emitter writes, as a
  value. An `Emission` is:
  - the blocks the emitter leaves in the builder;
  - the text left on the unfinished line;
  - the exception that escapes, if any.

  A block opened by `using` is closed even when an exception unwinds through
  it, so the description covers the exception paths too. Lemmas here state
  what the glue contains: the fail-fast validation, the try/catch protocol,
  the trampolines and the array-builder cases, and the whole document.
- **`Generator`** (generator.dfy) is the generator itself, imperative like
  the source. It is a class `JsLibGenerator` whose fields are:
  - the finished lines and braces of the shared `StringBuilder` (`lines`);
  - the line being written (`pending`);
  - the collaborators' constants (`env`).

  Each of its methods appends step by step, with the loops of the source,
  and is proved to leave in the builder exactly what `Emission` specifies,
  exception included.

Behaviour of the code that the model keeps as written:

- **String arguments** are decoded inside the `try` block, not before it.
- **Fewer than three parameters.** An initializer with fewer than three
  parameters fails with an index-out-of-range exception when the parameters
  are read (`IndexOutOfRange`). It does not fail with the "Bad Initialize
  signature" exception.
- **The shape error** carries the method's name and declaring type
  (`UnsupportedExtern`).
- **Out parameters are not checked.** The generator does not enforce that
  only the first parameter may be `out`. Out parameters are left out of the
  forwarded call and of a trampoline's argument list. They are counted in a
  trampoline's dynCall signature.
- **The doubled semicolon is kept.** The forwarding line ends in `;;`,
  because the forwarding text already ends in `;` before the line's own `;`
  is appended.

## Model

| member | source | states |
|---|---|---|
| Classifier.DyncallType | Editor/JsLibGenerator.cs:208-218 | tag `v` exactly for void; `f` and `d` exactly for float and double; `i` exactly for by-ref types, every other non-value type (strings, delegates, classes, arrays, pointers) and the other value types of size 4. It fails, with CannotMarshal of the type, exactly for value types of any other size than 4 or 8. A value type's tag has the width of its marshalled size |
| Classifier.EmscriptenType | Editor/JsLibGenerator.cs:221-233 | `i` exactly for non-value types; `i8`, `i16`, `i32`, `i64`, `float` and `double` exactly for byte, short, int, long, float and double respectively. It succeeds exactly for non-value types and byte, short, int, long, float and double, and otherwise fails with CannotMarshal of the type. The storage width of a value type's tag is its marshalled size |
| Classifier.ClassifierCoverage | Editor/JsLibGenerator.cs:208-233 | byte and short are exactly the types with a storage tag and no dynCall tag. Void, uint, ulong and 4- or 8-byte structs are exactly those with a dynCall tag and no storage tag |
| Classifier.ClassifiersAgreeOnWidth | Editor/JsLibGenerator.cs:208-233 | when both classifiers resolve a value type, the dynCall tag and the storage tag have the same width |
| Classifier.SignatureTypes | Editor/JsLibGenerator.cs:198-206 | the signature covers 1 + parameter-count types: the return type first, then each parameter type in declared order, out parameters included |
| Classifier.ParamTypes | Editor/JsLibGenerator.cs:202-203 | one type per parameter, in declared order |
| Classifier.TagRunStop | Editor/JsLibGenerator.cs:202-203 | once a type has thrown, the types after it are not visited |
| Classifier.TagRunResolved | Editor/JsLibGenerator.cs:198-206 | a run of tags succeeds exactly when every type has a tag, and then character i is the tag of type i |
| Classifier.TagsResolved | Editor/JsLibGenerator.cs:198-206 | the same for a whole signature |
| Classifier.TagRunFirstFailure | Editor/JsLibGenerator.cs:198-206 | a failed run throws the exception of the first type that has no tag, after appending the tags of the types before it |
| Classifier.TagsFirstFailure | Editor/JsLibGenerator.cs:198-206 | the same for a whole signature |
| Classifier.DyncallSignatureShape | Editor/JsLibGenerator.cs:198-206 | the signature has length 1 + parameter count. Character 0 is the return type's tag and character i+1 the tag of parameter i. It fails exactly when one of these types has no tag |
| Classifier.DyncallSignatureFailure | Editor/JsLibGenerator.cs:198-217 | a failing signature reports CannotMarshal of a type that has no tag, every type before it in signature order having one |
| GlueText.FlattenBalanced | Editor/JsLibGenerator.cs:48-77 | every tree of `using (... Brace())` blocks is written as balanced tokens: each Close matches an earlier Open, and every Open is closed |
| GlueText.FlattenScan | Editor/JsLibGenerator.cs:48-77 | a flattened tree leaves the nesting depth where it found it, whatever follows |
| GlueText.SplitJoin | Editor/JsLibGenerator.cs:138-152 | splitting a joined list of names at its separators gives the names back in order: there is no leading or trailing separator and none is doubled |
| GlueText.JoinEmpty | Editor/JsLibGenerator.cs:143 | a joined list is empty exactly when there are no names |
| Emission.Names | Editor/JsLibGenerator.cs:144-149 | entry i of the name list is the name of parameter i |
| Emission.NonOutExact | Editor/JsLibGenerator.cs:141 | the filter keeps exactly the parameters that are not `out`, and a list without out parameters is kept whole |
| Emission.NonOutMembers | Editor/JsLibGenerator.cs:141 | a parameter survives the filter exactly when it is in the list and not `out` |
| Emission.NonOutKeepsAll | Editor/JsLibGenerator.cs:141 | a list without out parameters is kept whole |
| Emission.NonOutFront | Editor/JsLibGenerator.cs:141 | a leading out parameter is dropped and the rest is filtered the same way |
| Emission.ParamListSplits | Editor/JsLibGenerator.cs:138-152 | every parameter list reads back, split at its separators, as the names of the parameters asked for, in declared order. It is empty exactly when no parameter is asked for |
| Emission.ForwardedArguments | Editor/JsLibGenerator.cs:109-110 | a standard method whose only out parameter is its status forwards exactly its other parameters |
| Emission.StringParams | Editor/JsLibGenerator.cs:127 | exactly the parameters of type string |
| Emission.ProcessStringsExact | Editor/JsLibGenerator.cs:123-136 | one `name = Pointer_stringify(name);` line per string parameter, in parameter order, and nothing for other parameters |
| Emission.OutParam | Editor/JsLibGenerator.cs:85-96 | rejects a parameter that is not `out` (BadOutParam) before anything is written. It succeeds exactly for an out parameter of an array, pointer or by-ref type whose element type has a storage tag, and then writes the single line `setValue(name, value, 'tag');` |
| Emission.ReturnStatements | Editor/JsLibGenerator.cs:57-58 | a string result ends the try block with the five-line UTF-8 copy, whose second line sizes the buffer as lengthBytesUTF8 + 1. Any other result ends it with `return ret.value;` alone |
| Emission.MethodEmission | Editor/JsLibGenerator.cs:41-46 | a method succeeds exactly when its first parameter is out and its element type is int (`out int`, or an `[Out]` int array or pointer). Otherwise it throws UnsupportedExtern with its name and declaring type, and nothing is written |
| Emission.StandardStatusTypes | Editor/JsLibGenerator.cs:40-42 | a method is standard exactly when its first parameter is out and of type `int&`, `int[]` or `int*`, the types whose element type is int |
| Emission.StatusIsInt32 | Editor/JsLibGenerator.cs:55 | the status parameter of a standard method is always written with storage tag `i32` and never throws |
| Emission.StandardMethodProtocol | Editor/JsLibGenerator.cs:48-77 | the glue function is the header block holding a try block and a catch block. The try block ends with the status line and then the return statements. The catch block writes -1 to the status, then holds a nested try, then a catch that returns 0 |
| Emission.CasesExact | Editor/JsLibGenerator.cs:241-246 | exactly one `case code: return new Name(buffer, pointer, length);` line per TypedArrayTypeCode member, in the order `Enum.GetValues` returns them (by unsigned value) |
| Emission.CallbackFunction | Editor/JsLibGenerator.cs:184-196 | a trampoline is complete exactly when the delegate's dynCall signature resolves, and otherwise throws the signature's exception |
| Emission.CallbackFailure | Editor/JsLibGenerator.cs:190 | a trampoline that throws does so with CannotMarshal of a type that has no dynCall tag |
| Emission.Trampoline | Editor/JsLibGenerator.cs:176-178 | a trampoline that throws stops the method with its error: nothing more is written and its unfinished line (the declaration and the partial trampoline text) stays. Otherwise it is one line, the declaration and the trampoline ending in `;`, followed by exactly what comes after it, whose pending text and error it keeps |
| Emission.TrampolineChainOutcome | Editor/JsLibGenerator.cs:176-180 | the three trampolines stop at the first that throws, with its exception, and otherwise leave no unfinished line |
| Emission.TrampolineChainLayout | Editor/JsLibGenerator.cs:176-180 | when none throws: the `ch`, `oac` and `orc` trampolines in that order, then the constructor lookup and the construction of the runtime instance |
| Emission.InitializeEmission | Editor/JsLibGenerator.cs:158-182 | whatever happens, the initializer leaves exactly one block, headed by the method header |
| Emission.InitializeOutcome | Editor/JsLibGenerator.cs:158-182 | the initializer fails with IndexOutOfRange exactly when there are fewer than three parameters. It fails with BadInitializeSignature exactly when there are three or more but one of the first three is not a delegate. It succeeds exactly when they are delegates whose signatures all resolve |
| Emission.TrampolinesOutcome | Editor/JsLibGenerator.cs:176-178 | the trampolines are all written exactly when every callback's signature resolves. Otherwise the exception is CannotMarshal of a type that has no dynCall tag |
| Emission.InitializeBody | Editor/JsLibGenerator.cs:175-180 | a successful initializer's block holds exactly: the array builder, the three trampolines in parameter order, the constructor lookup under its Module key, and the storing of the new instance under the instance key |
| Emission.EntryEmission | Editor/JsLibGenerator.cs:29 | an entry written without an exception is one tree with no unfinished line |
| Emission.EntryEmissions | Editor/JsLibGenerator.cs:27-29 | one entry per catalog method, in catalog order |
| Emission.CollectSucceeds | Editor/JsLibGenerator.cs:27-31 | the loop runs to its end exactly when no entry throws |
| Emission.CollectLayout | Editor/JsLibGenerator.cs:27-31 | a complete loop holds each entry followed by a `,` line, in order |
| Emission.CollectStops | Editor/JsLibGenerator.cs:27-31 | once an entry has thrown, the rest of the catalog is not visited |
| Emission.CollectFirstFailure | Editor/JsLibGenerator.cs:27-31 | a failing loop reports the exception of the first entry that throws |
| Emission.GenerateSucceeds | Editor/JsLibGenerator.cs:20-35 | GenerateJsLib returns a document exactly when every entry is written without an exception |
| Emission.GenerateFirstFailure | Editor/JsLibGenerator.cs:20-35 | a failing run raises the exception of the first entry that throws, every earlier entry having succeeded |
| Emission.GenerateBalanced | Editor/JsLibGenerator.cs:20-35 | every block of a returned document is closed |
| Emission.GenerateLayout | Editor/JsLibGenerator.cs:20-35 | a returned document is the banner, the mergeInto block with two nodes per catalog method, and the `);` line |
| Emission.GenerateEntries | Editor/JsLibGenerator.cs:27-31 | inside the mergeInto block, method i is followed by a `,` line. It is written by the initializer emitter when its name is the reserved one and by the standard emitter otherwise; every other method of a successful run is a standard method |
| Generator.JsLibGenerator.constructor | Editor/JsLibGenerator.cs:22 | a new builder is empty |
| Generator.JsLibGenerator.AppendParams | Editor/JsLibGenerator.cs:138-152 | the loop appends the joined names of the parameters asked for to the current line and writes no line |
| Generator.JsLibGenerator.AppendDyncallType | Editor/JsLibGenerator.cs:200-203 | one type's tag extends the run of tags, or its exception ends it |
| Generator.JsLibGenerator.AppendDyncallSignature | Editor/JsLibGenerator.cs:198-206 | appends the run of tags of the signature, and throws the run's exception, if any |
| Generator.JsLibGenerator.AppendParamTags | Editor/JsLibGenerator.cs:202-203 | the foreach loop over the parameters continues the run begun by the return type's tag |
| Generator.JsLibGenerator.AppendMethodForwarding | Editor/JsLibGenerator.cs:109-110 | appends `context.Name(non-out arguments);` |
| Generator.JsLibGenerator.AppendCallbackFunction | Editor/JsLibGenerator.cs:184-196 | appends the trampoline text, or its prefix up to the failing tag together with the exception |
| Generator.JsLibGenerator.WriteProcessStrings | Editor/JsLibGenerator.cs:123-136 | the loop writes exactly the decoding lines of the string parameters |
| Generator.JsLibGenerator.WriteOutParam | Editor/JsLibGenerator.cs:85-96 | writes what OutParam describes, including the partial `setValue(` text left by a failing storage tag |
| Generator.JsLibGenerator.WriteStringReturn | Editor/JsLibGenerator.cs:98-105 | writes the five lines of the UTF-8 copy, in order |
| Generator.JsLibGenerator.WriteMethodHeader | Editor/JsLibGenerator.cs:107-108 | opens the block `Name: function (all parameters)` |
| Generator.JsLibGenerator.Try | Editor/JsLibGenerator.cs:83 | opens a `try` block |
| Generator.JsLibGenerator.Catch | Editor/JsLibGenerator.cs:80-81 | opens a `catch (name)` block |
| Generator.JsLibGenerator.WriteTryBlock | Editor/JsLibGenerator.cs:50-59 | writes the try block the model describes |
| Generator.JsLibGenerator.WriteCatchBlock | Editor/JsLibGenerator.cs:60-76 | writes the catch block the model describes |
| Generator.JsLibGenerator.WriteMethod | Editor/JsLibGenerator.cs:37-78 | writes what MethodEmission describes: the standard glue function, or UnsupportedExtern with nothing written |
| Generator.JsLibGenerator.AppendArrayBuilderFunction | Editor/JsLibGenerator.cs:235-249 | writes the array builder after the text already on the current line |
| Generator.JsLibGenerator.AppendCases | Editor/JsLibGenerator.cs:241-246 | the foreach loop writes exactly the case lines, in `Enum.GetValues` order |
| Generator.JsLibGenerator.AppendCase | Editor/JsLibGenerator.cs:242-246 | writes one member's case line |
| Generator.JsLibGenerator.WriteTrampoline | Editor/JsLibGenerator.cs:176-178 | writes a trampoline line, or leaves its partial text and throws |
| Generator.JsLibGenerator.WriteWiring | Editor/JsLibGenerator.cs:179-180 | writes the constructor lookup and the construction of the runtime instance |
| Generator.JsLibGenerator.WriteLastTrampoline | Editor/JsLibGenerator.cs:178-180 | writes the `orc` trampoline and, if it does not throw, the wiring |
| Generator.JsLibGenerator.WriteLaterTrampolines | Editor/JsLibGenerator.cs:177-180 | writes the `oac` trampoline and, if it does not throw, what follows |
| Generator.JsLibGenerator.WriteTrampolines | Editor/JsLibGenerator.cs:176-180 | writes the three trampolines and the wiring, stopping at the first exception |
| Generator.JsLibGenerator.WriteInitializeBody | Editor/JsLibGenerator.cs:175-180 | writes the array builder, then the trampolines |
| Generator.JsLibGenerator.WriteInitializeMethod | Editor/JsLibGenerator.cs:158-182 | writes what InitializeEmission describes; the header block is closed on every path |
| Generator.JsLibGenerator.WriteSpecialMethod | Editor/JsLibGenerator.cs:112-121 | takes the initializer path exactly when the name is `InitializeInternal`, and otherwise writes nothing and reports that it declined |
| Generator.JsLibGenerator.WriteEntry | Editor/JsLibGenerator.cs:29 | writes what EntryEmission describes |
| Generator.JsLibGenerator.WriteEntries | Editor/JsLibGenerator.cs:27-31 | the foreach loop writes each entry and a `,` line, until the first exception |
| Generator.JsLibGenerator.GenerateJsLib | Editor/JsLibGenerator.cs:20-35 | starts a fresh builder and writes the document. It returns the document's tokens, or the first entry's exception |

## Left out

- **.NET reflection** is replaced by descriptors. `Type.IsValueType`,
  `GetElementType`, `IsSubclassOf(typeof(Delegate))`, `GetMethod("Invoke")`
  and `Marshal.SizeOf` become fields and functions of `SemType`. The size of
  a struct is part of its descriptor.
- **GeneratorCommon is not part of this model.** It provides the static
  `Builder`, `Brace()` and `IndentHolder`, `RuntimeMethods`,
  `InstanceModuleKey` and `ConstructorModuleKey`. The model treats them as
  follows:
  - `Brace()` is an `Open` token carrying the text before it, and the end of
    its `using` block is a `Close` token. The braces and indentation it really
    writes are not modelled.
  - The catalog, the two keys and the TypedArrayTypeCode members are inputs.
- **Rendering.** `StringBuilder.ToString` is not modelled: a document is a
  sequence of tokens, not the final text.
- **Where an unfinished line ends up.** When an exception unwinds through a
  `using` block, the model still records the unfinished line in `pending`. It
  does not say where that line ends up relative to the closing brace. That
  depends on `IndentHolder.Dispose`, which is not part of this model.
  Nothing is returned in that case.
- **The repeated `long` branches** (lines 228-229) of GetEmscriptenType cannot
  be reached, so EmscriptenType has one `long` branch.
- **Decimal** writes an enumeration code as `StringBuilder.Append(int)` does
  under the invariant culture. Other cultures' digits and signs are not
  modelled.
- **Runtime behaviour of the generated JavaScript** is not modelled: dynCall,
  `_malloc`, UTF-8 encoding and the `Module` singleton are only text here.
- **Writing the `.jslib` file and the editor menu command** are I/O outside
  the generator.
