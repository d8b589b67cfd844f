# Iris: variable context, cached uniforms, operator token and program set

This project is a Dafny model of four small, sequential pieces of the Iris shader loader.

- **Variable context of the expression evaluator** (`BasicFunctionContext`). A name-to-expression map.
  - `setVariable` binds or rebinds a name; the last write wins.
  - `setIntVariable` and `setFloatVariable` bind constant expressions. Each constant writes one slot of a `FunctionReturn`.
  - `getVariable` throws for a name that was never bound.
- **Change-detecting cached uniforms** (`FloatCachedUniform`, `Float4VectorCachedUniform`).
  - The float uniform stores each new value and reports whether it differs from the previous one under Java's `!=`.
  - Both uniforms upload their cached value at a uniform location.
  - The vec4 uniform copies a vector into a cache object of its own.
- **The binary-operator token** (`BinaryOperatorToken`). An immutable token with a fixed text form, `BinaryOp{` + operator + `)}`.
- **The program set of a shader pack** (`ProgramSet`).
  - Which programs are read: 16-slot arrays named `name`, `name1` … `name15`.
  - Which files each program comes from: `<program>.vsh`, `<program>.gsh` and `<program>.fsh`.
  - In which order the programs are visited to collect their directives: 84 slots, with missing (`null`) slots skipped.

Files and modules:

- `java_lang.dfy`, module `JavaLang`:
  - Java's `int` as `int32`.
  - Java's `float` as `Float32`, a binary32 bit pattern, with Java's `!=` on it (`FloatNotEqual`).
  - `null` as `Option.None`.
  - A thrown `RuntimeException` as `Result.Thrown(message)`.
- `stareval_function.dfy`, module `StarevalFunction`:
  - `FunctionReturn` and `BasicFunctionContext` are classes whose fields are updated in place.
  - The expressions are a closed datatype `Expr`.
- `stareval_token.dfy`, module `StarevalToken`: the `Token` datatype and its text form.
- `cached_uniforms.dfy`, module `CachedUniforms`:
  - The two uniform classes.
  - The `Vector4f` they cache into.
  - An `UploadSink` whose ghost `uploads` log stands for the `glUniform1f` and `glUniform4f` calls.
- `program_set.dfy`, module `Shaderpack` (named after the Java package):
  - Program and file naming, as functions.
  - `ReadProgramArray` and `LocateDirectives`, as methods with loops.
  - The `ProgramSet` class.

Collaborators outside the model become parameters:

- The value a supplier returns is the argument of `DoUpdate`.
- The uniform location (from the unseen base class) is the argument of `Push`.
- The shader source provider is a function from a file name in the program directory to `Option<string>`.
- The text form of a `BinaryOp` is a function argument of `ToString`.

Behaviour of the source that the model keeps:

- The change test is Java's `!=` on `float`, not plain exact equality. A NaN is reported as changed on every update. `0.0f` and `-0.0f` are not told apart.
- `getVariable` throws a `RuntimeException` with the message `Variable hasn't been set: <name>`. It throws both for a name never bound and for a name bound to `null`.

## Model

| member | source | states |
|---|---|---|
| JavaLang.FloatNotEqualIrreflexive | src/main/java/net/coderbot/iris/uniforms/custom/cached/FloatCachedUniform.java:21-23 | off NaN, Java's `!=` never reports a float as different from itself |
| JavaLang.NaNAlwaysDiffers | src/main/java/net/coderbot/iris/uniforms/custom/cached/FloatCachedUniform.java:23 | a NaN is `!=` every float, itself included, in both argument orders |
| JavaLang.FloatNotEqualIsExact | src/main/java/net/coderbot/iris/uniforms/custom/cached/FloatCachedUniform.java:23 | off NaN and the pair of signed zeros, `!=` is exact inequality with no tolerance |
| JavaLang.SignedZerosCompareEqual | src/main/java/net/coderbot/iris/uniforms/custom/cached/FloatCachedUniform.java:23 | `0.0f` and `-0.0f` are distinct values that `!=` reports as equal |
| StarevalFunction.EvaluateConstant | src/main/java/kroppeb/stareval/function/BasicFunctionContext.java:15-21 | a constant bound by the int or float setter writes its value into its own slot and leaves the other slot unchanged |
| StarevalFunction.MissingVariableMessageNamesVariable | src/main/java/kroppeb/stareval/function/BasicFunctionContext.java:27 | the exception message can be parsed back to exactly the variable name that was looked up |
| StarevalFunction.BasicFunctionContext.constructor | src/main/java/kroppeb/stareval/function/BasicFunctionContext.java:9 | a new context binds no name |
| StarevalFunction.BasicFunctionContext.SetVariable | src/main/java/kroppeb/stareval/function/BasicFunctionContext.java:11-13 | the map becomes the old map with `name` bound to the value; every other binding is unchanged |
| StarevalFunction.BasicFunctionContext.SetIntVariable | src/main/java/kroppeb/stareval/function/BasicFunctionContext.java:15-17 | `name` is bound to the int constant of `value`; nothing else changes |
| StarevalFunction.BasicFunctionContext.SetFloatVariable | src/main/java/kroppeb/stareval/function/BasicFunctionContext.java:19-21 | `name` is bound to the float constant of `value`; nothing else changes |
| StarevalFunction.BasicFunctionContext.GetVariable | src/main/java/kroppeb/stareval/function/BasicFunctionContext.java:24-29 | returns the bound expression exactly when `name` is bound to a non-null expression; otherwise throws with a message naming `name`; changes nothing |
| StarevalFunction.LastWriteWins | src/main/java/kroppeb/stareval/function/BasicFunctionContext.java:11-29 | after two bindings of one name, lookup returns the second expression |
| StarevalFunction.SetLeavesOthers | src/main/java/kroppeb/stareval/function/BasicFunctionContext.java:11-29 | binding one name does not change the lookup of any other name, whether that lookup succeeds or throws |
| StarevalFunction.SetIntThenEvaluate | src/main/java/kroppeb/stareval/function/BasicFunctionContext.java:15-17 | the expression found under a name after `setIntVariable` writes the int and leaves the float slot unchanged |
| StarevalFunction.SetFloatThenEvaluate | src/main/java/kroppeb/stareval/function/BasicFunctionContext.java:19-21 | the expression found under a name after `setFloatVariable` writes the float and leaves the int slot unchanged |
| StarevalToken.ToStringShape | src/main/java/kroppeb/stareval/token/BinaryOperatorToken.java:13-15 | the text is `BinaryOp{`, then the operator's text unchanged, then the mismatched closer `)}` |
| StarevalToken.OperatorTextOfToString | src/main/java/kroppeb/stareval/token/BinaryOperatorToken.java:13-15 | the operator's text can be read back out of the token's text form |
| StarevalToken.ToStringDeterminedByOperator | src/main/java/kroppeb/stareval/token/BinaryOperatorToken.java:14 | two tokens print identically if and only if their operators print identically |
| CachedUniforms.FloatCachedUniform.constructor | src/main/java/net/coderbot/iris/uniforms/custom/cached/FloatCachedUniform.java:11-17 | keeps the update frequency; the cache starts at the default `0.0f` |
| CachedUniforms.FloatCachedUniform.DoUpdate | src/main/java/net/coderbot/iris/uniforms/custom/cached/FloatCachedUniform.java:19-24 | afterwards the cache holds the supplied value; the result is true exactly when the previous cache `!=` the supplied value |
| CachedUniforms.FloatCachedUniform.Push | src/main/java/net/coderbot/iris/uniforms/custom/cached/FloatCachedUniform.java:26-29 | appends exactly one single-float upload of the cache at the location, with as many components as the uniform's type; the cache is unchanged |
| CachedUniforms.FloatCachedUniform.WriteTo | src/main/java/net/coderbot/iris/uniforms/custom/cached/FloatCachedUniform.java:31-34 | the float slot receives the cache; no other slot and not the cache is written |
| CachedUniforms.FloatCachedUniform.GetType | src/main/java/net/coderbot/iris/uniforms/custom/cached/FloatCachedUniform.java:36-39 | the type is always `Float`, one component per upload |
| CachedUniforms.UpdateTwiceWithSameValue | src/main/java/net/coderbot/iris/uniforms/custom/cached/FloatCachedUniform.java:20-24 | two updates in a row with the same non-NaN value: the second reports no change |
| CachedUniforms.UpdateTwiceWithNaN | src/main/java/net/coderbot/iris/uniforms/custom/cached/FloatCachedUniform.java:20-24 | two updates in a row with a NaN both report a change |
| CachedUniforms.Float4VectorCachedUniform.constructor | src/main/java/net/coderbot/iris/uniforms/custom/cached/Float4VectorCachedUniform.java:12-14 | the cache is a freshly allocated vector aliased to nothing else, starting at (0, 0, 0, 1) as the vector's no-argument constructor builds it |
| CachedUniforms.Float4VectorCachedUniform.SetFrom | src/main/java/net/coderbot/iris/uniforms/custom/cached/Float4VectorCachedUniform.java:17-19 | the existing cache object receives all four components of the argument; only the cache object is written |
| CachedUniforms.Float4VectorCachedUniform.Push | src/main/java/net/coderbot/iris/uniforms/custom/cached/Float4VectorCachedUniform.java:22-24 | appends exactly one four-float upload at the location with components x, y, z, w in that order, as many as the uniform's type has; the cache is unchanged |
| CachedUniforms.Float4VectorCachedUniform.GetType | src/main/java/net/coderbot/iris/uniforms/custom/cached/Float4VectorCachedUniform.java:26-29 | the type is always `Vec4`, four components per upload |
| CachedUniforms.SetFromThenChangeSource | src/main/java/net/coderbot/iris/uniforms/custom/cached/Float4VectorCachedUniform.java:17-24 | changing the source vector after `setFrom` changes neither the cache nor what is uploaded |
| Shaderpack.DecimalRoundTrip | src/main/java/net/coderbot/iris/shaderpack/ProgramSet.java:91 | the decimal form of an index is a non-empty digit string, without a leading zero for a positive index, that denotes the index again; so the suffix is exactly `Integer.toString`'s spelling |
| Shaderpack.ArrayProgramNames | src/main/java/net/coderbot/iris/shaderpack/ProgramSet.java:88-94 | an array's slot names number exactly 16 |
| Shaderpack.ArrayProgramNameInjective | src/main/java/net/coderbot/iris/shaderpack/ProgramSet.java:90-94 | different slots of one array are read under different program names |
| Shaderpack.SourceFileNameRoundTrip | src/main/java/net/coderbot/iris/shaderpack/ProgramSet.java:247-254 | a source file name parses back to its program and stage, so no two (program, stage) pairs share a file |
| Shaderpack.ReadProgramSourceQueries | src/main/java/net/coderbot/iris/shaderpack/ProgramSet.java:244-257 | the result carries the program name and the provider's answers for `.vsh`, `.gsh` and `.fsh` in vertex, geometry, fragment order; the three files are distinct |
| Shaderpack.ReadProgramArray | src/main/java/net/coderbot/iris/shaderpack/ProgramSet.java:85-97 | returns a new array of exactly 16 slots; slot `i` holds the program read under `name` plus the suffix of `i` |
| Shaderpack.PresentMembership | src/main/java/net/coderbot/iris/shaderpack/ProgramSet.java:123-126 | a program is visited if and only if it sits in some slot; `null` slots are skipped |
| Shaderpack.PresentLength | src/main/java/net/coderbot/iris/shaderpack/ProgramSet.java:123-126 | the visit is no longer than the list, and exactly as long if and only if no slot is `null` |
| Shaderpack.FragmentSourcesMembership | src/main/java/net/coderbot/iris/shaderpack/ProgramSet.java:128-132 | a text is scanned for directives if and only if it is the fragment source of some visited program; programs without a fragment source are not scanned |
| Shaderpack.VisitOrder | src/main/java/net/coderbot/iris/shaderpack/ProgramSet.java:100-117 | the visiting order names 84 programs |
| Shaderpack.ProgramSet.constructor | src/main/java/net/coderbot/iris/shaderpack/ProgramSet.java:47-83 | every field holds the program read under its fixed name (glint is `gbuffers_armor_glint`, entity eyes `gbuffers_spidereyes`, final composite `final`); the four arrays are new and 16 long; the 84 programs are visited in the fixed order, and the present fragment sources of the visited programs are scanned in that order |
| Shaderpack.ProgramSet.ProgramListVisitOrder | src/main/java/net/coderbot/iris/shaderpack/ProgramSet.java:99-117 | when every slot holds the program of its name, the visit meets the programs under exactly the fixed 84-name order |
| Shaderpack.ProgramSet.LocateDirectives | src/main/java/net/coderbot/iris/shaderpack/ProgramSet.java:99-133 | the list is built with the add and addAll steps; the programs visited are its non-null entries in list order, and the texts scanned are the present fragment sources of those programs, in the same order |
| Shaderpack.ProgramSet.GetShadowComposite | src/main/java/net/coderbot/iris/shaderpack/ProgramSet.java:144-146 | returns the stored array itself, not a copy |
| Shaderpack.ProgramSet.GetPrepare | src/main/java/net/coderbot/iris/shaderpack/ProgramSet.java:148-150 | returns the stored array itself, not a copy |
| Shaderpack.ProgramSet.GetDeferred | src/main/java/net/coderbot/iris/shaderpack/ProgramSet.java:216-218 | returns the stored array itself, not a copy |
| Shaderpack.ProgramSet.GetComposite | src/main/java/net/coderbot/iris/shaderpack/ProgramSet.java:228-230 | returns the stored array itself, not a copy |

## Left out

- The base classes `CachedUniform` and `VectorCachedUniform` are not part of this model. So the model leaves out:
  - the update-frequency scheduling, including the "push once for an unchanged value" cycle;
  - the vector uniform's `doUpdate` comparison;
  - the supplier field;
  - `getLocation`.

  The supplied value and the location are method parameters. The vec4 constructor takes no supplier.
- Float arithmetic and IEEE semantics beyond Java's `!=` are left out. Floats are bit patterns.
- `FunctionReturn` has only its int and float slots. The boolean and object slots are not written by any modelled code.
- Variable names are non-null strings. The `null` name, which the map accepts as a key, is not modelled; in the source, looking it up throws with the message ending in `null` unless a setter has bound it to a non-null expression.
- Only the two constant expressions are evaluated. Parsed expressions, native-supplier expressions and the context argument of evaluation are out of scope. The tokenizer, parser and type system are not part of this model.
- The GL upload calls are foreign calls. They are modelled as entries appended to a ghost log.
- `Shaderpack.ReadProgramSourceQueries`: the order in which the provider is called is stated as the order of `SourceQueries`, not as an observed sequence of calls. The provider is a pure function here.
- `AbsolutePackPath.resolve` is not part of this model. The provider takes file names relative to the program directory.
- `ProgramSource.requireValid` is not part of this model. So the getters for the single programs, which return `Optional`, are left out. Callers read the final fields directly.
- `PackDirectives`, `ConstDirectiveParser` and `DispatchingDirectiveHolder` are not part of this model. `LocateDirectives` returns the non-null programs it visits and the fragment sources it would scan, in order, instead of processing their directives.
- `ProgramSource.getFragmentSource` is not part of this model. It is taken to be present exactly when the fragment source read from the provider is non-null.
- The debug logging of render-target settings is left out.
- The `pack` and `ShaderProperties` arguments are left out, and so is the `programSet` back-reference that each `ProgramSource` receives.
- Tokens other than the binary-operator token are not part of this model. `BinaryOp` and its text form are a type parameter and a function argument.
- `ShadowRenderer` is not modelled: GL state, world rendering and float arithmetic on engine globals.
- `Iris` is not modelled: file-system, configuration and key-binding plumbing.
- `MixinDefaultVertexFormat` is not modelled: its body is commented out.
