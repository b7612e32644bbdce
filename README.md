# Inspector command

A model of the query-inspector command of the Lean trading engine
(`Common/Commands/InspectorCommand.cs`). An operator sends a C# expression
as text. The command wraps that text in a generated compilation unit,
compiles the unit in memory against a fixed list of assemblies, and invokes
the unit's `EvaluateCode(IAlgorithm algorithm)` method on the live
algorithm. It then answers with a result packet that holds the command, a
success flag and the evaluated result.

The model has three modules, one per part of the command:

- `Capabilities` (`capabilities.dfy`) holds the compiler parameters. The
  six referenced assemblies are added one by one to a `CompilerParameters`
  object. One of them depends on the platform: `System.Linq.dll` on Windows
  and `System.Core.dll` elsewhere. The platform is a boolean input.
- `Synthesis` (`synthesis.dfy`) holds the generated source: the 29 `using`
  directives, the namespace, class and method headers, `return <query>;`
  and three closing braces. A `StringBuilder` class is appended to in a
  loop, as `Evaluate` does. The pure function `Source` specifies the
  result, and `ExtractQuery` is its inverse.
- `Commands` (`commands.dfy`) holds `Evaluate` and `Run`. The C# compiler
  and reflection are an oracle of type `Compiler`. It receives the compiler
  settings and the source text. It either throws, or reports its
  diagnostics together with the compiled unit's entry point. The entry point
  stands for `CreateInstance`, `GetMethod` and `Invoke`: it takes the
  algorithm and returns an object or throws. The result packet is the
  datatype `Result`, whose constructor stores the command, the flag and the
  payload unchanged, as the C# `Result` constructor does.

The command has one behaviour that is easy to miss, and the model keeps it
exactly. When the unit fails to compile, `Evaluate` returns null. `Run` then
reports success with a null payload, which cannot be told apart from a query
that evaluated to null (`CompileErrorLooksLikeNull`). Only an exception
thrown out of `Evaluate` gives `success = false`, and then the payload is
that exception. A query may also return an exception object as its value.
That counts as success, so the payload's shape alone does not decide the
flag. A compile error is easy to mistake for a failure, but `Run` reports
it as success with a null payload (lines 125-129 and 45-56).

The `UsingStatements` array is written in the source as 29 string
literals. The model writes each entry as `"using " + namespace + ";"` over
the same 29 namespaces in the same order. The two give the same strings.

## Model

| member | source | states |
|---|---|---|
| `Capabilities.ReferenceList` | Common/Commands/InspectorCommand.cs:94-106 | six assemblies: `System.dll`, `mscorlib.dll`, one LINQ assembly, then the three QuantConnect assemblies; `System.Linq.dll` is present iff on Windows, `System.Core.dll` iff not |
| `Capabilities.PlatformChangesOnlyLinq` | Common/Commands/InspectorCommand.cs:96-103 | the two platforms' lists agree everywhere except the LINQ slot, where they differ |
| `Capabilities.ConfigureCompiler` | Common/Commands/InspectorCommand.cs:91-109 | adding the references one by one to fresh parameters and setting `/t:library` and in-memory output gives exactly the platform's settings |
| `Synthesis.UsingStatementsShape` | Common/Commands/InspectorCommand.cs:141-177 | the directives are 29 pairwise distinct strings, each `using `, a name and `;` |
| `Synthesis.NamespacesDistinct` | Common/Commands/InspectorCommand.cs:145-175 | no namespace is imported twice |
| `Synthesis.SynthesizeSource` | Common/Commands/InspectorCommand.cs:110-122 | appending every directive in a loop, then the headers, the return statement and the braces yields `Source(code)`, which is the fixed prefix, the query, and the fixed suffix |
| `Synthesis.DirectivesInSource` | Common/Commands/InspectorCommand.cs:111-114 | directive `i` occupies the unit from the end of directive `i - 1` on, so all 29 appear in list order, each whole, ahead of the namespace declaration |
| `Synthesis.SourceFrame` | Common/Commands/InspectorCommand.cs:116-122 | the unit is a prefix and a suffix that do not depend on the query, with the query between them |
| `Synthesis.ExtractSource` | Common/Commands/InspectorCommand.cs:119 | the query reads back out of its unit unchanged: it is inserted verbatim and unescaped |
| `Synthesis.SourceOfExtracted` | Common/Commands/InspectorCommand.cs:110-122 | any text accepted by `ExtractQuery` is the unit synthesized for the query read from it |
| `Synthesis.QueryVerbatim` | Common/Commands/InspectorCommand.cs:116-122 | the query occupies exactly the positions after the prefix and before `; \n} \n} \n}\n`; two units are equal iff their queries are |
| `Commands.Evaluate` | Common/Commands/InspectorCommand.cs:87-139 | the step-by-step evaluation ends as `Evaluation` says: the compiler's exception propagates, compile errors give null, otherwise the entry point's outcome on the algorithm |
| `Commands.InspectorCommand.Run` | Common/Commands/InspectorCommand.cs:42-57 | the packet is built from the evaluation of the command's own query: success with what `Evaluate` returned, or failure carrying the exception it threw |
| `Commands.CompilerInput` | Common/Commands/InspectorCommand.cs:94-124 | the compiler is only ever shown the platform's settings and a unit from which the query reads back unchanged: two compilers that agree on exactly those inputs give the same evaluation |
| `Commands.CompileErrorReportsSuccess` | Common/Commands/InspectorCommand.cs:125-129 | a unit with compile errors gives a packet with success and a null payload, whatever the entry point would do |
| `Commands.CompileErrorLooksLikeNull` | Common/Commands/InspectorCommand.cs:125-138 | a compile error and a query that evaluates to null give the same packet |
| `Commands.FailureIsTheException` | Common/Commands/InspectorCommand.cs:46-56 | the packet answers the command; it reports failure iff `Evaluate` threw, and then its payload is that exception |
| `Commands.WhereExceptionsComeFrom` | Common/Commands/InspectorCommand.cs:124-137 | `Evaluate` throws iff the compiler throws, or the unit compiles without errors and the entry point throws |
| `Commands.ValuePassesThrough` | Common/Commands/InspectorCommand.cs:131-138 | when the unit compiles, the entry point's return value on the algorithm is the payload of a successful packet, unchanged |
| `Commands.EvaluationDependsOnQueryAndAlgorithm` | Common/Commands/InspectorCommand.cs:124-137 | the evaluation consults the compiler only on the query's own unit, and the entry point only on the algorithm |

## Left out

- `CSharpCodeProvider`, `CompileAssemblyFromSource`, `CreateInstance`, `GetMethod` and `Invoke` are foreign compiler and reflection calls. They are the `Compiler` oracle, not a compiler. Whether a query compiles, and what it evaluates to, is therefore not modelled.
- Any exception the compiler or reflection throws is the oracle's exception value. This includes the wrapping of the query's own exception by `Invoke`.
- `Log.Error` (lines 52 and 127) is a logging side effect and is not modelled. When a compilation has errors, `Errors[0]` may be a warning, so the line at 127 can log a warning's text. That line is not part of this model.
- `OS.IsWindows` is platform detection. It is the boolean parameter `isWindows`.
- The `CommandResultPacket` base class and the command transport are not part of this model. `Result` keeps only the command, the success flag and the evaluated result.
- A C# null returned by the query and a null from a failed compilation are both `Null` in the model. Any other returned object is `Value` or, for an exception object, `Exception`.
- The entry point `evaluateCode` is a pure, total function of the algorithm value. The source passes the live algorithm by reference (lines 135-137), so a query that changes the algorithm (placing an order, say), or whose value depends on the clock or other mutable state, has effects and dependencies the model does not express.
- `Query` is a nullable public field (line 35). In C# a null query is appended as the empty string, so it behaves like the query `""`. The model's `query` is a `string` and cannot be null.
- The Python algorithm files of the repository are trading strategies over framework calls and floating-point data, and are not part of this model.
