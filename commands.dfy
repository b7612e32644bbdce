/** The inspector command itself: `Evaluate` compiles the synthesized unit
    and invokes its entry point on the live algorithm, and `Run` folds every
    way that can end into one result packet
    (Common/Commands/InspectorCommand.cs, lines 30-139).

    The C# compiler and reflection are not modelled; they are an oracle.
    `Compiler` maps the compiler settings and the source text to what
    `CompileAssemblyFromSource` does: it throws, or it reports its
    diagnostics together with the compiled assembly's entry point, which
    stands for `CreateInstance("QuantConnect.Inspector")`,
    `GetMethod("EvaluateCode")` and `Invoke`. */
module Commands {
  import opened Capabilities
  import opened Synthesis

  /** A C# `object` as the result packet carries it: null, an exception, or
      any other object (type `V`, opaque to the command). */
  datatype Object<V, E> = Null | Value(value: V) | Exception(exception: E)

  /** How a call ended: it returned, or it threw. */
  datatype Attempt<T, E> = Returned(value: T) | Threw(exception: E)

  /** One diagnostic of the compiler; warnings share the collection with errors. */
  datatype CompilerError = CompilerError(errorText: string, isWarning: bool)

  /** What a finished compilation reports: its diagnostics, and the entry
      point of the compiled unit, which takes the algorithm (type `A`) and
      returns what `EvaluateCode` returns or the exception it throws. */
  datatype CompilerResults<!A, V, E> = CompilerResults(
    errors: seq<CompilerError>,
    evaluateCode: A -> Attempt<Object<V, E>, E>)
  {
    /** `Errors.HasErrors`: some diagnostic is an error, not a warning. */
    predicate HasErrors()
    {
      exists i :: 0 <= i < |errors| && !errors[i].isWarning
    }
  }

  /** The compiler as an oracle: settings and source text in, results or a
      thrown exception out. */
  type Compiler<!A, V, E> = (CompilerSettings, string) -> Attempt<CompilerResults<A, V, E>, E>

  /** What `Evaluate` does with query `code`: it compiles the synthesized
      unit with the platform's settings; a compiler that throws lets the
      exception through, a unit with errors gives null, and otherwise the
      entry point is called with the algorithm and its outcome is returned
      as it is. */
  function Evaluation<A, V, E>(code: string, algorithm: A, isWindows: bool, compile: Compiler<A, V, E>)
    : Attempt<Object<V, E>, E>
  {
    match compile(Settings(isWindows), Source(code))
    case Threw(e) => Threw(e)
    case Returned(results) =>
      if results.HasErrors() then Returned(Null) else results.evaluateCode(algorithm)
  }

  /** The result packet: the command it answers, the success flag and the
      evaluated result. */
  datatype Result<V, E> = Result(command: InspectorCommand, success: bool, evaluatedResult: Object<V, E>)

  /** What `Run` reports for an evaluation that ended with `outcome`: what
      `Evaluate` returned counts as success, and an exception it threw is
      caught and becomes the payload of a failure. */
  function Respond<V, E>(command: InspectorCommand, outcome: Attempt<Object<V, E>, E>): Result<V, E>
  {
    match outcome
    case Returned(obj) => Result(command, true, obj)
    case Threw(e) => Result(command, false, Exception(e))
  }

  /** `Evaluate`: configure the compiler, synthesize the unit, compile it,
      and either stop at the compile errors or invoke the entry point. */
  method Evaluate<A, V, E>(code: string, algorithm: A, isWindows: bool, compile: Compiler<A, V, E>)
    returns (outcome: Attempt<Object<V, E>, E>)
    ensures outcome == Evaluation(code, algorithm, isWindows, compile)
  {
    var settings := ConfigureCompiler(isWindows);
    var source := SynthesizeSource(code);
    var compiled := compile(settings, source);
    if compiled.Threw? {
      return Threw(compiled.exception);
    }
    var results := compiled.value;
    if results.HasErrors() {
      return Returned(Null);
    }
    outcome := results.evaluateCode(algorithm);
  }

  /** The command as it arrives from the transport: the query text. */
  class InspectorCommand {
    var query: string

    constructor (query: string)
      ensures this.query == query
    {
      this.query := query;
    }

    /** `Run`: evaluate the query and answer with a result packet; an
        exception from `Evaluate` never escapes. */
    method Run<A, V, E>(algorithm: A, isWindows: bool, compile: Compiler<A, V, E>) returns (r: Result<V, E>)
      ensures r == Respond(this, Evaluation(query, algorithm, isWindows, compile))
    {
      var result: Object<V, E>;
      var success := true;
      var outcome := Evaluate(query, algorithm, isWindows, compile);
      match outcome {
        case Returned(obj) =>
          result := obj;
        case Threw(err) =>
          result := Exception(err);
          success := false;
      }
      r := Result(this, success, result);
    }
  }

  // ---------------------------------------------------------------------
  // What the packet says about the evaluation
  // ---------------------------------------------------------------------

  /** The compiler is only ever shown the platform's settings and a unit
      from which the query reads back unchanged: two compilers that agree on
      those inputs give the same evaluation, whatever they do elsewhere. */
  lemma CompilerInput<A, V, E>(
    code: string, algorithm: A, isWindows: bool, c1: Compiler<A, V, E>, c2: Compiler<A, V, E>)
    requires forall s, src :: s == Settings(isWindows) && ExtractQuery(src) == Some(code) ==> c1(s, src) == c2(s, src)
    ensures Evaluation(code, algorithm, isWindows, c1) == Evaluation(code, algorithm, isWindows, c2)
  {
    ExtractSource(code);
  }

  /** A unit with compile errors yields success with a null payload, and
      the entry point is never consulted. */
  lemma CompileErrorReportsSuccess<A, V, E>(
    command: InspectorCommand, code: string, algorithm: A, isWindows: bool, compile: Compiler<A, V, E>)
    requires compile(Settings(isWindows), Source(code)).Returned?
    requires compile(Settings(isWindows), Source(code)).value.HasErrors()
    ensures Respond(command, Evaluation(code, algorithm, isWindows, compile)) == Result(command, true, Null)
  {
  }

  /** From the packet alone a compile error cannot be told apart from a
      query that compiled and evaluated to null. */
  lemma CompileErrorLooksLikeNull<A, V, E>(
    command: InspectorCommand, code: string, algorithm: A, isWindows: bool,
    failing: Compiler<A, V, E>, passing: Compiler<A, V, E>)
    requires failing(Settings(isWindows), Source(code)).Returned?
    requires failing(Settings(isWindows), Source(code)).value.HasErrors()
    requires passing(Settings(isWindows), Source(code)).Returned?
    requires !passing(Settings(isWindows), Source(code)).value.HasErrors()
    requires passing(Settings(isWindows), Source(code)).value.evaluateCode(algorithm) == Returned(Null)
    ensures Respond(command, Evaluation(code, algorithm, isWindows, failing))
         == Respond(command, Evaluation(code, algorithm, isWindows, passing))
  {
  }

  /** The packet reports failure exactly when `Evaluate` threw, and then its
      payload is the exception thrown. */
  lemma FailureIsTheException<A, V, E>(
    command: InspectorCommand, code: string, algorithm: A, isWindows: bool, compile: Compiler<A, V, E>)
    ensures var r := Respond(command, Evaluation(code, algorithm, isWindows, compile));
      && r.command == command
      && (!r.success <==> Evaluation(code, algorithm, isWindows, compile).Threw?)
      && (!r.success ==> r.evaluatedResult == Exception(Evaluation(code, algorithm, isWindows, compile).exception))
  {
  }

  /** `Evaluate` throws exactly when the compiler throws, or the unit
      compiles cleanly and the entry point throws. */
  lemma WhereExceptionsComeFrom<A, V, E>(code: string, algorithm: A, isWindows: bool, compile: Compiler<A, V, E>)
    ensures var compiled := compile(Settings(isWindows), Source(code));
      Evaluation(code, algorithm, isWindows, compile).Threw? <==>
        || compiled.Threw?
        || (!compiled.value.HasErrors() && compiled.value.evaluateCode(algorithm).Threw?)
  {
  }

  /** A unit that compiles cleanly is called with the algorithm alone, and
      what it returns, null and exception objects included, is the payload
      of a successful packet unchanged. */
  lemma ValuePassesThrough<A, V, E>(
    command: InspectorCommand, code: string, algorithm: A, isWindows: bool, compile: Compiler<A, V, E>,
    obj: Object<V, E>)
    requires compile(Settings(isWindows), Source(code)).Returned?
    requires !compile(Settings(isWindows), Source(code)).value.HasErrors()
    requires compile(Settings(isWindows), Source(code)).value.evaluateCode(algorithm) == Returned(obj)
    ensures Respond(command, Evaluation(code, algorithm, isWindows, compile)) == Result(command, true, obj)
  {
  }

  /** The evaluation looks at the compiler only on the one unit synthesized
      for the query, and at the entry point only on the algorithm. */
  lemma EvaluationDependsOnQueryAndAlgorithm<A, V, E>(
    code: string, algorithm: A, isWindows: bool, c1: Compiler<A, V, E>, c2: Compiler<A, V, E>)
    requires c1(Settings(isWindows), Source(code)).Threw? == c2(Settings(isWindows), Source(code)).Threw?
    requires c1(Settings(isWindows), Source(code)).Threw? ==>
      c1(Settings(isWindows), Source(code)).exception == c2(Settings(isWindows), Source(code)).exception
    requires c1(Settings(isWindows), Source(code)).Returned? ==>
      var r1, r2 := c1(Settings(isWindows), Source(code)).value, c2(Settings(isWindows), Source(code)).value;
      r1.errors == r2.errors && r1.evaluateCode(algorithm) == r2.evaluateCode(algorithm)
    ensures Evaluation(code, algorithm, isWindows, c1) == Evaluation(code, algorithm, isWindows, c2)
  {
  }
}
