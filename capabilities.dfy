/** The compiler settings the inspector command compiles a query with: the
    referenced assemblies, one of which depends on the platform, the
    library output kind and in-memory generation
    (Common/Commands/InspectorCommand.cs, lines 91-109). */
module Capabilities {

  /** The assembly that provides the LINQ query operators on this platform. */
  function LinqAssembly(isWindows: bool): string
  {
    if isWindows then "System.Linq.dll" else "System.Core.dll"
  }

  /** The referenced assemblies, in the order they are added. */
  function ReferencedAssemblies(isWindows: bool): seq<string>
  {
    [ "System.dll",
      "mscorlib.dll",
      LinqAssembly(isWindows),
      "QuantConnect.Common.dll",
      "QuantConnect.Algorithm.dll",
      "QuantConnect.Indicators.dll" ]
  }

  /** What the compiler is handed besides the source text. */
  datatype CompilerSettings = CompilerSettings(
    referencedAssemblies: seq<string>,
    compilerOptions: string,
    generateInMemory: bool)

  /** The settings `Evaluate` uses on a platform. */
  function Settings(isWindows: bool): CompilerSettings
  {
    CompilerSettings(ReferencedAssemblies(isWindows), "/t:library", true)
  }

  /** Six assemblies: the fixed five around exactly one LINQ assembly, which
      is `System.Linq.dll` exactly on Windows and `System.Core.dll` exactly
      elsewhere; never both, never neither. */
  lemma ReferenceList(isWindows: bool)
    ensures |ReferencedAssemblies(isWindows)| == 6
    ensures ReferencedAssemblies(isWindows)[..2] == ["System.dll", "mscorlib.dll"]
    ensures ReferencedAssemblies(isWindows)[3..]
      == ["QuantConnect.Common.dll", "QuantConnect.Algorithm.dll", "QuantConnect.Indicators.dll"]
    ensures "System.Linq.dll" in ReferencedAssemblies(isWindows) <==> isWindows
    ensures "System.Core.dll" in ReferencedAssemblies(isWindows) <==> !isWindows
  {
  }

  /** The platform changes the LINQ entry and nothing else. */
  lemma PlatformChangesOnlyLinq()
    ensures forall i :: 0 <= i < 6 && i != 2 ==>
      ReferencedAssemblies(true)[i] == ReferencedAssemblies(false)[i]
    ensures ReferencedAssemblies(true)[2] != ReferencedAssemblies(false)[2]
  {
  }

  /** `CompilerParameters`: the assembly list grows in place, the options
      are assigned. */
  class CompilerParameters {
    var referencedAssemblies: seq<string>
    var compilerOptions: string
    var generateInMemory: bool

    constructor ()
      ensures referencedAssemblies == [] && compilerOptions == "" && !generateInMemory
    {
      referencedAssemblies := [];
      compilerOptions := "";
      generateInMemory := false;
    }

    method AddReference(assembly: string)
      modifies this
      ensures referencedAssemblies == old(referencedAssemblies) + [assembly]
      ensures compilerOptions == old(compilerOptions) && generateInMemory == old(generateInMemory)
    {
      referencedAssemblies := referencedAssemblies + [assembly];
    }

    /** The parameters as the compiler reads them. */
    function Snapshot(): CompilerSettings
      reads this
    {
      CompilerSettings(referencedAssemblies, compilerOptions, generateInMemory)
    }
  }

  /** Fills fresh compiler parameters the way `Evaluate` does and returns
      what the compiler will be handed. */
  method ConfigureCompiler(isWindows: bool) returns (settings: CompilerSettings)
    ensures settings == Settings(isWindows)
  {
    var cp := new CompilerParameters();
    cp.AddReference("System.dll");
    cp.AddReference("mscorlib.dll");
    if isWindows {
      cp.AddReference("System.Linq.dll");
    } else {
      cp.AddReference("System.Core.dll");
    }
    cp.AddReference("QuantConnect.Common.dll");
    cp.AddReference("QuantConnect.Algorithm.dll");
    cp.AddReference("QuantConnect.Indicators.dll");
    cp.compilerOptions := "/t:library";
    cp.generateInMemory := true;
    settings := cp.Snapshot();
  }
}
