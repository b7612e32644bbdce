/** The snippet synthesizer of the inspector command: the fixed `using`
    directives and the compilation unit that wraps an operator's query
    (Common/Commands/InspectorCommand.cs, lines 110-122 and 141-177). */
module Synthesis {

  datatype Option<T> = None | Some(value: T)

  // ---------------------------------------------------------------------
  // The using directives
  // ---------------------------------------------------------------------

  /** The namespaces the synthesized unit imports, in the order of the
      `UsingStatements` property. */
  function Namespaces(): seq<string>
  {
    [ "System",
      "System.Collections",
      "System.Collections.Generic",
      "System.Linq",
      "System.Globalization",
      "QuantConnect",
      "QuantConnect.Parameters",
      "QuantConnect.Benchmarks",
      "QuantConnect.Brokerages",
      "QuantConnect.Util",
      "QuantConnect.Interfaces",
      "QuantConnect.Algorithm",
      "QuantConnect.Indicators",
      "QuantConnect.Data",
      "QuantConnect.Data.Consolidators",
      "QuantConnect.Data.Custom",
      "QuantConnect.Data.Fundamental",
      "QuantConnect.Data.Market",
      "QuantConnect.Data.UniverseSelection",
      "QuantConnect.Notifications",
      "QuantConnect.Orders",
      "QuantConnect.Orders.Fees",
      "QuantConnect.Orders.Fills",
      "QuantConnect.Orders.Slippage",
      "QuantConnect.Scheduling",
      "QuantConnect.Securities",
      "QuantConnect.Securities.Equity",
      "QuantConnect.Securities.Forex",
      "QuantConnect.Securities.Interfaces" ]
  }

  /** The directive that imports namespace `ns`. */
  function Directive(ns: string): string
  {
    "using " + ns + ";"
  }

  /** The `UsingStatements` array: one directive per namespace, same order. */
  function UsingStatements(): seq<string>
  {
    seq(|Namespaces()|, i requires 0 <= i < |Namespaces()| => Directive(Namespaces()[i]))
  }

  /** A `using` directive: `using `, a non-empty name, `;`. */
  predicate IsUsingDirective(s: string)
  {
    |s| > 7 && s[..6] == "using " && s[|s| - 1] == ';'
  }

  /** No two entries of `ss` are equal. */
  predicate Distinct(ss: seq<string>)
  {
    forall i, j :: 0 <= i < j < |ss| ==> ss[i] != ss[j]
  }

  /** A directive can be read back: it determines the namespace it imports. */
  lemma DirectiveInjective(a: string, b: string)
    ensures Directive(a) == Directive(b) <==> a == b
  {
    if Directive(a) == Directive(b) {
      assert a == Directive(a)[6..|Directive(a)| - 1];
    }
  }

  /** Enough of a namespace to tell the 29 apart: its length and the
      characters at positions 14 and 18. It has no meaning in the command;
      it exists only to make `NamespacesDistinct` cheap to prove, since
      comparing the 29 names character by character is costly for the
      verifier. */
  function Fingerprint(s: string): (int, char, char)
  {
    (|s|, if |s| > 14 then s[14] else ' ', if |s| > 18 then s[18] else ' ')
  }

  lemma FingerprintsDistinct()
    ensures forall i, j :: 0 <= i < j < |Namespaces()| ==>
      Fingerprint(Namespaces()[i]) != Fingerprint(Namespaces()[j])
  {
  }

  lemma NamespacesDistinct()
    ensures Distinct(Namespaces())
  {
    FingerprintsDistinct();
  }

  /** `UsingStatements` holds 29 distinct directives, each `using <name>;`. */
  lemma UsingStatementsShape()
    ensures |UsingStatements()| == 29
    ensures forall i :: 0 <= i < |UsingStatements()| ==> IsUsingDirective(UsingStatements()[i])
    ensures Distinct(UsingStatements())
  {
    var u, ns := UsingStatements(), Namespaces();
    assert forall i :: 0 <= i < |ns| ==> ns[i] != "";
    forall i | 0 <= i < |u|
      ensures IsUsingDirective(u[i])
    {
      assert u[i] == "using " + ns[i] + ";";
      assert u[i][..6] == "using ";
    }
    NamespacesDistinct();
    forall i, j | 0 <= i < j < |u|
      ensures u[i] != u[j]
    {
      DirectiveInjective(ns[i], ns[j]);
    }
  }

  // ---------------------------------------------------------------------
  // The synthesized unit
  // ---------------------------------------------------------------------

  /** The strings of `ss` appended one after another, left to right, as a
      string builder accumulates them. */
  function Concat(ss: seq<string>): string
  {
    if ss == [] then "" else Concat(ss[..|ss| - 1]) + ss[|ss| - 1]
  }

  /** Appending the first `i` strings gives a prefix of appending them all. */
  lemma {:induction false} ConcatPrefix(ss: seq<string>, i: nat)
    requires i <= |ss|
    ensures Concat(ss[..i]) <= Concat(ss)
    decreases |ss|
  {
    if i == |ss| {
      assert ss[..i] == ss;
    } else {
      var init := ss[..|ss| - 1];
      ConcatPrefix(init, i);
      assert init[..i] == ss[..i];
    }
  }

  /** Entry `i` sits in the concatenation, and in any text that starts
      with it, right after the entries before it. */
  lemma EntryInConcat(ss: seq<string>, rest: string, i: nat)
    requires i < |ss|
    ensures |Concat(ss[..i])| + |ss[i]| == |Concat(ss[..i + 1])| <= |Concat(ss)|
    ensures (Concat(ss) + rest)[|Concat(ss[..i])|..|Concat(ss[..i + 1])|] == ss[i]
  {
    ConcatPrefix(ss, i + 1);
    assert ss[..i + 1][..i] == ss[..i];
    assert Concat(ss[..i + 1]) == Concat(ss[..i]) + ss[i];
  }

  /** The generated unit for query `code`, in the pieces the source appends. */
  function Source(code: string): string
  {
    Concat(UsingStatements())
    + "namespace QuantConnect { \n"
    + "public class Inspector { \n"
    + "public object EvaluateCode(IAlgorithm algorithm) {\n"
    + ("return " + code + "; \n")
    + "} \n"
    + "} \n"
    + "}\n"
  }

  /** Everything in front of the query: the directives, the namespace, class
      and method headers, and `return `. */
  function Prefix(): string
  {
    Concat(UsingStatements()) + Headers()
  }

  /** The namespace, class and method headers, and `return `. */
  function Headers(): string
  {
    "namespace QuantConnect { \n"
    + "public class Inspector { \n"
    + "public object EvaluateCode(IAlgorithm algorithm) {\n"
    + "return "
  }

  /** Everything behind the query: the statement's `;` and three closing braces. */
  function Suffix(): string
  {
    "; \n} \n} \n}\n"
  }

  /** The query sits between a prefix and a suffix that do not depend on it. */
  lemma SourceFrame(code: string)
    ensures Source(code) == Prefix() + code + Suffix()
  {
  }

  /** Reads the query back out of a synthesized unit; `None` for text that
      does not have the synthesized prefix and suffix. */
  function ExtractQuery(src: string): Option<string>
  {
    var p, s := |Prefix()|, |Suffix()|;
    if p + s <= |src| && src[..p] == Prefix() && src[|src| - s..] == Suffix()
    then Some(src[p..|src| - s])
    else None
  }

  /** Round trip: the query comes back out of its own unit unchanged. */
  lemma ExtractSource(code: string)
    ensures ExtractQuery(Source(code)) == Some(code)
  {
    SourceFrame(code);
    var src, p := Source(code), |Prefix()|;
    assert src[..p] == Prefix();
    assert src[|src| - |Suffix()|..] == Suffix();
    assert src[p..|src| - |Suffix()|] == code;
  }

  /** Round trip the other way: whatever text `ExtractQuery` accepts is the
      unit synthesized for the query it returns. */
  lemma SourceOfExtracted(src: string)
    requires ExtractQuery(src).Some?
    ensures Source(ExtractQuery(src).value) == src
  {
    var p, s := |Prefix()|, |Suffix()|;
    var code := ExtractQuery(src).value;
    SourceFrame(code);
    assert src == src[..p] + src[p..|src| - s] + src[|src| - s..];
  }

  /** The query appears verbatim, right after the prefix and right before
      the suffix, so two units are equal exactly when their queries are. */
  lemma QueryVerbatim(code: string, other: string)
    ensures Source(code)[..|Prefix()|] == Prefix()
    ensures Source(code)[|Prefix()|..|Prefix()| + |code|] == code
    ensures Source(code)[|Prefix()| + |code|..] == Suffix()
    ensures Source(code) == Source(other) <==> code == other
  {
    SourceFrame(code);
    ExtractSource(code);
    ExtractSource(other);
  }

  /** Where directive `i` starts in the unit: after the directives before it. */
  function DirectiveOffset(i: nat): nat
    requires i <= |UsingStatements()|
  {
    |Concat(UsingStatements()[..i])|
  }

  /** Every directive appears in the unit, in the order of the list, each
      one wholly ahead of the next and all of them ahead of the namespace
      declaration. */
  lemma DirectivesInSource(code: string, i: nat)
    requires i < |UsingStatements()|
    ensures DirectiveOffset(i) + |UsingStatements()[i]| == DirectiveOffset(i + 1)
    ensures DirectiveOffset(i + 1) <= |Concat(UsingStatements())| < |Prefix()|
    ensures Source(code)[DirectiveOffset(i)..DirectiveOffset(i + 1)] == UsingStatements()[i]
  {
    var u := UsingStatements();
    SourceFrame(code);
    assert Source(code) == Concat(u) + (Headers() + code + Suffix());
    EntryInConcat(u, Headers() + code + Suffix(), i);
  }

  // ---------------------------------------------------------------------
  // Building the unit step by step
  // ---------------------------------------------------------------------

  /** A growable string, appended to in place. */
  class StringBuilder {
    var content: string

    constructor (initial: string)
      ensures content == initial
    {
      content := initial;
    }

    method Append(s: string)
      modifies this
      ensures content == old(content) + s
    {
      content := content + s;
    }

    function ToString(): string
      reads this
    {
      content
    }
  }

  /** Builds the unit for `code` the way `Evaluate` does: every directive in
      turn, then the headers, the return statement and the closing braces. */
  method SynthesizeSource(code: string) returns (src: string)
    ensures src == Source(code)
    ensures src == Prefix() + code + Suffix()
  {
    var sb := new StringBuilder("");
    var statements := UsingStatements();
    for i := 0 to |statements|
      invariant sb.content == Concat(statements[..i])
    {
      assert statements[..i + 1][..i] == statements[..i];
      sb.Append(statements[i]);
    }
    assert statements[..|statements|] == statements;
    sb.Append("namespace QuantConnect { \n");
    sb.Append("public class Inspector { \n");
    sb.Append("public object EvaluateCode(IAlgorithm algorithm) {\n");
    sb.Append("return " + code + "; \n");
    sb.Append("} \n");
    sb.Append("} \n");
    sb.Append("}\n");
    src := sb.ToString();
    SourceFrame(code);
  }
}
