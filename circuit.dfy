/**
 * The mock circuit the backend generates for a policy. Its header and footer
 * carry a few values taken from the policy and its analysis, and between them
 * come one constraint line per hundred constraints, at most five, numbered
 * from zero.
 */
module Circuit {
  import opened Text
  import opened Policy

  /**
   * The generated circuit, kept as the parts that vary with the policy. The
   * fixed comment and signal-declaration text around them is not modelled;
   * each constraint line is kept as its full text.
   */
  datatype CircuitCode = CircuitCode(
    policyPreview: string,        // the "Policy:" header comment, before its "..."
    circuitType: string,          // the "Type:" header comment
    constraints: nat,             // the "Constraints:" header comment
    constraintLines: seq<string>,
    entropyBits: nat,             // the "Entropy Budget:" footer comment
    recommendedEngine: string)    // the "Recommended Engine:" footer comment

  /** `policy_text[:50]`: at most the first fifty characters. */
  function PolicyPreview(policyText: string): (r: string)
    ensures |r| == if |policyText| < 50 then |policyText| else 50
    ensures r <= policyText
  {
    if |policyText| <= 50 then policyText else policyText[..50]
  }

  /** `min(5, constraints // 100)`: one line per hundred constraints, capped at five. */
  function ConstraintLineCount(constraints: nat): (k: nat)
    ensures k <= 5 && k * 100 <= constraints
    ensures k == 5 || constraints < (k + 1) * 100
  {
    if constraints / 100 < 5 then constraints / 100 else 5
  }

  const LinePrefix := "\n    constraint_"
  const LineMiddle := " <== witness_data * entropy_source + "

  /** The text of constraint line number `i`, with the line break before it. */
  function ConstraintLine(i: nat): (line: string)
    ensures |LinePrefix| < |line| && line[..|LinePrefix|] == LinePrefix
    ensures line[|line| - 1] == ';'
  {
    LinePrefix + Digits(i) + LineMiddle + Digits(i) + ";"
  }

  /** The text of constraint line `i` carries the number `i`, right after the line prefix. */
  lemma ConstraintLineNumber(i: nat)
    ensures var line := ConstraintLine(i);
      var n := |Digits(i)|;
      && |LinePrefix| + n <= |line|
      && line[..|LinePrefix|] == LinePrefix
      && ParseDecimal(line[|LinePrefix|..|LinePrefix| + n]) == i
  {
    var d := Digits(i);
    var rest := d + LineMiddle + d + ";";
    assert ConstraintLine(i) == LinePrefix + rest;
    assert (LinePrefix + rest)[|LinePrefix|..|LinePrefix| + |d|] == rest[..|d|];
    assert rest[..|d|] == d;
    DigitsRoundTrip(i);
  }

  /** Lines `0 .. k-1` of `lines` are the constraint lines with those numbers, in order. */
  predicate NumberedLines(lines: seq<string>, k: nat)
  {
    |lines| == k && forall i :: 0 <= i < k ==> lines[i] == ConstraintLine(i)
  }

  /** `code` is the circuit generated for `policyText` with the given analysis. */
  predicate GeneratedFor(code: CircuitCode, policyText: string, analysis: Analysis)
  {
    && code.policyPreview == PolicyPreview(policyText)
    && code.circuitType == analysis.circuitType
    && code.constraints == analysis.constraints
    && NumberedLines(code.constraintLines, ConstraintLineCount(analysis.constraints))
    && code.entropyBits == analysis.entropyRequired
    && code.recommendedEngine == analysis.recommendedEngine
  }

  /** Only one circuit is generated for a policy and an analysis. */
  lemma GeneratedForUnique(c1: CircuitCode, c2: CircuitCode, policyText: string, analysis: Analysis)
    requires GeneratedFor(c1, policyText, analysis) && GeneratedFor(c2, policyText, analysis)
    ensures c1 == c2
  {
  }

  /**
   * The generator: the header values, then one constraint line appended per
   * loop iteration, then the footer values.
   */
  method CompilePolicyToCircuit(policyText: string, analysis: Analysis) returns (circuit: CircuitCode)
    ensures GeneratedFor(circuit, policyText, analysis)
    ensures |circuit.constraintLines| == ConstraintLineCount(analysis.constraints)
    ensures forall i :: 0 <= i < |circuit.constraintLines| ==> circuit.constraintLines[i] == ConstraintLine(i)
  {
    var lines: seq<string> := [];
    var n := ConstraintLineCount(analysis.constraints);
    for i := 0 to n
      invariant |lines| == i
      invariant forall j :: 0 <= j < i ==> lines[j] == ConstraintLine(j)
    {
      lines := lines + [ConstraintLine(i)];
    }
    circuit := CircuitCode(
      PolicyPreview(policyText), analysis.circuitType, analysis.constraints,
      lines, analysis.entropyRequired, analysis.recommendedEngine);
  }
}
