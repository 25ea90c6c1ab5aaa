/**
 * The backend's keyword classifier: it estimates a policy's circuit size,
 * entropy requirement, circuit type and recommended engine from the words in it.
 */
module Policy {
  import opened Text
  import opened Engines

  datatype Analysis = Analysis(
    constraints: nat,
    entropyRequired: nat,  // bits
    circuitType: string,
    recommendedEngine: string)

  const Comparison := Analysis(150, 128, "comparison", "groth16")
  const Encryption := Analysis(500, 256, "encryption", "plonk")
  const AuditTrail := Analysis(1000, 256, "audit_trail", "stark")
  const General := Analysis(300, 192, "general", "plonk")

  predicate AgeVerification(lowered: string)
  {
    Contains(lowered, "age") && Contains(lowered, "verify")
  }

  predicate Confidentiality(lowered: string)
  {
    Contains(lowered, "confidential") || Contains(lowered, "private")
  }

  predicate AuditCompliance(lowered: string)
  {
    Contains(lowered, "audit") || Contains(lowered, "compliance")
  }

  /**
   * The classifier: the first keyword test that the lower-cased text passes
   * decides the analysis, in the order age-and-verify, confidential-or-private,
   * audit-or-compliance; anything else is a general circuit.
   */
  function AnalyzePolicyComplexity(policyText: string): (r: Analysis)
    ensures r.recommendedEngine in ZkpEngines
    ensures r.constraints >= 100 && r.entropyRequired % 8 == 0
    ensures r in {Comparison, Encryption, AuditTrail, General}
  {
    var t := Lower(policyText);
    if AgeVerification(t) then Comparison
    else if Confidentiality(t) then Encryption
    else if AuditCompliance(t) then AuditTrail
    else General
  }

  /**
   * The keyword tests are tried in priority order: each circuit type is chosen
   * exactly when its test passes and no earlier one does.
   */
  lemma AnalyzeKeywordPriority(policyText: string)
    ensures var r := AnalyzePolicyComplexity(policyText);
      var t := Lower(policyText);
      && (r.circuitType == "comparison" <==> AgeVerification(t))
      && (r.circuitType == "encryption" <==> !AgeVerification(t) && Confidentiality(t))
      && (r.circuitType == "audit_trail" <==> !AgeVerification(t) && !Confidentiality(t) && AuditCompliance(t))
      && (r.circuitType == "general" <==> !AgeVerification(t) && !Confidentiality(t) && !AuditCompliance(t))
  {
  }

  /** The classifier ignores letter case: a lower-cased policy is classified like the original. */
  lemma AnalyzeIgnoresCase(policyText: string)
    ensures AnalyzePolicyComplexity(Lower(policyText)) == AnalyzePolicyComplexity(policyText)
  {
    LowerIdempotent(policyText);
  }

  /** A keyword rule of a first-match decision table, independent of the if-chain above. */
  datatype Match = AllOf | AnyOf
  datatype Rule = Rule(mode: Match, keywords: seq<string>, result: Analysis)

  predicate Fires(rule: Rule, lowered: string)
  {
    match rule.mode
    case AllOf => forall k :: k in rule.keywords ==> Contains(lowered, k)
    case AnyOf => exists k :: k in rule.keywords && Contains(lowered, k)
  }

  function FirstMatch(rules: seq<Rule>, lowered: string, fallback: Analysis): Analysis
  {
    if rules == [] then fallback
    else if Fires(rules[0], lowered) then rules[0].result
    else FirstMatch(rules[1..], lowered, fallback)
  }

  const ClassifierRules: seq<Rule> := [
    Rule(AllOf, ["age", "verify"], Comparison),
    Rule(AnyOf, ["confidential", "private"], Encryption),
    Rule(AnyOf, ["audit", "compliance"], AuditTrail)
  ]

  /** The classifier is the first-match reading of the rule table, falling back to a general circuit. */
  lemma AnalyzeIsFirstMatch(policyText: string)
    ensures AnalyzePolicyComplexity(policyText) == FirstMatch(ClassifierRules, Lower(policyText), General)
  {
    var t := Lower(policyText);
    var rules := ClassifierRules;
    assert Fires(rules[0], t) <==> AgeVerification(t) by {
      assert rules[0].keywords == ["age", "verify"];
    }
    assert Fires(rules[1], t) <==> Confidentiality(t) by {
      assert rules[1].keywords == ["confidential", "private"];
      if Confidentiality(t) {
        if Contains(t, "confidential") {
          assert "confidential" in rules[1].keywords;
        } else {
          assert "private" in rules[1].keywords;
        }
      }
    }
    assert Fires(rules[2], t) <==> AuditCompliance(t) by {
      assert rules[2].keywords == ["audit", "compliance"];
      if AuditCompliance(t) {
        if Contains(t, "audit") {
          assert "audit" in rules[2].keywords;
        } else {
          assert "compliance" in rules[2].keywords;
        }
      }
    }
    var rest1 := rules[1..];
    var rest2 := rest1[1..];
    assert rest1[0] == rules[1] && rest2[0] == rules[2] && rest2[1..] == [];
    assert FirstMatch(rest2, t, General) == if Fires(rules[2], t) then AuditTrail else General;
    assert FirstMatch(rest1, t, General)
      == if Fires(rules[1], t) then Encryption else FirstMatch(rest2, t, General);
    assert FirstMatch(rules, t, General)
      == if Fires(rules[0], t) then Comparison else FirstMatch(rest1, t, General);
  }

}
