/** `RiskScorer.analyze_clause` of risk_engine/scorer.py (lines 42-82): the
    model's assessment moved by the rules of risk_engine/rules.py, or, when
    the model call or its parsing raises, a fixed placeholder returned at
    once, without the rules. The model's answer is the input `outcome`. */
module RootScorer {
  import opened Text
  import opened RiskModel
  import RuleEngine
  import RootRules

  const Marker: string := " Target keywords detected: "
  const Separator: string := "; "

  /** The assessment returned when the model call raises `error`. */
  function Placeholder(clauseId: string, error: string): RiskClause
  {
    RiskClause(clauseId, "Unknown", "Unknown", 5, "Analysis failed: " + error, "Manual review required.")
  }

  /** What `analyze_clause(clause_id, clause_text)` returns. */
  function ClauseResult(clauseId: string, clauseText: string, outcome: Outcome<RiskClause>): RiskClause
  {
    if outcome.Failure? then Placeholder(clauseId, outcome.error)
    else
      var low := Lower(clauseText);
      Adjusted(outcome.value, RuleEngine.TotalModifier(RootRules.Rules, low),
               RuleEngine.FiredLabels(RootRules.Rules, low), Marker, Separator)
  }

  /** `analyze_clause` */
  method AnalyzeClause(clauseId: string, clauseText: string, outcome: Outcome<RiskClause>) returns (result: RiskClause)
    ensures result == ClauseResult(clauseId, clauseText, outcome)
  {
    if outcome.Failure? {
      return Placeholder(clauseId, outcome.error);
    }
    var llmResult := outcome.value;
    var ruleScoreModifier, ruleReasons := RootRules.Evaluate(clauseText);
    var finalScore := llmResult.riskScore + ruleScoreModifier;
    finalScore := Clamp(finalScore);
    var finalRiskLevel := if finalScore >= 8 then "High" else if finalScore >= 5 then "Medium" else "Low";
    llmResult := llmResult.(riskScore := finalScore);
    llmResult := llmResult.(riskLevel := finalRiskLevel);
    if ruleReasons != [] {
      llmResult := llmResult.(reason := llmResult.reason + Marker + Join(Separator, ruleReasons));
    }
    result := llmResult;
  }

  /** A failed call is answered by the placeholder whatever the text says:
      the rules are not consulted, and its level "Unknown" matches no
      score. */
  lemma FailureIgnoresRules(clauseId: string, clauseText: string, other: string, error: string)
    ensures ClauseResult(clauseId, clauseText, Failure(error)) == ClauseResult(clauseId, other, Failure(error))
    ensures ClauseResult(clauseId, clauseText, Failure(error)).clauseId == clauseId
    ensures !Consistent(ClauseResult(clauseId, clauseText, Failure(error)))
  {
    assert "Unknown"[0] != "Medium"[0];
  }

  /** A successful call gives a consistent record with the model's id, type
      and advice, its score the model's moved by the modifier of the rules
      that fire, which lies between -2 and +14, and clamped; the reason grows
      exactly when some rule fires. */
  lemma SuccessSpec(clauseText: string, rc: RiskClause)
    ensures var r := ClauseResult(rc.clauseId, clauseText, Success(rc));
      Consistent(r) &&
      r.clauseId == rc.clauseId && r.clauseType == rc.clauseType && r.recommendation == rc.recommendation &&
      r.riskScore == Clamp(rc.riskScore + RuleEngine.TotalModifier(RootRules.Rules, Lower(clauseText))) &&
      Clamp(rc.riskScore - 2) <= r.riskScore <= Clamp(rc.riskScore + 14) &&
      StartsWith(r.reason, rc.reason) &&
      (r.reason == rc.reason <==> RuleEngine.FiredLabels(RootRules.Rules, Lower(clauseText)) == [])
  {
    var low := Lower(clauseText);
    var labels := RuleEngine.FiredLabels(RootRules.Rules, low);
    RootRules.Bounds(clauseText);
    AdjustedSpec(rc, RuleEngine.TotalModifier(RootRules.Rules, low), labels, Marker, Separator);
    assert |Marker| > 0;
  }

  /** A text that fires no rule leaves a consistent assessment as the model
      gave it. */
  lemma QuietText(rc: RiskClause)
    requires Consistent(rc)
    ensures ClauseResult(rc.clauseId, "", Success(rc)) == rc
  {
    RootRules.EmptyText();
    AdjustedIdle(rc, Marker, Separator);
  }
}
