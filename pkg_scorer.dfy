/** `RiskScorer.analyze_clause` of
    src/ai_legal_analyzer/risk_engine/risk_scorer.py (lines 40-61): the
    model's assessment moved by the rules of risk_rules.py beside it, or,
    when the model call or its parsing raises, a lower-case placeholder
    returned at once, without the rules. The model's answer is the input
    `outcome`. */
module PkgScorer {
  import opened Text
  import opened RiskModel
  import RuleEngine
  import PkgRules

  const Marker: string := " rules: "
  const Separator: string := ", "

  /** The assessment returned when the model call raises `error`. */
  function Placeholder(clauseId: string, error: string): RiskClause
  {
    RiskClause(clauseId, "unknown", "unknown", 5, "error: " + error, "check manually")
  }

  /** What `analyze_clause(clause_id, clause_text)` returns. */
  function ClauseResult(clauseId: string, clauseText: string, outcome: Outcome<RiskClause>): RiskClause
  {
    if outcome.Failure? then Placeholder(clauseId, outcome.error)
    else
      var low := Lower(clauseText);
      Adjusted(outcome.value, RuleEngine.TotalModifier(PkgRules.Rules, low),
               RuleEngine.FiredLabels(PkgRules.Rules, low), Marker, Separator)
  }

  /** `analyze_clause` */
  method AnalyzeClause(clauseId: string, clauseText: string, outcome: Outcome<RiskClause>) returns (result: RiskClause)
    ensures result == ClauseResult(clauseId, clauseText, outcome)
  {
    if outcome.Failure? {
      return Placeholder(clauseId, outcome.error);
    }
    var res := outcome.value;
    var mod, reasons := PkgRules.Evaluate(clauseText);
    res := res.(riskScore := Clamp(res.riskScore + mod));
    res := res.(riskLevel := if res.riskScore >= 8 then "High" else if res.riskScore >= 5 then "Medium" else "Low");
    if reasons != [] {
      res := res.(reason := res.reason + Marker + Join(Separator, reasons));
    }
    result := res;
  }

  /** A failed call is answered by the placeholder whatever the text says:
      the rules are not consulted, and its level "unknown" matches no
      score. */
  lemma FailureIgnoresRules(clauseId: string, clauseText: string, other: string, error: string)
    ensures ClauseResult(clauseId, clauseText, Failure(error)) == ClauseResult(clauseId, other, Failure(error))
    ensures ClauseResult(clauseId, clauseText, Failure(error)).clauseId == clauseId
    ensures !Consistent(ClauseResult(clauseId, clauseText, Failure(error)))
  {
    assert "unknown"[0] != "Medium"[0];
  }

  /** A successful call gives a consistent record with the model's id, type
      and advice, its score the model's moved by the modifier of the rules
      that fire, which lies between -2 and +13, and clamped; the reason grows
      exactly when some rule fires. */
  lemma SuccessSpec(clauseText: string, rc: RiskClause)
    ensures var r := ClauseResult(rc.clauseId, clauseText, Success(rc));
      Consistent(r) &&
      r.clauseId == rc.clauseId && r.clauseType == rc.clauseType && r.recommendation == rc.recommendation &&
      r.riskScore == Clamp(rc.riskScore + RuleEngine.TotalModifier(PkgRules.Rules, Lower(clauseText))) &&
      Clamp(rc.riskScore - 2) <= r.riskScore <= Clamp(rc.riskScore + 13) &&
      StartsWith(r.reason, rc.reason) &&
      (r.reason == rc.reason <==> RuleEngine.FiredLabels(PkgRules.Rules, Lower(clauseText)) == [])
  {
    var low := Lower(clauseText);
    var labels := RuleEngine.FiredLabels(PkgRules.Rules, low);
    PkgRules.Bounds(clauseText);
    AdjustedSpec(rc, RuleEngine.TotalModifier(PkgRules.Rules, low), labels, Marker, Separator);
    assert |Marker| > 0;
  }

  /** A text that fires no rule leaves a consistent assessment as the model
      gave it. */
  lemma QuietText(rc: RiskClause)
    requires Consistent(rc)
    ensures ClauseResult(rc.clauseId, "", Success(rc)) == rc
  {
    PkgRules.EmptyText();
    AdjustedIdle(rc, Marker, Separator);
  }
}
