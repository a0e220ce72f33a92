/** The rule table of risk_engine/rules.py (lines 10-41) and its
    `evaluate` (lines 43-65): six rules with longer keyword sets, whose
    labels are full sentences ("reasons"). */
module RootRules {
  import opened Text
  import opened RuleEngine

  const Rules: seq<Rule> := [
    Rule(["indemnify", "unlimited", "loss", "claim"], 7, "Potential unlimited indemnity obligation found."),
    Rule(["liability", "aggregate", "cap", "not exceed"], -2, "Liability cap detected (Reduces risk)."),
    Rule(["termination for convenience", "terminate", "without cause"], 3, "Termination for convenience clause detected."),
    Rule(["jurisdiction", "exclusive", "governing law"], 1, "Verify governing law and jurisdiction."),
    Rule(["auto-renew", "automatic renewal"], 2, "Auto-renewal clause present."),
    Rule(["confidential information", "survival"], 1, "Confidentiality obligations survive termination.")
  ]

  /** `RiskRuleEngine().evaluate(clause_text)` */
  method Evaluate(clauseText: string) returns (score: int, reasons: seq<string>)
    ensures score == TotalModifier(Rules, Lower(clauseText))
    ensures reasons == FiredLabels(Rules, Lower(clauseText))
  {
    score, reasons := RuleEngine.Evaluate(Rules, clauseText);
  }

  /** The negative modifiers sum to -2, the positive ones to 14. */
  lemma TableSums()
    ensures |Rules| == 6 && Losses(Modifiers(Rules)) == -2 && Gains(Modifiers(Rules)) == 14
  {
    var mods := [7, -2, 3, 1, 2, 1];
    assert Rules[0].modifier == 7 && Rules[1].modifier == -2 && Rules[2].modifier == 3;
    assert Rules[3].modifier == 1 && Rules[4].modifier == 2 && Rules[5].modifier == 1;
    assert Modifiers(Rules) == mods;
    assert mods[1..][1..][1..][1..][1..][1..] == [];
  }

  /** The six reasons are distinct: all but two differ in length, and
      those two differ one character before their end. */
  lemma TableLabels()
    ensures Distinct(Labels(Rules))
  {
    assert |Rules[0].tag| == 47 && |Rules[1].tag| == 38 && |Rules[2].tag| == 44;
    assert |Rules[3].tag| == 38 && |Rules[4].tag| == 28 && |Rules[5].tag| == 48;
    assert Rules[1].tag[36] == ')' && Rules[3].tag[36] == 'n';
    var labels := Labels(Rules);
    forall a, b | 0 <= a < b < |labels| ensures labels[a] != labels[b] {
      if a == 1 && b == 3 {
        assert labels[a][36] != labels[b][36];
      } else {
        assert |labels[a]| != |labels[b]|;
      }
    }
  }

  /** Whatever the text, the modifier lies in [-2, 14] and the reasons are
      at most six, none repeated. */
  lemma Bounds(clauseText: string)
    ensures -2 <= TotalModifier(Rules, Lower(clauseText)) <= 14
    ensures |FiredLabels(Rules, Lower(clauseText))| <= 6 && Distinct(FiredLabels(Rules, Lower(clauseText)))
  {
    TableSums();
    TableLabels();
    ModifierBounds(Rules, Lower(clauseText));
    FiredLabelsDistinct(Rules, Lower(clauseText));
  }

  /** The empty text fires no rule: `evaluate("") == (0, [])`. */
  lemma EmptyText()
    ensures TotalModifier(Rules, Lower("")) == 0 && FiredLabels(Rules, Lower("")) == []
  {
    assert Lower("") == "";
    NothingFiresOnEmpty(Rules);
  }

  /** The indemnity rule (+7) needs all four of its keywords: a text
      without "claim" does not fire it. */
  lemma IndemnityNeedsClaim(clauseText: string)
    requires !Contains(Lower(clauseText), "claim")
    ensures Rules[0].modifier == 7 && !Fires(Rules[0], Lower(clauseText))
  {
    MissingKeyword(Rules[0], Lower(clauseText), 3);
  }

  /** The termination rule needs the literal phrase "termination for
      convenience" and, besides it, "terminate" (which the phrase does not
      contain) and "without cause". */
  lemma TerminationNeedsAll(clauseText: string)
    ensures Fires(Rules[2], Lower(clauseText)) <==>
      Contains(Lower(clauseText), "termination for convenience") &&
      Contains(Lower(clauseText), "terminate") && Contains(Lower(clauseText), "without cause")
  {
    var low := Lower(clauseText);
    var kws := Rules[2].keywords;
    assert kws == ["termination for convenience", "terminate", "without cause"];
    if Contains(low, kws[0]) && Contains(low, kws[1]) && Contains(low, kws[2]) {
      assert forall k :: 0 <= k < |kws| ==> Contains(low, kws[k]);
    }
  }

  /** The governing-law rule adds 1 and needs "jurisdiction", "exclusive"
      and "governing law". */
  lemma GoverningLawAddsOne(clauseText: string)
    ensures Rules[3].modifier == 1
    ensures Fires(Rules[3], Lower(clauseText)) <==>
      Contains(Lower(clauseText), "jurisdiction") && Contains(Lower(clauseText), "exclusive") &&
      Contains(Lower(clauseText), "governing law")
  {
    var low := Lower(clauseText);
    var kws := Rules[3].keywords;
    assert kws == ["jurisdiction", "exclusive", "governing law"];
    if Contains(low, kws[0]) && Contains(low, kws[1]) && Contains(low, kws[2]) {
      assert forall k :: 0 <= k < |kws| ==> Contains(low, kws[k]);
    }
  }
}
