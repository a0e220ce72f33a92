/** The rule table of src/ai_legal_analyzer/risk_engine/risk_rules.py
    (lines 8-14) and its `evaluate` (lines 16-25): five rules, without the
    warranty and governing-law rules of src/risk_engine/risk_rules.py, and
    with shorter labels. */
module PkgRules {
  import opened Text
  import opened RuleEngine
  import SrcRules

  const Rules: seq<Rule> := [
    Rule(["indemnify", "unlimited"], 7, "unlimited indemnity"),
    Rule(["liability", "cap"], -2, "liability cap"),
    Rule(["termination", "convenience"], 3, "termination for convenience"),
    Rule(["auto-renew"], 2, "auto-renewal"),
    Rule(["confidential", "survival"], 1, "survival clause")
  ]

  /** `RiskRuleEngine().evaluate(text)` */
  method Evaluate(text: string) returns (score: int, found: seq<string>)
    ensures score == TotalModifier(Rules, Lower(text))
    ensures found == FiredLabels(Rules, Lower(text))
  {
    score, found := RuleEngine.Evaluate(Rules, text);
  }

  /** The negative modifiers sum to -2, the positive ones to 13. */
  lemma TableSums()
    ensures |Rules| == 5 && Losses(Modifiers(Rules)) == -2 && Gains(Modifiers(Rules)) == 13
  {
    var mods := [7, -2, 3, 2, 1];
    assert Rules[0].modifier == 7 && Rules[1].modifier == -2 && Rules[2].modifier == 3;
    assert Rules[3].modifier == 2 && Rules[4].modifier == 1;
    assert Modifiers(Rules) == mods;
    assert mods[1..][1..][1..][1..][1..] == [];
  }

  /** The five labels are distinct: their initials are. */
  lemma TableLabels()
    ensures Distinct(Labels(Rules))
  {
    assert Rules[0].tag[0] == 'u' && Rules[1].tag[0] == 'l' && Rules[2].tag[0] == 't';
    assert Rules[3].tag[0] == 'a' && Rules[4].tag[0] == 's';
    DistinctByInitials(Labels(Rules), "ultas");
  }

  /** Whatever the text, the modifier lies in [-2, 13] and the labels are
      at most five, none repeated. */
  lemma Bounds(text: string)
    ensures -2 <= TotalModifier(Rules, Lower(text)) <= 13
    ensures |FiredLabels(Rules, Lower(text))| <= 5 && Distinct(FiredLabels(Rules, Lower(text)))
  {
    TableSums();
    TableLabels();
    ModifierBounds(Rules, Lower(text));
    FiredLabelsDistinct(Rules, Lower(text));
  }

  /** The empty text fires no rule: `evaluate("") == (0, [])`. */
  lemma EmptyText()
    ensures TotalModifier(Rules, Lower("")) == 0 && FiredLabels(Rules, Lower("")) == []
  {
    assert Lower("") == "";
    NothingFiresOnEmpty(Rules);
  }

  /** Rules 1, 3 and 4 test the same keywords as those of
      src/risk_engine/risk_rules.py, with the same modifiers, under other
      labels. */
  lemma RenamedLabels()
    ensures Rules[1].tag == "liability cap" && Rules[3].tag == "auto-renewal" && Rules[4].tag == "survival clause"
    ensures forall k :: k in {1, 3, 4} ==>
      Rules[k].keywords == SrcRules.Rules[k].keywords && Rules[k].modifier == SrcRules.Rules[k].modifier &&
      Rules[k].tag != SrcRules.Rules[k].tag
  {
  }
}
