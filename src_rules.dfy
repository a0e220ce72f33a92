/** The rule table of src/risk_engine/risk_rules.py (lines 9-17) and its
    `evaluate` (lines 19-28). */
module SrcRules {
  import opened Text
  import opened RuleEngine

  const Rules: seq<Rule> := [
    Rule(["indemnify", "unlimited"], 7, "unlimited indemnity"),
    Rule(["liability", "cap"], -2, "liability cap present"),
    Rule(["termination", "convenience"], 3, "termination for convenience"),
    Rule(["auto-renew"], 2, "auto-renewal clause"),
    Rule(["confidential", "survival"], 1, "confidentiality survival"),
    Rule(["no warranty", "as is"], 2, "warranty disclaimer"),
    Rule(["governing law"], -1, "governing law defined")
  ]

  /** `RiskRuleEngine().evaluate(text)` */
  method Evaluate(text: string) returns (score: int, triggered: seq<string>)
    ensures score == TotalModifier(Rules, Lower(text))
    ensures triggered == FiredLabels(Rules, Lower(text))
  {
    score, triggered := RuleEngine.Evaluate(Rules, text);
  }

  /** The table's extremes: its negative modifiers sum to -3, its positive
      ones to 15. */
  lemma TableSums()
    ensures |Rules| == 7 && Losses(Modifiers(Rules)) == -3 && Gains(Modifiers(Rules)) == 15
  {
    var mods := [7, -2, 3, 2, 1, 2, -1];
    assert Rules[0].modifier == 7 && Rules[1].modifier == -2 && Rules[2].modifier == 3;
    assert Rules[3].modifier == 2 && Rules[4].modifier == 1 && Rules[5].modifier == 2;
    assert Rules[6].modifier == -1;
    assert Modifiers(Rules) == mods;
    assert mods[1..][1..][1..][1..][1..][1..][1..] == [];
  }

  /** The seven labels are distinct: their initials are. */
  lemma TableLabels()
    ensures Distinct(Labels(Rules))
  {
    assert Rules[0].tag[0] == 'u' && Rules[1].tag[0] == 'l' && Rules[2].tag[0] == 't';
    assert Rules[3].tag[0] == 'a' && Rules[4].tag[0] == 'c' && Rules[5].tag[0] == 'w';
    assert Rules[6].tag[0] == 'g';
    DistinctByInitials(Labels(Rules), "ultacwg");
  }

  /** Whatever the text, the modifier lies in [-3, 15] and the labels are
      at most seven, none repeated. */
  lemma Bounds(text: string)
    ensures -3 <= TotalModifier(Rules, Lower(text)) <= 15
    ensures |FiredLabels(Rules, Lower(text))| <= 7 && Distinct(FiredLabels(Rules, Lower(text)))
  {
    TableSums();
    TableLabels();
    ModifierBounds(Rules, Lower(text));
    FiredLabelsDistinct(Rules, Lower(text));
  }

  /** The empty text fires no rule: `evaluate("") == (0, [])`. */
  lemma EmptyText()
    ensures TotalModifier(Rules, Lower("")) == 0 && FiredLabels(Rules, Lower("")) == []
  {
    assert Lower("") == "";
    NothingFiresOnEmpty(Rules);
  }

  /** A text with "indemnify" and "unlimited" and no other rule's full
      keyword set gives (7, ["unlimited indemnity"]). */
  lemma UnlimitedIndemnity(text: string)
    requires Contains(Lower(text), "indemnify") && Contains(Lower(text), "unlimited")
    requires forall i :: 1 <= i < |Rules| ==> !Fires(Rules[i], Lower(text))
    ensures TotalModifier(Rules, Lower(text)) == 7
    ensures FiredLabels(Rules, Lower(text)) == ["unlimited indemnity"]
  {
    OnlyRuleFires(Rules, Lower(text), 0);
  }

  /** A text without "cap" never fires the liability cap rule. */
  lemma CapNeedsCap(text: string)
    requires !Contains(Lower(text), "cap")
    ensures !Fires(Rules[1], Lower(text))
  {
    MissingKeyword(Rules[1], Lower(text), 1);
  }

  /** Keywords match as substrings, not words: "capital" supplies "cap". */
  lemma CapInsideCapital(text: string)
    requires Contains(Lower(text), "liability") && Contains(Lower(text), "capital")
    ensures Fires(Rules[1], Lower(text))
  {
    assert "capital" == "cap" + "ital";
    ContainsPrefix(Lower(text), "cap", "ital");
  }
}
