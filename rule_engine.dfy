/** `RiskRuleEngine.evaluate`, common to src/risk_engine/risk_rules.py,
    src/ai_legal_analyzer/risk_engine/risk_rules.py and risk_engine/rules.py:
    a rule is a list of keywords, a score modifier and a label; it fires
    when every keyword is a substring of the lower-cased text; the result is
    the sum of the firing rules' modifiers and their labels in table order.
    The three tables are in the modules SrcRules, PkgRules and RootRules.
 */
module RuleEngine {
  import opened Text

  datatype Rule = Rule(keywords: seq<string>, modifier: int, tag: string)

  /** `all(kw in text_lower for kw in keywords)` */
  predicate Fires(rule: Rule, low: string)
  {
    forall k :: 0 <= k < |rule.keywords| ==> Contains(low, rule.keywords[k])
  }

  /** The score the loop accumulates over `rules`. */
  function TotalModifier(rules: seq<Rule>, low: string): int
  {
    if rules == [] then 0
    else
      var n := |rules| - 1;
      TotalModifier(rules[..n], low) + (if Fires(rules[n], low) then rules[n].modifier else 0)
  }

  /** The labels the loop appends over `rules`. */
  function FiredLabels(rules: seq<Rule>, low: string): seq<string>
  {
    if rules == [] then []
    else
      var n := |rules| - 1;
      FiredLabels(rules[..n], low) + (if Fires(rules[n], low) then [rules[n].tag] else [])
  }

  /** `evaluate(text)`: the loop over the table. */
  method Evaluate(rules: seq<Rule>, text: string) returns (score: int, triggered: seq<string>)
    ensures score == TotalModifier(rules, Lower(text))
    ensures triggered == FiredLabels(rules, Lower(text))
  {
    score := 0;
    triggered := [];
    var textLower := Lower(text);
    for i := 0 to |rules|
      invariant score == TotalModifier(rules[..i], textLower)
      invariant triggered == FiredLabels(rules[..i], textLower)
    {
      var rule := rules[i];
      assert rules[..i + 1][..i] == rules[..i];
      if Fires(rule, textLower) {
        score := score + rule.modifier;
        triggered := triggered + [rule.tag];
      }
    }
    assert rules[..|rules|] == rules;
  }

  // ---------------------------------------------------------------------
  // The loop against the table: which rules fire, in which order
  // ---------------------------------------------------------------------

  /** The positions of the firing rules, in table order. */
  function FiredIndices(rules: seq<Rule>, low: string): seq<nat>
  {
    if rules == [] then []
    else
      var n := |rules| - 1;
      FiredIndices(rules[..n], low) + (if Fires(rules[n], low) then [n] else [])
  }

  predicate Increasing(idx: seq<nat>)
  {
    forall a, b :: 0 <= a < b < |idx| ==> idx[a] < idx[b]
  }

  /** The fired positions are increasing, and a rule's position is among
      them exactly when the rule fires. */
  lemma {:induction false} FiredIndicesSpec(rules: seq<Rule>, low: string)
    ensures var idx := FiredIndices(rules, low);
      Increasing(idx) &&
      (forall k :: 0 <= k < |idx| ==> idx[k] < |rules|) &&
      (forall i :: 0 <= i < |rules| ==> (Fires(rules[i], low) <==> i in idx))
  {
    if rules != [] {
      var n := |rules| - 1;
      var init := rules[..n];
      FiredIndicesSpec(init, low);
      var prev := FiredIndices(init, low);
      var idx := FiredIndices(rules, low);
      assert idx == prev + (if Fires(rules[n], low) then [n] else []);
      forall i | 0 <= i < |rules| ensures Fires(rules[i], low) <==> i in idx {
        if i < n {
          assert init[i] == rules[i];
          assert i != n;
        }
      }
    }
  }

  /** Label `k` is the label of the `k`-th firing rule. */
  lemma {:induction false} FiredLabelsSpec(rules: seq<Rule>, low: string)
    ensures var idx := FiredIndices(rules, low);
      |FiredLabels(rules, low)| == |idx| &&
      forall k :: 0 <= k < |idx| ==> idx[k] < |rules| && FiredLabels(rules, low)[k] == rules[idx[k]].tag
  {
    if rules != [] {
      var n := |rules| - 1;
      var init := rules[..n];
      FiredLabelsSpec(init, low);
      var idx := FiredIndices(rules, low);
      assert forall k :: 0 <= k < |FiredIndices(init, low)| ==> FiredIndices(init, low)[k] < n;
      forall k | 0 <= k < |FiredIndices(init, low)|
        ensures idx[k] < |rules| && FiredLabels(rules, low)[k] == rules[idx[k]].tag
      {
        assert idx[k] == FiredIndices(init, low)[k];
        assert init[idx[k]] == rules[idx[k]];
      }
    }
  }

  /** The modifiers of the firing rules, summed over their positions. */
  function SumAt(rules: seq<Rule>, idx: seq<nat>): int
    requires forall k :: 0 <= k < |idx| ==> idx[k] < |rules|
  {
    if idx == [] then 0 else SumAt(rules, idx[..|idx| - 1]) + rules[idx[|idx| - 1]].modifier
  }

  /** The fired positions are positions of the table. */
  lemma FiredIndicesBounded(rules: seq<Rule>, low: string)
    ensures forall k :: 0 <= k < |FiredIndices(rules, low)| ==> FiredIndices(rules, low)[k] < |rules|
  {
    FiredIndicesSpec(rules, low);
  }

  /** The score is the sum of the modifiers of the firing rules. */
  lemma {:induction false} TotalModifierSpec(rules: seq<Rule>, low: string)
    ensures forall k :: 0 <= k < |FiredIndices(rules, low)| ==> FiredIndices(rules, low)[k] < |rules|
    ensures TotalModifier(rules, low) == SumAt(rules, FiredIndices(rules, low))
  {
    FiredIndicesBounded(rules, low);
    if rules != [] {
      var n := |rules| - 1;
      var init := rules[..n];
      var f := Fires(rules[n], low);
      TotalModifierSpec(init, low);
      var prev := FiredIndices(init, low);
      SumAtPrefix(init, rules, prev);
      assert TotalModifier(rules, low) == TotalModifier(init, low) + (if f then rules[n].modifier else 0);
      assert FiredIndices(rules, low) == prev + (if f then [n] else []);
      if f {
        SumAtSnoc(rules, prev, n);
      } else {
        assert prev + [] == prev;
      }
    }
  }

  /** One more position adds its rule's modifier. */
  lemma SumAtSnoc(rules: seq<Rule>, idx: seq<nat>, n: nat)
    requires forall k :: 0 <= k < |idx| ==> idx[k] < |rules|
    requires n < |rules|
    ensures forall k :: 0 <= k < |idx + [n]| ==> (idx + [n])[k] < |rules|
    ensures SumAt(rules, idx + [n]) == SumAt(rules, idx) + rules[n].modifier
  {
    assert (idx + [n])[..|idx|] == idx;
  }

  /** Sums over positions inside a prefix of the table agree. */
  lemma {:induction false} SumAtPrefix(init: seq<Rule>, rules: seq<Rule>, idx: seq<nat>)
    requires |init| <= |rules| && init == rules[..|init|]
    requires forall k :: 0 <= k < |idx| ==> idx[k] < |init|
    ensures SumAt(init, idx) == SumAt(rules, idx)
  {
    if idx != [] {
      SumAtPrefix(init, rules, idx[..|idx| - 1]);
      assert init[idx[|idx| - 1]] == rules[idx[|idx| - 1]];
    }
  }

  predicate Distinct(s: seq<string>)
  {
    forall a, b :: 0 <= a < b < |s| ==> s[a] != s[b]
  }

  function Labels(rules: seq<Rule>): (labels: seq<string>)
    ensures |labels| == |rules| && forall i :: 0 <= i < |rules| ==> labels[i] == rules[i].tag
  {
    seq(|rules|, i requires 0 <= i < |rules| => rules[i].tag)
  }

  /** Labels with pairwise different initials are distinct. */
  lemma DistinctByInitials(labels: seq<string>, initials: string)
    requires |labels| == |initials|
    requires forall i :: 0 <= i < |labels| ==> labels[i] != [] && labels[i][0] == initials[i]
    requires forall a, b :: 0 <= a < b < |initials| ==> initials[a] != initials[b]
    ensures Distinct(labels)
  {
    forall a, b | 0 <= a < b < |labels| ensures labels[a] != labels[b] {
      assert labels[a][0] != labels[b][0];
    }
  }

  /** A table with distinct labels reports no label twice, and at most one
      label per rule. */
  lemma FiredLabelsDistinct(rules: seq<Rule>, low: string)
    requires Distinct(Labels(rules))
    ensures Distinct(FiredLabels(rules, low))
    ensures |FiredLabels(rules, low)| <= |rules|
  {
    FiredIndicesSpec(rules, low);
    FiredLabelsSpec(rules, low);
    var idx := FiredIndices(rules, low);
    var labels := FiredLabels(rules, low);
    forall a, b | 0 <= a < b < |labels| ensures labels[a] != labels[b] {
      assert idx[a] < idx[b];
      assert Labels(rules)[idx[a]] != Labels(rules)[idx[b]];
    }
    IncreasingBound(idx, |rules|);
  }

  /** An increasing sequence of positions below `n` has at most `n` entries. */
  lemma {:induction false} IncreasingBound(idx: seq<nat>, n: nat)
    requires Increasing(idx) && forall k :: 0 <= k < |idx| ==> idx[k] < n
    ensures |idx| <= n
  {
    if idx != [] {
      var m := |idx| - 1;
      var init := idx[..m];
      forall k | 0 <= k < |init| ensures init[k] < idx[m] {
        assert init[k] == idx[k];
      }
      assert forall a, b :: 0 <= a < b < |init| ==> init[a] == idx[a] && init[b] == idx[b];
      IncreasingBound(init, idx[m]);
    }
  }

  // ---------------------------------------------------------------------
  // Bounds and special cases
  // ---------------------------------------------------------------------

  /** The table's modifiers, in order. */
  function Modifiers(rules: seq<Rule>): (mods: seq<int>)
    ensures |mods| == |rules| && forall i :: 0 <= i < |rules| ==> mods[i] == rules[i].modifier
  {
    seq(|rules|, i requires 0 <= i < |rules| => rules[i].modifier)
  }

  /** Sum of the positive numbers of `mods`. */
  function Gains(mods: seq<int>): int
  {
    if mods == [] then 0 else (if mods[0] > 0 then mods[0] else 0) + Gains(mods[1..])
  }

  /** Sum of the negative numbers of `mods`. */
  function Losses(mods: seq<int>): int
  {
    if mods == [] then 0 else (if mods[0] < 0 then mods[0] else 0) + Losses(mods[1..])
  }

  /** Whatever the text, the score lies between the sum of the table's
      negative modifiers and the sum of its positive ones. */
  lemma {:induction false} ModifierBounds(rules: seq<Rule>, low: string)
    ensures Losses(Modifiers(rules)) <= TotalModifier(rules, low) <= Gains(Modifiers(rules))
  {
    if rules != [] {
      var n := |rules| - 1;
      ModifierBounds(rules[..n], low);
      SumsSnoc(Modifiers(rules[..n]), rules[n].modifier);
      assert Modifiers(rules) == Modifiers(rules[..n]) + [rules[n].modifier];
    }
  }

  /** Appending a number to `mods` adds it to one of the two sums. */
  lemma {:induction false} SumsSnoc(mods: seq<int>, m: int)
    ensures Gains(mods + [m]) == Gains(mods) + (if m > 0 then m else 0)
    ensures Losses(mods + [m]) == Losses(mods) + (if m < 0 then m else 0)
  {
    if mods != [] {
      assert (mods + [m])[1..] == mods[1..] + [m];
      SumsSnoc(mods[1..], m);
    } else {
      assert [m][1..] == [];
    }
  }

  /** A table whose every rule needs some non-empty keyword fires nothing on
      the empty text: `evaluate("") == (0, [])`. */
  lemma {:induction false} NothingFiresOnEmpty(rules: seq<Rule>)
    requires forall i :: 0 <= i < |rules| ==> rules[i].keywords != [] && rules[i].keywords[0] != []
    ensures TotalModifier(rules, "") == 0 && FiredLabels(rules, "") == []
  {
    if rules != [] {
      var n := |rules| - 1;
      assert forall i :: 0 <= i < n ==> rules[..n][i] == rules[i];
      NothingFiresOnEmpty(rules[..n]);
      NotInEmpty(rules[n].keywords[0]);
    }
  }

  /** When exactly rule `j` fires, the result is its modifier and its label. */
  lemma {:induction false} OnlyRuleFires(rules: seq<Rule>, low: string, j: nat)
    requires j < |rules| && Fires(rules[j], low)
    requires forall i :: 0 <= i < |rules| && i != j ==> !Fires(rules[i], low)
    ensures TotalModifier(rules, low) == rules[j].modifier
    ensures FiredLabels(rules, low) == [rules[j].tag]
  {
    var n := |rules| - 1;
    var init := rules[..n];
    if j < n {
      assert init[j] == rules[j];
      forall i | 0 <= i < n && i != j ensures !Fires(init[i], low) {
        assert init[i] == rules[i];
      }
      OnlyRuleFires(init, low, j);
    } else {
      forall i | 0 <= i < n ensures !Fires(init[i], low) {
        assert init[i] == rules[i];
      }
      NoRuleFires(init, low);
    }
  }

  lemma {:induction false} NoRuleFires(rules: seq<Rule>, low: string)
    requires forall i :: 0 <= i < |rules| ==> !Fires(rules[i], low)
    ensures TotalModifier(rules, low) == 0 && FiredLabels(rules, low) == []
  {
    if rules != [] {
      var n := |rules| - 1;
      assert forall i :: 0 <= i < n ==> rules[..n][i] == rules[i];
      NoRuleFires(rules[..n], low);
    }
  }

  /** A rule with a keyword missing from the text does not fire. */
  lemma MissingKeyword(rule: Rule, low: string, k: nat)
    requires k < |rule.keywords| && !Contains(low, rule.keywords[k])
    ensures !Fires(rule, low)
  {
  }
}
