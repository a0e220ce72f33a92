/** The assessment record of src/risk_engine/risk_models.py:5-12 (the same
    fields in risk_engine/models.py:4-13) and the post-processing every
    scorer applies to it: the score clamped to [1, 10], the level recomputed
    from the score, the rule labels appended to the reason. */
module RiskModel {
  import opened Text

  /** `RiskClause`: six required fields; pydantic checks 1 <= risk_score
      <= 10 when the record is built, and the level is a free string. */
  datatype RiskClause = RiskClause(
    clauseId: string,
    clauseType: string,
    riskLevel: string,
    riskScore: int,
    reason: string,
    recommendation: string)

  /** What a call into code outside the model produced: a value, or an
      exception with its message. */
  datatype Outcome<T> = Success(value: T) | Failure(error: string)

  /** `max(1, min(10, x))` */
  function Clamp(x: int): (r: int)
    ensures 1 <= r <= 10
    ensures 1 <= x <= 10 ==> r == x
    ensures x < 1 ==> r == 1
    ensures x > 10 ==> r == 10
  {
    if x < 1 then 1 else if x > 10 then 10 else x
  }

  /** `"High" if score >= 8 else ("Medium" if score >= 5 else "Low")` */
  function LevelFor(score: int): string
  {
    if score >= 8 then "High" else if score >= 5 then "Medium" else "Low"
  }

  /** The position of a level in Low < Medium < High. */
  function Rank(level: string): nat
  {
    if level == "High" then 2 else if level == "Medium" then 1 else 0
  }

  /** The level is one of the three names, and it never drops as the score
      rises. */
  lemma LevelMonotone(s: int, t: int)
    requires s <= t
    ensures LevelFor(s) in {"High", "Medium", "Low"}
    ensures Rank(LevelFor(s)) <= Rank(LevelFor(t))
  {
    assert "High" != "Medium" && "High" != "Low" && "Medium" != "Low" by {
      assert "High"[0] != "Medium"[0] && "High"[0] != "Low"[0] && "Medium"[0] != "Low"[0];
    }
  }

  /** A record whose score is in range and whose level matches the score. */
  predicate Consistent(rc: RiskClause)
  {
    1 <= rc.riskScore <= 10 && rc.riskLevel == LevelFor(rc.riskScore)
  }

  /** The rule step of a scorer: the score moved by `modifier` and clamped,
      the level recomputed from it, and, when some rule fired, `marker` and
      the labels joined with `sep` appended to the reason. */
  function Adjusted(rc: RiskClause, modifier: int, labels: seq<string>, marker: string, sep: string): RiskClause
  {
    var score := Clamp(rc.riskScore + modifier);
    rc.(riskScore := score, riskLevel := LevelFor(score),
        reason := if labels == [] then rc.reason else rc.reason + marker + Join(sep, labels))
  }

  /** Whatever the model said, the adjusted record is consistent; only the
      score, the level and the reason change, and the old reason stays at
      the front of the new one. */
  lemma AdjustedSpec(rc: RiskClause, modifier: int, labels: seq<string>, marker: string, sep: string)
    ensures var r := Adjusted(rc, modifier, labels, marker, sep);
      Consistent(r) && r.riskScore == Clamp(rc.riskScore + modifier) &&
      r.clauseId == rc.clauseId && r.clauseType == rc.clauseType && r.recommendation == rc.recommendation &&
      StartsWith(r.reason, rc.reason) &&
      (r.reason == rc.reason <==> labels == [] || marker + Join(sep, labels) == [])
  {
    var r := Adjusted(rc, modifier, labels, marker, sep);
    if labels != [] {
      assert r.reason == rc.reason + (marker + Join(sep, labels));
      assert r.reason[..|rc.reason|] == rc.reason;
      if r.reason == rc.reason {
        assert |marker + Join(sep, labels)| == 0;
      }
    }
  }

  /** With no rule fired, a consistent record passes through unchanged. */
  lemma AdjustedIdle(rc: RiskClause, marker: string, sep: string)
    requires Consistent(rc)
    ensures Adjusted(rc, 0, [], marker, sep) == rc
  {
  }

  /** Adjusting with no rule fired changes nothing on a second pass. */
  lemma AdjustedIdempotent(rc: RiskClause, modifier: int, labels: seq<string>, marker: string, sep: string)
    ensures var r := Adjusted(rc, modifier, labels, marker, sep);
      Adjusted(r, 0, [], marker, sep) == r
  {
    AdjustedSpec(rc, modifier, labels, marker, sep);
  }

  /** `[r for r in risks if r.risk_level == level]` */
  function WithLevel(risks: seq<RiskClause>, level: string): seq<RiskClause>
  {
    if risks == [] then []
    else WithLevel(risks[..|risks| - 1], level) + (if risks[|risks| - 1].riskLevel == level then [risks[|risks| - 1]] else [])
  }

  /** The filter keeps exactly the records with that level, and no more of
      them than there are. */
  lemma {:induction false} WithLevelSpec(risks: seq<RiskClause>, level: string)
    ensures |WithLevel(risks, level)| <= |risks|
    ensures forall r :: r in WithLevel(risks, level) <==> r in risks && r.riskLevel == level
  {
    if risks != [] {
      var init := risks[..|risks| - 1];
      WithLevelSpec(init, level);
      assert risks == init + [risks[|risks| - 1]];
    }
  }

  /** The filter keeps the records in their order: filtering a
      concatenation concatenates the filtered parts. */
  lemma {:induction false} WithLevelAppend(a: seq<RiskClause>, b: seq<RiskClause>, level: string)
    ensures WithLevel(a + b, level) == WithLevel(a, level) + WithLevel(b, level)
    decreases |b|
  {
    if b == [] {
      assert a + b == a;
    } else {
      var n := |b| - 1;
      var last := b[n];
      var tail := if last.riskLevel == level then [last] else [];
      WithLevelAppend(a, b[..n], level);
      assert (a + b)[..|a + b| - 1] == a + b[..n];
      assert (a + b)[|a + b| - 1] == last;
      assert WithLevel(a + b, level) == WithLevel(a + b[..n], level) + tail;
      assert WithLevel(b, level) == WithLevel(b[..n], level) + tail;
    }
  }

  /** With no record at that level the filter keeps nothing. */
  lemma {:induction false} WithLevelNone(risks: seq<RiskClause>, level: string)
    requires forall k :: 0 <= k < |risks| ==> risks[k].riskLevel != level
    ensures WithLevel(risks, level) == []
  {
    if risks != [] {
      var n := |risks| - 1;
      assert forall k :: 0 <= k < n ==> risks[..n][k] == risks[k];
      WithLevelNone(risks[..n], level);
    }
  }

  /** A single record is kept exactly when it has the level. */
  lemma WithLevelSingle(r: RiskClause, level: string)
    ensures WithLevel([r], level) == if r.riskLevel == level then [r] else []
  {
    assert [r][..0] == [];
  }

  /** High, Medium and Low records together are at most all of them, and
      exactly all of them when every level is one of the three. */
  lemma {:induction false} LevelCounts(risks: seq<RiskClause>)
    ensures |WithLevel(risks, "High")| + |WithLevel(risks, "Medium")| + |WithLevel(risks, "Low")| <= |risks|
    ensures (forall k :: 0 <= k < |risks| ==> risks[k].riskLevel in {"High", "Medium", "Low"}) ==>
      |WithLevel(risks, "High")| + |WithLevel(risks, "Medium")| + |WithLevel(risks, "Low")| == |risks|
  {
    if risks != [] {
      var n := |risks| - 1;
      LevelCounts(risks[..n]);
      assert "High" != "Medium" && "High" != "Low" && "Medium" != "Low" by {
        assert "High"[0] != "Medium"[0] && "High"[0] != "Low"[0] && "Medium"[0] != "Low"[0];
      }
      assert forall k :: 0 <= k < n ==> risks[..n][k] == risks[k];
    }
  }

  /** Consistent records have one of the three levels, so they are all
      counted. */
  lemma ConsistentCounted(risks: seq<RiskClause>)
    requires forall k :: 0 <= k < |risks| ==> Consistent(risks[k])
    ensures |WithLevel(risks, "High")| + |WithLevel(risks, "Medium")| + |WithLevel(risks, "Low")| == |risks|
  {
    forall k | 0 <= k < |risks| ensures risks[k].riskLevel in {"High", "Medium", "Low"} {
      LevelMonotone(risks[k].riskScore, risks[k].riskScore);
    }
    LevelCounts(risks);
  }
}
