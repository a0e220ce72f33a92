/** `RiskScorer` of src/risk_engine/risk_scorer.py: `analyze_clause`
    (lines 73-96), which falls back to a placeholder assessment when the
    model fails and applies the rule table either way, and `analyze_batch`
    (lines 98-154), which reads one JSON array for all clauses and falls back
    to one call per clause when anything in the batch path raises.

    The model's replies are inputs: the batch reply is an `Outcome<string>`,
    `json.loads` followed by iteration is the function `parse`, and the
    single-clause call for clause `i` yields `single(i)`. */
module SrcScorer {
  import opened Text
  import opened RiskModel
  import RuleEngine
  import SrcRules

  const Marker: string := " | Rules triggered: "
  const Separator: string := ", "

  /** A JSON value as `RiskClause(**item)` and `int(...)` see it: a string,
      an integer, or anything else, carried with Python's `str()` of it. */
  datatype Value = Str(s: string) | Int(n: int) | Other(repr: string)

  /** A JSON object: its keys and values. */
  type Item = map<string, Value>

  /** One element of the parsed reply: an object, or a value without `.get`. */
  datatype Entry = Object(fields: Item) | NonObject

  /** A clause handed to the scorer: `{'id': ..., 'text': ...}`. */
  datatype ClauseInput = ClauseInput(id: string, text: string)

  /** The assessment used when the single-clause call raises `error`. */
  function Placeholder(clauseId: string, error: string): RiskClause
  {
    RiskClause(clauseId, "Unknown", "Medium", 5, "Analysis error: " + error, "Manual review recommended.")
  }

  /** The rule step of lines 89-94 and 141-145 on the text `clauseText`. */
  function Scored(rc: RiskClause, clauseText: string): RiskClause
  {
    var low := Lower(clauseText);
    Adjusted(rc, RuleEngine.TotalModifier(SrcRules.Rules, low), RuleEngine.FiredLabels(SrcRules.Rules, low),
             Marker, Separator)
  }

  /** What `analyze_clause(clause_id, clause_text)` returns when the model
      call ends in `outcome`. */
  function ClauseResult(clauseId: string, clauseText: string, outcome: Outcome<RiskClause>): RiskClause
  {
    Scored(if outcome.Success? then outcome.value else Placeholder(clauseId, outcome.error), clauseText)
  }

  /** The rule step, one field at a time as the source assigns them. */
  method ApplyRules(rc: RiskClause, clauseText: string) returns (result: RiskClause)
    ensures result == Scored(rc, clauseText)
  {
    var modifier, triggered := SrcRules.Evaluate(clauseText);
    result := rc;
    result := result.(riskScore := Clamp(result.riskScore + modifier));
    result := result.(riskLevel := if result.riskScore >= 8 then "High" else if result.riskScore >= 5 then "Medium" else "Low");
    if triggered != [] {
      result := result.(reason := result.reason + Marker + Join(Separator, triggered));
    }
  }

  /** `analyze_clause` */
  method AnalyzeClause(clauseId: string, clauseText: string, outcome: Outcome<RiskClause>) returns (result: RiskClause)
    ensures result == ClauseResult(clauseId, clauseText, outcome)
  {
    if outcome.Success? {
      result := outcome.value;
    } else {
      result := Placeholder(clauseId, outcome.error);
    }
    result := ApplyRules(result, clauseText);
  }

  /** `str(v)` */
  function Show(v: Value): string
  {
    match v
    case Str(s) => s
    case Int(n) => IntToString(n)
    case Other(r) => r
  }

  /** `str(item.get('clause_id', ''))` */
  function IdOf(item: Item): string
  {
    if "clause_id" in item then Show(item["clause_id"]) else ""
  }

  /** The text of the first clause whose id is `id`, or "" (the `next(...)`
      of lines 125-127). */
  function LookupText(clauses: seq<ClauseInput>, id: string): string
  {
    if clauses == [] then ""
    else if clauses[0].id == id then clauses[0].text
    else LookupText(clauses[1..], id)
  }

  /** The integer a value gives, for pydantic's `int` field and for
      Python's `int()`: an integer, or a string holding one. */
  function IntOf(v: Value): Option<int>
  {
    match v
    case Int(n) => Some(n)
    case Str(s) => ParseInt(s)
    case Other(_) => None
  }

  /** A required string field. */
  function Required(item: Item, key: string): Option<string>
  {
    if key in item && item[key].Str? then Some(item[key].s) else None
  }

  /** `RiskClause(**item)`: the six fields present with the right types,
      and 1 <= risk_score <= 10; `None` where pydantic raises. */
  function Validate(item: Item): Option<RiskClause>
  {
    var id := Required(item, "clause_id");
    var kind := Required(item, "clause_type");
    var level := Required(item, "risk_level");
    var score := if "risk_score" in item then IntOf(item["risk_score"]) else None;
    var reason := Required(item, "reason");
    var advice := Required(item, "recommendation");
    if id.Some? && kind.Some? && level.Some? && score.Some? && 1 <= score.value <= 10 && reason.Some? && advice.Some? then
      Some(RiskClause(id.value, kind.value, level.value, score.value, reason.value, advice.value))
    else None
  }

  /** `item.get(key, default)` for a string field: the default when the key
      is missing, `None` when the value is not a string. */
  function Defaulted(item: Item, key: string, default: string): Option<string>
  {
    if key !in item then Some(default) else if item[key].Str? then Some(item[key].s) else None
  }

  /** The minimal object of lines 132-139: missing fields take defaults and
      the score is clamped; `None` where `int()` or pydantic raises. */
  function Rebuild(item: Item): Option<RiskClause>
  {
    var id := Defaulted(item, "clause_id", "Unknown");
    var kind := Defaulted(item, "clause_type", "Unknown");
    var level := Defaulted(item, "risk_level", "Medium");
    var score := if "risk_score" in item then IntOf(item["risk_score"]) else Some(5);
    var reason := Defaulted(item, "reason", "N/A");
    var advice := Defaulted(item, "recommendation", "Review manually.");
    if id.Some? && kind.Some? && level.Some? && score.Some? && reason.Some? && advice.Some? then
      Some(RiskClause(id.value, kind.value, level.value, Clamp(score.value), reason.value, advice.value))
    else None
  }

  /** One object of the batch reply, assessed and scored by the rules on
      the text of the clause it names; `None` when it raises. */
  function Assess(item: Item, clauses: seq<ClauseInput>): Option<RiskClause>
  {
    var text := LookupText(clauses, IdOf(item));
    var validated := Validate(item);
    var base := if validated.Some? then validated else Rebuild(item);
    if base.Some? then Some(Scored(base.value, text)) else None
  }

  /** The loop of lines 124-147 over the parsed reply, each object
      assessed by `assess`; `None` when any element raises. */
  function Items(data: seq<Entry>, assess: Item -> Option<RiskClause>): Option<seq<RiskClause>>
  {
    if data == [] then Some([])
    else
      var init := Items(data[..|data| - 1], assess);
      var last := data[|data| - 1];
      if init.None? || last.NonObject? then None
      else
        var r := assess(last.fields);
        if r.Some? then Some(init.value + [r.value]) else None
  }

  /** `Assess` against one list of clauses. */
  function AssessIn(clauses: seq<ClauseInput>): Item -> Option<RiskClause>
  {
    item => Assess(item, clauses)
  }

  /** The fallback of lines 153-154: clause `i` analysed on its own, the
      model call ending in `single(i)`. */
  function Fallback(clauses: seq<ClauseInput>, single: nat -> Outcome<RiskClause>): seq<RiskClause>
  {
    seq(|clauses|, i requires 0 <= i < |clauses| => ClauseResult(clauses[i].id, clauses[i].text, single(i)))
  }

  /** The span `re.search(r'\[.*\]', content, re.DOTALL)` matches, from the
      first '[' to the last ']', or `content` when there is none. */
  function ExtractArray(content: string): string
  {
    var first := FirstIndexOf(content, '[');
    var last := LastIndexOf(content, ']');
    if first.Some? && last.Some? && first.value < last.value then content[first.value..last.value + 1]
    else content
  }

  /** What `analyze_batch(clauses)` returns. */
  function Batch(clauses: seq<ClauseInput>, response: Outcome<string>, parse: string -> Option<seq<Entry>>,
                 single: nat -> Outcome<RiskClause>): seq<RiskClause>
  {
    if clauses == [] then []
    else if response.Failure? then Fallback(clauses, single)
    else
      var data := parse(ExtractArray(response.value));
      if data.None? then Fallback(clauses, single)
      else
        var results := Items(data.value, AssessIn(clauses));
        if results.None? then Fallback(clauses, single) else results.value
  }

  /** The `except` branch: every clause analysed on its own, in order. */
  method FallbackAll(clauses: seq<ClauseInput>, single: nat -> Outcome<RiskClause>) returns (results: seq<RiskClause>)
    ensures results == Fallback(clauses, single)
  {
    results := [];
    for i := 0 to |clauses|
      invariant results == Fallback(clauses[..i], single)
    {
      var c := clauses[i];
      var r := AnalyzeClause(c.id, c.text, single(i));
      results := results + [r];
    }
    assert clauses[..|clauses|] == clauses;
  }

  /** The loop of lines 124-147: `None` as soon as an element raises, which
      sends `analyze_batch` to its `except` branch. */
  method ScoreItems(data: seq<Entry>, clauses: seq<ClauseInput>) returns (results: Option<seq<RiskClause>>)
    ensures results == Items(data, AssessIn(clauses))
  {
    var scored: seq<RiskClause> := [];
    for i := 0 to |data|
      invariant Items(data[..i], AssessIn(clauses)) == Some(scored)
    {
      assert data[..i + 1][..i] == data[..i];
      var item := data[i];
      if item.NonObject? {
        ItemsPrefixNone(data, AssessIn(clauses), i + 1);
        return None;
      }
      var originalText := LookupText(clauses, IdOf(item.fields));
      var rc: RiskClause;
      var validated := Validate(item.fields);
      if validated.Some? {
        rc := validated.value;
      } else {
        var rebuilt := Rebuild(item.fields);
        if rebuilt.None? {
          ItemsPrefixNone(data, AssessIn(clauses), i + 1);
          return None;
        }
        rc := rebuilt.value;
      }
      rc := ApplyRules(rc, originalText);
      assert AssessIn(clauses)(item.fields) == Some(rc);
      scored := scored + [rc];
    }
    assert data[..|data|] == data;
    results := Some(scored);
  }

  /** `analyze_batch` */
  method AnalyzeBatch(clauses: seq<ClauseInput>, response: Outcome<string>, parse: string -> Option<seq<Entry>>,
                      single: nat -> Outcome<RiskClause>) returns (results: seq<RiskClause>)
    ensures results == Batch(clauses, response, parse, single)
  {
    if clauses == [] {
      return [];
    }
    if response.Failure? {
      results := FallbackAll(clauses, single);
      return;
    }
    var content := response.value;
    content := ExtractArray(content);
    var data := parse(content);
    var scored: Option<seq<RiskClause>> := None;
    if data.Some? {
      scored := ScoreItems(data.value, clauses);
    }
    if scored.None? {
      results := FallbackAll(clauses, single);
    } else {
      results := scored.value;
    }
  }

  /** Once an element raises, the whole loop raises. */
  lemma {:induction false} ItemsPrefixNone(data: seq<Entry>, assess: Item -> Option<RiskClause>, n: nat)
    requires n <= |data| && Items(data[..n], assess).None?
    ensures Items(data, assess).None?
    decreases |data| - n
  {
    if n < |data| {
      assert data[..n + 1][..n] == data[..n];
      ItemsPrefixNone(data, assess, n + 1);
    } else {
      assert data[..n] == data;
    }
  }

  /** The loop yields one assessment per element, each the element's own
      assessment, or raises exactly when some element does. */
  lemma {:induction false} ItemsSpec(data: seq<Entry>, assess: Item -> Option<RiskClause>)
    ensures Items(data, assess).Some? <==>
      forall k :: 0 <= k < |data| ==> data[k].Object? && assess(data[k].fields).Some?
    ensures Items(data, assess).Some? ==>
      |Items(data, assess).value| == |data| &&
      forall k :: 0 <= k < |data| ==> Items(data, assess).value[k] == assess(data[k].fields).value
  {
    if data != [] {
      var n := |data| - 1;
      ItemsSpec(data[..n], assess);
      assert forall k :: 0 <= k < n ==> data[..n][k] == data[k];
    }
  }

  /** A validated or rebuilt record has its score in [1, 10]. */
  lemma BaseInRange(item: Item)
    ensures Validate(item).Some? ==> 1 <= Validate(item).value.riskScore <= 10
    ensures Rebuild(item).Some? ==> 1 <= Rebuild(item).value.riskScore <= 10
  {
  }

  /** Where validation succeeds, the rebuild gives the same record: the
      fallback only relaxes what is accepted. */
  lemma RebuildExtendsValidate(item: Item)
    requires Validate(item).Some?
    ensures Rebuild(item) == Validate(item)
  {
  }

  /** The object the batch prompt asks for, for a record. */
  function Encode(rc: RiskClause): Item
  {
    map["clause_id" := Str(rc.clauseId), "clause_type" := Str(rc.clauseType), "risk_level" := Str(rc.riskLevel),
        "risk_score" := Int(rc.riskScore), "reason" := Str(rc.reason), "recommendation" := Str(rc.recommendation)]
  }

  /** A record in the prompt's schema with a score in range validates back
      to itself; one out of range is rebuilt with the score clamped. */
  lemma EncodeValidate(rc: RiskClause)
    ensures 1 <= rc.riskScore <= 10 ==> Validate(Encode(rc)) == Some(rc)
    ensures !(1 <= rc.riskScore <= 10) ==>
      Validate(Encode(rc)) == None && Rebuild(Encode(rc)) == Some(rc.(riskScore := Clamp(rc.riskScore)))
  {
    var item := Encode(rc);
    assert "clause_id" in item && "clause_type" in item && "risk_level" in item;
    assert "risk_score" in item && "reason" in item && "recommendation" in item;
    assert item["clause_id"] == Str(rc.clauseId) && item["clause_type"] == Str(rc.clauseType);
    assert item["risk_level"] == Str(rc.riskLevel) && item["risk_score"] == Int(rc.riskScore);
    assert item["reason"] == Str(rc.reason) && item["recommendation"] == Str(rc.recommendation);
  }

  /** An empty object fails validation and is rebuilt from the defaults. */
  lemma EmptyObjectDefaults()
    ensures Validate(map[]) == None
    ensures Rebuild(map[]) == Some(RiskClause("Unknown", "Unknown", "Medium", 5, "N/A", "Review manually."))
  {
  }

  /** A field of the wrong type that the rebuild does not repair makes the
      element raise. */
  lemma WrongTypeRaises(item: Item, key: string)
    requires key in {"clause_id", "clause_type", "risk_level", "reason", "recommendation"}
    requires key in item && !item[key].Str?
    ensures Validate(item) == None && Rebuild(item) == None
  {
  }

  /** `LookupText` is the text of the first clause with that id, and "" when
      no clause has it. */
  lemma {:induction false} LookupTextSpec(clauses: seq<ClauseInput>, id: string)
    ensures (forall k :: 0 <= k < |clauses| ==> clauses[k].id != id) ==> LookupText(clauses, id) == ""
    ensures forall k :: 0 <= k < |clauses| && clauses[k].id == id && (forall j :: 0 <= j < k ==> clauses[j].id != id) ==>
      LookupText(clauses, id) == clauses[k].text
  {
    if clauses != [] {
      LookupTextSpec(clauses[1..], id);
      assert forall k :: 1 <= k < |clauses| ==> clauses[1..][k - 1] == clauses[k];
    }
  }

  /** An element naming no clause is scored on the empty text: no rule
      fires, and only the level is recomputed. */
  lemma UnmatchedId(item: Item, clauses: seq<ClauseInput>)
    requires forall k :: 0 <= k < |clauses| ==> clauses[k].id != IdOf(item)
    requires Validate(item).Some? || Rebuild(item).Some?
    ensures var base := if Validate(item).Some? then Validate(item).value else Rebuild(item).value;
      Assess(item, clauses) == Some(base.(riskLevel := LevelFor(base.riskScore)))
  {
    LookupTextSpec(clauses, IdOf(item));
    SrcRules.EmptyText();
  }

  /** The extraction: when some '[' precedes some ']', the result is the
      span from the first '[' to the last ']'; otherwise the reply is kept. */
  lemma ExtractArraySpec(content: string)
    ensures (exists i, j :: 0 <= i < j < |content| && content[i] == '[' && content[j] == ']') ==>
      exists i, j :: 0 <= i < j < |content| && ExtractArray(content) == content[i..j + 1] &&
        content[i] == '[' && content[j] == ']' &&
        (forall k :: 0 <= k < i ==> content[k] != '[') && (forall k :: j < k < |content| ==> content[k] != ']')
    ensures !(exists i, j :: 0 <= i < j < |content| && content[i] == '[' && content[j] == ']') ==>
      ExtractArray(content) == content
  {
    var first := FirstIndexOf(content, '[');
    var last := LastIndexOf(content, ']');
    if first.Some? && last.Some? && first.value < last.value {
      var i, j := first.value, last.value;
      assert ExtractArray(content) == content[i..j + 1];
      assert content[i] == '[' && content[j] == ']';
    }
  }

  /** Extracting twice gives what extracting once does. */
  lemma ExtractArrayIdempotent(content: string)
    ensures ExtractArray(ExtractArray(content)) == ExtractArray(content)
  {
    var first := FirstIndexOf(content, '[');
    var last := LastIndexOf(content, ']');
    if first.Some? && last.Some? && first.value < last.value {
      var e := content[first.value..last.value + 1];
      assert e[0] == '[' && e[|e| - 1] == ']';
      var f := FirstIndexOf(e, '[');
      var l := LastIndexOf(e, ']');
      assert f == Some(0);
      assert l == Some(|e| - 1);
    }
  }

  /** The empty clause list gives [] whatever the model would say. */
  lemma EmptyBatch(response: Outcome<string>, parse: string -> Option<seq<Entry>>, single: nat -> Outcome<RiskClause>)
    ensures Batch([], response, parse, single) == []
  {
  }

  /** Every assessment the batch returns has its score in [1, 10] and the
      level that score calls for. */
  lemma BatchConsistent(clauses: seq<ClauseInput>, response: Outcome<string>, parse: string -> Option<seq<Entry>>,
                        single: nat -> Outcome<RiskClause>)
    ensures forall r :: r in Batch(clauses, response, parse, single) ==> Consistent(r)
  {
    forall i | 0 <= i < |clauses| ensures Consistent(Fallback(clauses, single)[i]) {
      var c := clauses[i];
      var o := single(i);
      var low := Lower(c.text);
      AdjustedSpec(if o.Success? then o.value else Placeholder(c.id, o.error),
                   RuleEngine.TotalModifier(SrcRules.Rules, low), RuleEngine.FiredLabels(SrcRules.Rules, low), Marker, Separator);
    }
    if clauses != [] && response.Success? && parse(ExtractArray(response.value)).Some? {
      var data := parse(ExtractArray(response.value)).value;
      ItemsSpec(data, AssessIn(clauses));
      if Items(data, AssessIn(clauses)).Some? {
        forall k | 0 <= k < |data| ensures Consistent(Items(data, AssessIn(clauses)).value[k]) {
          var item := data[k].fields;
          var base := if Validate(item).Some? then Validate(item) else Rebuild(item);
          var low := Lower(LookupText(clauses, IdOf(item)));
          AdjustedSpec(base.value, RuleEngine.TotalModifier(SrcRules.Rules, low), RuleEngine.FiredLabels(SrcRules.Rules, low),
                       Marker, Separator);
        }
      }
    }
  }

  /** The batch path got through: a reply, parsed, no element raising. */
  predicate BatchParsed(clauses: seq<ClauseInput>, response: Outcome<string>, parse: string -> Option<seq<Entry>>)
  {
    response.Success? && parse(ExtractArray(response.value)).Some? &&
    Items(parse(ExtractArray(response.value)).value, AssessIn(clauses)).Some?
  }

  /** The batch answers with one assessment per element of the reply, or,
      on any failure, with one per clause, clause `i`'s carrying its id when
      its own call failed. */
  lemma BatchCount(clauses: seq<ClauseInput>, response: Outcome<string>, parse: string -> Option<seq<Entry>>,
                   single: nat -> Outcome<RiskClause>)
    requires clauses != []
    ensures BatchParsed(clauses, response, parse) ==>
      |Batch(clauses, response, parse, single)| == |parse(ExtractArray(response.value)).value|
    ensures !BatchParsed(clauses, response, parse) ==>
      var results := Batch(clauses, response, parse, single);
      |results| == |clauses| &&
      forall i :: 0 <= i < |clauses| && single(i).Failure? ==> results[i].clauseId == clauses[i].id
  {
    if response.Success? && parse(ExtractArray(response.value)).Some? {
      ItemsSpec(parse(ExtractArray(response.value)).value, AssessIn(clauses));
    }
  }

  /** A failed call is still scored: the placeholder keeps the clause id,
      starts its reason with the error, and, when no rule fires, keeps the
      score 5 and the level "Medium". */
  lemma FailedClause(clauseId: string, clauseText: string, error: string)
    ensures var r := ClauseResult(clauseId, clauseText, Failure(error));
      r.clauseId == clauseId && r.clauseType == "Unknown" && r.recommendation == "Manual review recommended." &&
      StartsWith(r.reason, "Analysis error: " + error)
    ensures RuleEngine.FiredLabels(SrcRules.Rules, Lower(clauseText)) == [] &&
            RuleEngine.TotalModifier(SrcRules.Rules, Lower(clauseText)) == 0 ==>
      ClauseResult(clauseId, clauseText, Failure(error)) == Placeholder(clauseId, error)
  {
    var low := Lower(clauseText);
    AdjustedSpec(Placeholder(clauseId, error), RuleEngine.TotalModifier(SrcRules.Rules, low),
                 RuleEngine.FiredLabels(SrcRules.Rules, low), Marker, Separator);
  }

  /** The rules apply on top of the placeholder: an unlimited indemnity
      lifts a failed clause from 5 to 10, "High". */
  lemma FailedIndemnity(clauseId: string, clauseText: string, error: string)
    requires Contains(Lower(clauseText), "indemnify") && Contains(Lower(clauseText), "unlimited")
    requires forall i :: 1 <= i < |SrcRules.Rules| ==> !RuleEngine.Fires(SrcRules.Rules[i], Lower(clauseText))
    ensures var r := ClauseResult(clauseId, clauseText, Failure(error));
      r.riskScore == 10 && r.riskLevel == "High" &&
      r.reason == "Analysis error: " + error + " | Rules triggered: unlimited indemnity"
  {
    SrcRules.UnlimitedIndemnity(clauseText);
  }
}
