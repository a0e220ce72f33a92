/** `LegalNodes` of src/ai_legal_analyzer/workflows/workflow_nodes.py over
    the `GraphState` of lines 5-9: `retrieve`, an `analyze_risk` that scores
    each document with the scorer of
    src/ai_legal_analyzer/risk_engine/risk_scorer.py, and a `generate_answer`
    that lists the High risks as parts joined by newlines.

    Line 30 calls the coroutine function `analyze_clause` without `await`,
    so the reports are coroutine objects and `generate_answer` then fails on
    `r.risk_level`. Both the code as written and the evidently intended
    per-document scoring are modelled; the graph uses the second. */
module PkgNodes {
  import opened Text
  import opened RiskModel
  import ClauseChunks
  import PkgScorer

  type Document = ClauseChunks.Document

  /** How many search results `retrieve` asks for (line 21). */
  const K: nat := 5

  /** An entry of `risk_analysis`: a finished assessment, or the coroutine
      object of an `analyze_clause` call that was never awaited, holding
      the arguments of that call. */
  datatype Report = Ready(rc: RiskClause) | Pending(clauseId: string, clauseText: string)

  datatype State = State(query: string, documents: seq<Document>, riskAnalysis: seq<Report>, finalAnswer: string)

  /** The keys a node returns, each `None` when it is not returned. */
  datatype Update = Update(documents: Option<seq<Document>>, riskAnalysis: Option<seq<Report>>, finalAnswer: Option<string>)

  const NoKeys: Update := Update(None, None, None)

  /** The graph merges an update into the state key by key. */
  function Apply(s: State, u: Update): State
  {
    State(s.query,
          if u.documents.Some? then u.documents.value else s.documents,
          if u.riskAnalysis.Some? then u.riskAnalysis.value else s.riskAnalysis,
          if u.finalAnswer.Some? then u.finalAnswer.value else s.finalAnswer)
  }

  /** `retrieve` (lines 18-22): the documents of the top-5 search results,
      in their order. */
  function Retrieve<S>(s: State, search: (string, nat) -> seq<(Document, S)>): (u: Update)
    ensures u.riskAnalysis.None? && u.finalAnswer.None? && u.documents.Some?
    ensures |u.documents.value| == |search(s.query, K)|
    ensures forall i :: 0 <= i < |search(s.query, K)| ==> u.documents.value[i] == search(s.query, K)[i].0
  {
    var results := search(s.query, K);
    NoKeys.(documents := Some(seq(|results|, i requires 0 <= i < |results| => results[i].0)))
  }

  /** `d.metadata.get("clause_id", "intro")` */
  function ClauseIdOf(d: Document): string
  {
    if "clause_id" in d.metadata then d.metadata["clause_id"] else "intro"
  }

  /** What lines 28-31 store as written: one unawaited call per document. */
  function Unawaited(docs: seq<Document>): seq<Report>
  {
    seq(|docs|, i requires 0 <= i < |docs| => Pending(ClauseIdOf(docs[i]), docs[i].pageContent))
  }

  /** `analyze_risk` (lines 24-32) as written, without the `await`. */
  method AnalyzeRiskAsWritten(s: State) returns (u: Update)
    ensures u == NoKeys.(riskAnalysis := Some(Unawaited(s.documents)))
  {
    var docs := s.documents;
    var reports: seq<Report> := [];
    for i := 0 to |docs|
      invariant reports == Unawaited(docs[..i])
    {
      var d := docs[i];
      var rid := ClauseIdOf(d);
      var res := Pending(rid, d.pageContent);
      reports := reports + [res];
    }
    assert docs[..|docs|] == docs;
    u := NoKeys.(riskAnalysis := Some(reports));
  }

  /** The reports of `analyze_risk` with the call awaited: document `i`
      scored alone, the model call for it ending in `outcomes(i)`. */
  function Reports(docs: seq<Document>, outcomes: nat -> Outcome<RiskClause>): seq<Report>
  {
    seq(|docs|, i requires 0 <= i < |docs| =>
      Ready(PkgScorer.ClauseResult(ClauseIdOf(docs[i]), docs[i].pageContent, outcomes(i))))
  }

  /** `analyze_risk` (lines 24-32) with `res = await ...` at line 30. */
  method AnalyzeRisk(s: State, outcomes: nat -> Outcome<RiskClause>) returns (u: Update)
    ensures u == NoKeys.(riskAnalysis := Some(Reports(s.documents, outcomes)))
  {
    var docs := s.documents;
    var reports: seq<Report> := [];
    for i := 0 to |docs|
      invariant reports == Reports(docs[..i], outcomes)
    {
      var d := docs[i];
      var rid := ClauseIdOf(d);
      var res := PkgScorer.AnalyzeClause(rid, d.pageContent, outcomes(i));
      reports := reports + [Ready(res)];
    }
    assert docs[..|docs|] == docs;
    u := NoKeys.(riskAnalysis := Some(reports));
  }

  /** Every entry is a finished assessment. */
  predicate AllReady(reports: seq<Report>)
  {
    forall k :: 0 <= k < |reports| ==> reports[k].Ready?
  }

  /** The assessments of entries that are all finished. */
  function Values(reports: seq<Report>): (risks: seq<RiskClause>)
    requires AllReady(reports)
    ensures |risks| == |reports|
    ensures forall k :: 0 <= k < |reports| ==> reports[k] == Ready(risks[k])
  {
    seq(|reports|, k requires 0 <= k < |reports| => reports[k].rc)
  }

  const NoResults: string := "no results found"
  const AlertPart: string := "HIGH RISK ALERT:\n"
  const NoHighPart: string := "no high risk found"

  /** The message of the `AttributeError` that `r.risk_level` raises on a
      coroutine object. */
  const LevelError: string := "'coroutine' object has no attribute 'risk_level'"

  /** The first part: the count of all risks. */
  function HeaderPart(n: nat): string
  {
    "analyzed " + NatToString(n) + " clauses\n"
  }

  /** The part naming one High risk (line 45). */
  function ClausePart(r: RiskClause): string
  {
    "- " + r.clauseId + ": " + r.reason
  }

  /** The part giving one High risk's score and advice (line 46). */
  function ScorePart(r: RiskClause): string
  {
    "  score: " + IntToString(r.riskScore) + " | rec: " + r.recommendation + "\n"
  }

  /** The two parts `first` and `second` give each risk, risk by risk. */
  function HighParts(risks: seq<RiskClause>, first: RiskClause -> string, second: RiskClause -> string): seq<string>
  {
    if risks == [] then []
    else
      var r := risks[|risks| - 1];
      HighParts(risks[..|risks| - 1], first, second) + [first(r), second(r)]
  }

  /** The list `parts` of lines 39-48 for a non-empty list of risks. */
  function Parts(risks: seq<RiskClause>): seq<string>
  {
    var high := WithLevel(risks, "High");
    [HeaderPart(|risks|)] + if high == [] then [NoHighPart] else [AlertPart] + HighParts(high, ClausePart, ScorePart)
  }

  /** The answer of lines 37-50 over finished assessments. */
  function AnswerText(risks: seq<RiskClause>): string
  {
    if risks == [] then NoResults else Join("\n", Parts(risks))
  }

  /** What `generate_answer` makes of `risk_analysis`: the answer, or the
      error that a coroutine entry raises in the filter of line 40. */
  function Answer(reports: seq<Report>): Outcome<string>
  {
    if reports == [] then Success(NoResults)
    else if !AllReady(reports) then Failure(LevelError)
    else Success(AnswerText(Values(reports)))
  }

  /** `generate_answer` (lines 34-50): only the answer is returned, unless
      the node raises. */
  method GenerateAnswer(s: State) returns (u: Outcome<Update>)
    ensures Answer(s.riskAnalysis).Success? ==> u == Success(NoKeys.(finalAnswer := Some(Answer(s.riskAnalysis).value)))
    ensures Answer(s.riskAnalysis).Failure? ==> u == Failure(Answer(s.riskAnalysis).error)
  {
    var reports := s.riskAnalysis;
    if reports == [] {
      return Success(NoKeys.(finalAnswer := Some(NoResults)));
    }
    if !AllReady(reports) {
      return Failure(LevelError);
    }
    var risks := Values(reports);
    var parts := [HeaderPart(|risks|)];
    var high := WithLevel(risks, "High");
    if high != [] {
      var alerts := AppendParts([AlertPart], high, ClausePart, ScorePart);
      parts := parts + alerts;
    } else {
      parts := parts + [NoHighPart];
    }
    u := Success(NoKeys.(finalAnswer := Some(Join("\n", parts))));
  }

  /** The loop of lines 44-46: two parts appended for each High risk, after
      `parts`. */
  method AppendParts(parts: seq<string>, high: seq<RiskClause>, first: RiskClause -> string,
                     second: RiskClause -> string) returns (ps: seq<string>)
    ensures ps == parts + HighParts(high, first, second)
  {
    ps := parts;
    for i := 0 to |high|
      invariant ps == parts + HighParts(high[..i], first, second)
    {
      var r := high[i];
      assert (high[..i] + [r])[..i] == high[..i];
      assert high[..i + 1] == high[..i] + [r];
      ps := ps + [first(r)];
      ps := ps + [second(r)];
    }
    assert high[..|high|] == high;
  }

  /** Two parts per risk, in the order of the risks. */
  lemma {:induction false} HighPartsSpec(risks: seq<RiskClause>, first: RiskClause -> string, second: RiskClause -> string)
    ensures |HighParts(risks, first, second)| == 2 * |risks|
    ensures forall k :: 0 <= k < |risks| ==>
      HighParts(risks, first, second)[2 * k] == first(risks[k]) &&
      HighParts(risks, first, second)[2 * k + 1] == second(risks[k])
  {
    if risks != [] {
      var n := |risks| - 1;
      HighPartsSpec(risks[..n], first, second);
      assert forall k :: 0 <= k < n ==> risks[..n][k] == risks[k];
    }
  }

  /** The parts are the header, then either the fixed part alone or the
      alert and two parts for each High risk in order; every risk with the
      level exactly "High", and no other, is listed. */
  lemma PartsSpec(risks: seq<RiskClause>)
    ensures var high := WithLevel(risks, "High");
      var ps := Parts(risks);
      ps[0] == HeaderPart(|risks|) &&
      (high == [] ==> ps == [HeaderPart(|risks|), NoHighPart]) &&
      (high != [] ==> |ps| == 2 + 2 * |high| && ps[1] == AlertPart) &&
      (forall k :: 0 <= k < |high| ==> ps[2 + 2 * k] == ClausePart(high[k]) && ps[3 + 2 * k] == ScorePart(high[k]))
    ensures forall r :: r in WithLevel(risks, "High") <==> r in risks && r.riskLevel == "High"
  {
    WithLevelSpec(risks, "High");
    var high := WithLevel(risks, "High");
    if high != [] {
      HighPartsSpec(high, ClausePart, ScorePart);
      var hp := HighParts(high, ClausePart, ScorePart);
      assert Parts(risks) == [HeaderPart(|risks|)] + ([AlertPart] + hp);
    }
  }

  /** The answer is the header and the fixed part on separate lines when
      no risk is High. */
  lemma AnswerNoHigh(risks: seq<RiskClause>)
    requires risks != []
    requires forall k :: 0 <= k < |risks| ==> risks[k].riskLevel != "High"
    ensures AnswerText(risks) == HeaderPart(|risks|) + "\n" + NoHighPart
  {
    WithLevelNone(risks, "High");
    assert Parts(risks) == [HeaderPart(|risks|), NoHighPart];
    JoinPair("\n", HeaderPart(|risks|), NoHighPart);
  }

  /** With a High risk the answer opens with the header, a newline and the
      alert. */
  lemma AnswerAlert(risks: seq<RiskClause>, k: nat)
    requires k < |risks| && risks[k].riskLevel == "High"
    ensures StartsWith(AnswerText(risks), HeaderPart(|risks|) + "\n" + AlertPart)
  {
    WithLevelSpec(risks, "High");
    var high := WithLevel(risks, "High");
    assert risks[k] in high;
    var hp := HighParts(high, ClausePart, ScorePart);
    assert Parts(risks) == [HeaderPart(|risks|)] + ([AlertPart] + hp);
    assert Parts(risks) == [HeaderPart(|risks|), AlertPart] + hp;
    JoinTwoPrefix("\n", HeaderPart(|risks|), AlertPart, hp);
  }

  /** The node fails exactly when some entry of a non-empty list is not a
      finished assessment, and answers from the assessments otherwise. */
  lemma AnswerSpec(reports: seq<Report>)
    ensures Answer(reports).Failure? <==> exists k :: 0 <= k < |reports| && reports[k].Pending?
    ensures Answer(reports).Failure? ==> Answer(reports).error == LevelError
    ensures reports == [] ==> Answer(reports) == Success(NoResults)
    ensures (forall k :: 0 <= k < |reports| ==> reports[k].Ready?) ==>
      Answer(reports) == Success(AnswerText(seq(|reports|, k requires 0 <= k < |reports| => reports[k].rc)))
  {
  }

  /** A valid answer from finished assessments is never the text of an
      empty list. */
  lemma AnswerNotEmptyText(risks: seq<RiskClause>)
    requires risks != []
    ensures AnswerText(risks) != NoResults
  {
    var ps := Parts(risks);
    PartsSpec(risks);
    if |ps| == 1 {
      assert false;
    }
    var rest := Join("\n", ps[1..]);
    assert AnswerText(risks) == HeaderPart(|risks|) + "\n" + rest;
    assert AnswerText(risks)[0] == 'a' != NoResults[0];
  }

  /** The graph of workflow_graph.py, started from the state of
      web/web_server.py, with the call of line 30 awaited. */
  function Run<S>(query: string, search: (string, nat) -> seq<(Document, S)>,
                  outcomes: nat -> Outcome<RiskClause>): Outcome<State>
  {
    var s0 := State(query, [], [], "");
    var s1 := Apply(s0, Retrieve(s0, search));
    var s2 := Apply(s1, NoKeys.(riskAnalysis := Some(Reports(s1.documents, outcomes))));
    var a := Answer(s2.riskAnalysis);
    if a.Failure? then Failure(a.error) else Success(Apply(s2, NoKeys.(finalAnswer := Some(a.value))))
  }

  /** The same graph with `analyze_risk` as written. */
  function RunAsWritten<S>(query: string, search: (string, nat) -> seq<(Document, S)>): Outcome<State>
  {
    var s0 := State(query, [], [], "");
    var s1 := Apply(s0, Retrieve(s0, search));
    var s2 := Apply(s1, NoKeys.(riskAnalysis := Some(Unawaited(s1.documents))));
    var a := Answer(s2.riskAnalysis);
    if a.Failure? then Failure(a.error) else Success(Apply(s2, NoKeys.(finalAnswer := Some(a.value))))
  }

  /** As written, any search that finds a document makes the graph raise:
      the first coroutine entry has no `risk_level`. */
  lemma MissingAwaitFails<S>(query: string, search: (string, nat) -> seq<(Document, S)>)
    requires search(query, K) != []
    ensures RunAsWritten(query, search) == Failure(LevelError)
  {
    var s0 := State(query, [], [], "");
    var docs := Retrieve(s0, search).documents.value;
    var reports := Unawaited(docs);
    assert reports[0].Pending?;
  }

  /** With the call awaited the graph never raises: it keeps one report per
      retrieved document, in order, and answers from them. */
  lemma RunSpec<S>(query: string, search: (string, nat) -> seq<(Document, S)>, outcomes: nat -> Outcome<RiskClause>)
    ensures Run(query, search, outcomes).Success?
    ensures var r := Run(query, search, outcomes).value;
      r.query == query && |r.documents| == |search(query, K)| &&
      r.riskAnalysis == Reports(r.documents, outcomes) &&
      AllReady(r.riskAnalysis) &&
      r.finalAnswer == AnswerText(Values(r.riskAnalysis))
  {
    var s0 := State(query, [], [], "");
    var docs := Retrieve(s0, search).documents.value;
    assert AllReady(Reports(docs, outcomes));
  }
}
