/** `LegalNodes` of src/workflows/workflow_nodes.py: the three workflow
    steps over `GraphState` (lines 10-15), each returning a partial update
    that the graph merges into the state. The vector store's search, the
    scorer and the reasoning model are inputs. */
module SrcNodes {
  import opened Text
  import opened RiskModel
  import ClauseChunks
  import SrcScorer

  type Document = ClauseChunks.Document

  /** How many search results `retrieve` asks for. */
  const K: nat := 5

  /** `overall_report`, with the integer sum and count of the scores in
      place of their rounded average. */
  datatype Report = Report(scoreSum: int, scoreCount: nat, highCount: nat, mediumCount: nat, lowCount: nat)

  /** `GraphState`; an absent `final_answer` is the empty string, which is
      as false as a missing key. */
  datatype State = State(
    query: string,
    documents: seq<Document>,
    riskAnalysis: seq<RiskClause>,
    finalAnswer: string,
    overallReport: Option<Report>)

  /** The keys a node returns, each `None` when it is not returned. */
  datatype Update = Update(
    documents: Option<seq<Document>>,
    riskAnalysis: Option<seq<RiskClause>>,
    finalAnswer: Option<string>,
    overallReport: Option<Report>)

  const NoKeys: Update := Update(None, None, None, None)

  /** The graph merges an update into the state key by key. */
  function Apply(s: State, u: Update): State
  {
    State(s.query,
          if u.documents.Some? then u.documents.value else s.documents,
          if u.riskAnalysis.Some? then u.riskAnalysis.value else s.riskAnalysis,
          if u.finalAnswer.Some? then u.finalAnswer.value else s.finalAnswer,
          if u.overallReport.Some? then u.overallReport else s.overallReport)
  }

  /** `return state`: every key returned as it is. */
  function PassThrough(s: State): Update
  {
    Update(Some(s.documents), Some(s.riskAnalysis), Some(s.finalAnswer), s.overallReport)
  }

  /** `retrieve` (lines 33-37): the documents of the top-5 search results,
      in their order. */
  function Retrieve<S>(s: State, search: (string, nat) -> seq<(Document, S)>): Update
  {
    var results := search(s.query, K);
    NoKeys.(documents := Some(seq(|results|, i requires 0 <= i < |results| => results[i].0)))
  }

  /** The id a document is scored under: its "clause_id", else
      "clause_<i>" for its position `i`. */
  function ClauseIdAt(d: Document, i: nat): string
  {
    if "clause_id" in d.metadata then d.metadata["clause_id"] else "clause_" + NatToString(i)
  }

  /** The clauses handed to the scorer (lines 47-50). */
  function BatchClauses(docs: seq<Document>): seq<SrcScorer.ClauseInput>
  {
    seq(|docs|, i requires 0 <= i < |docs| => SrcScorer.ClauseInput(ClauseIdAt(docs[i], i), docs[i].pageContent))
  }

  /** `analyze_risk` (lines 42-59); `scorer` is `analyze_batch`, which may
      raise. */
  function AnalyzeRisk(s: State, scorer: seq<SrcScorer.ClauseInput> -> Outcome<seq<RiskClause>>): Update
  {
    if s.documents == [] then NoKeys.(riskAnalysis := Some([]))
    else
      var reports := scorer(BatchClauses(s.documents));
      if reports.Success? then NoKeys.(riskAnalysis := Some(reports.value))
      else NoKeys.(riskAnalysis := Some([]), finalAnswer := Some("Risk analysis failed: " + reports.error))
  }

  const NoClauses: string := "No relevant clauses found. Try a different query or ingest a document first."
  const QuotaNote: string := "This is often caused by API quota limits (free tier: ~20 requests/day). Please wait and try again later."

  /** The sum of the scores. */
  function ScoreSum(risks: seq<RiskClause>): int
  {
    if risks == [] then 0 else ScoreSum(risks[..|risks| - 1]) + risks[|risks| - 1].riskScore
  }

  /** The statistics of lines 79-90. */
  function ReportOf(risks: seq<RiskClause>): Report
  {
    Report(ScoreSum(risks), |risks|, |WithLevel(risks, "High")|, |WithLevel(risks, "Medium")|, |WithLevel(risks, "Low")|)
  }

  /** One line of the clause analysis handed to the reasoning model. */
  function SegmentLine(r: RiskClause): string
  {
    "- Clause " + r.clauseId + " (" + r.riskLevel + ", Score: " + IntToString(r.riskScore) + "/10): " + r.reason +
      "\n  Recommendation: " + r.recommendation
  }

  /** The lines of lines 92-101: one per assessment, in order. */
  function SegmentLines(risks: seq<RiskClause>): seq<string>
  {
    seq(|risks|, i requires 0 <= i < |risks| => SegmentLine(risks[i]))
  }

  /** The answer given when the reasoning model raises `error`. */
  function FailedAnswer(error: string): string
  {
    "Answer generation failed: " + error + "\n\n" + QuotaNote
  }

  /** `generate_answer` (lines 64-142); `reasoner` is the reasoning model,
      given the question, the statistics and the clause analysis that the
      prompt is made of. */
  function Answer(s: State, reasoner: (string, Report, string) -> Outcome<string>): Update
  {
    if s.finalAnswer != [] && s.riskAnalysis == [] then PassThrough(s)
    else if s.riskAnalysis == [] then NoKeys.(finalAnswer := Some(NoClauses))
    else
      var report := ReportOf(s.riskAnalysis);
      var reply := reasoner(s.query, report, Join("\n", SegmentLines(s.riskAnalysis)));
      NoKeys.(finalAnswer := Some(if reply.Success? then reply.value else FailedAnswer(reply.error)),
              overallReport := Some(report))
  }

  /** `generate_answer`, with the loop that collects the segment lines. */
  method GenerateAnswer(s: State, reasoner: (string, Report, string) -> Outcome<string>) returns (u: Update)
    ensures u == Answer(s, reasoner)
  {
    if s.finalAnswer != [] && s.riskAnalysis == [] {
      return PassThrough(s);
    }
    var risks := s.riskAnalysis;
    if risks == [] {
      return NoKeys.(finalAnswer := Some(NoClauses));
    }
    var overallReport := ReportOf(risks);
    var segmentLines: seq<string> := [];
    for i := 0 to |risks|
      invariant segmentLines == SegmentLines(risks[..i])
    {
      var r := risks[i];
      segmentLines := segmentLines + [SegmentLine(r)];
    }
    assert risks[..|risks|] == risks;
    var segmentText := Join("\n", segmentLines);
    var response := reasoner(s.query, overallReport, segmentText);
    if response.Success? {
      u := NoKeys.(finalAnswer := Some(response.value), overallReport := Some(overallReport));
    } else {
      u := NoKeys.(finalAnswer := Some(FailedAnswer(response.error)), overallReport := Some(overallReport));
    }
  }

  /** The state a query starts from. */
  function Initial(query: string): State
  {
    State(query, [], [], "", None)
  }

  /** The graph: retrieve, then analyze_risk, then generate_answer. The
      graph module of this tree is not part of this model; the order is
      that of the graphs of the other two trees. */
  function Run<S>(query: string, search: (string, nat) -> seq<(Document, S)>,
                  scorer: seq<SrcScorer.ClauseInput> -> Outcome<seq<RiskClause>>,
                  reasoner: (string, Report, string) -> Outcome<string>): State
  {
    var s1 := Apply(Initial(query), Retrieve(Initial(query), search));
    var s2 := Apply(s1, AnalyzeRisk(s1, scorer));
    Apply(s2, Answer(s2, reasoner))
  }

  /** Passing the state through leaves it as it was. */
  lemma PassThroughIdle(s: State)
    ensures Apply(s, PassThrough(s)) == s
  {
  }

  /** `retrieve` changes only the documents: as many as the search
      returned, in its order. */
  lemma RetrieveSpec<S>(s: State, search: (string, nat) -> seq<(Document, S)>)
    ensures var t := Apply(s, Retrieve(s, search));
      t.(documents := s.documents) == s && |t.documents| == |search(s.query, 5)| &&
      forall i :: 0 <= i < |t.documents| ==> t.documents[i] == search(s.query, 5)[i].0
  {
  }

  /** The scorer sees every document, in order, under its own id or its
      position's. */
  lemma BatchClausesSpec(docs: seq<Document>)
    ensures |BatchClauses(docs)| == |docs|
    ensures forall i :: 0 <= i < |docs| ==>
      BatchClauses(docs)[i].text == docs[i].pageContent &&
      BatchClauses(docs)[i].id == (if "clause_id" in docs[i].metadata then docs[i].metadata["clause_id"] else "clause_" + NatToString(i))
  {
  }

  /** Documents without a "clause_id" get ids no two of which are equal. */
  lemma DefaultIdsDistinct(docs: seq<Document>, i: nat, j: nat)
    requires i < j < |docs|
    requires "clause_id" !in docs[i].metadata && "clause_id" !in docs[j].metadata
    ensures BatchClauses(docs)[i].id != BatchClauses(docs)[j].id
  {
    if BatchClauses(docs)[i].id == BatchClauses(docs)[j].id {
      var a := NatToString(i);
      var b := NatToString(j);
      assert "clause_" + a == "clause_" + b;
      assert a == ("clause_" + a)[7..] == ("clause_" + b)[7..] == b;
      NatToStringInjective(i, j);
    }
  }

  /** An item of the batch reply that names a document's own default id is
      scored on that document's text. */
  lemma DefaultIdFindsText(docs: seq<Document>, k: nat)
    requires k < |docs|
    requires forall i :: 0 <= i < |docs| ==> "clause_id" !in docs[i].metadata
    ensures SrcScorer.LookupText(BatchClauses(docs), "clause_" + NatToString(k)) == docs[k].pageContent
  {
    var clauses := BatchClauses(docs);
    assert clauses[k].id == "clause_" + NatToString(k);
    forall j | 0 <= j < k ensures clauses[j].id != "clause_" + NatToString(k) {
      DefaultIdsDistinct(docs, j, k);
    }
    SrcScorer.LookupTextSpec(clauses, "clause_" + NatToString(k));
  }

  /** No documents: only the risk analysis is set, to [], and an earlier
      answer is kept. A failing scorer: no risks and a failure answer. */
  lemma AnalyzeRiskSpec(s: State, scorer: seq<SrcScorer.ClauseInput> -> Outcome<seq<RiskClause>>)
    ensures s.documents == [] ==> Apply(s, AnalyzeRisk(s, scorer)) == s.(riskAnalysis := [])
    ensures s.documents != [] && scorer(BatchClauses(s.documents)).Failure? ==>
      Apply(s, AnalyzeRisk(s, scorer)) ==
        s.(riskAnalysis := [], finalAnswer := "Risk analysis failed: " + scorer(BatchClauses(s.documents)).error)
    ensures s.documents != [] && scorer(BatchClauses(s.documents)).Success? ==>
      Apply(s, AnalyzeRisk(s, scorer)) == s.(riskAnalysis := scorer(BatchClauses(s.documents)).value)
  {
  }

  /** The statistics count each level once: at most all of the risks, and
      all of them when every level is High, Medium or Low. */
  lemma ReportCounts(risks: seq<RiskClause>)
    ensures var r := ReportOf(risks);
      r.scoreCount == |risks| && r.highCount + r.mediumCount + r.lowCount <= |risks|
    ensures (forall k :: 0 <= k < |risks| ==> risks[k].riskLevel in {"High", "Medium", "Low"}) ==>
      var r := ReportOf(risks);
      r.highCount + r.mediumCount + r.lowCount == |risks|
  {
    LevelCounts(risks);
  }

  /** With risks to report, the statistics are returned whether or not the
      reasoning model answers; its failure is reported with a fixed lead. */
  lemma AnswerReport(s: State, reasoner: (string, Report, string) -> Outcome<string>)
    requires s.riskAnalysis != []
    ensures Apply(s, Answer(s, reasoner)).overallReport == Some(ReportOf(s.riskAnalysis))
    ensures var reply := reasoner(s.query, ReportOf(s.riskAnalysis), Join("\n", SegmentLines(s.riskAnalysis)));
      reply.Failure? ==> StartsWith(Apply(s, Answer(s, reasoner)).finalAnswer, "Answer generation failed: " + reply.error)
  {
    var reply := reasoner(s.query, ReportOf(s.riskAnalysis), Join("\n", SegmentLines(s.riskAnalysis)));
    if reply.Failure? {
      FailedAnswerLead(reply.error);
    }
  }

  lemma FailedAnswerLead(error: string)
    ensures StartsWith(FailedAnswer(error), "Answer generation failed: " + error)
  {
    var p := "Answer generation failed: " + error;
    assert FailedAnswer(error) == p + ("\n\n" + QuotaNote);
  }

  /** An answer already set, with no risks, passes through untouched; with
      no risks and no answer, the fixed message is all that is returned. */
  lemma AnswerNoRisks(s: State, reasoner: (string, Report, string) -> Outcome<string>)
    requires s.riskAnalysis == []
    ensures s.finalAnswer != [] ==> Apply(s, Answer(s, reasoner)) == s
    ensures s.finalAnswer == [] ==> Apply(s, Answer(s, reasoner)) == s.(finalAnswer := NoClauses)
  {
  }

  /** A search that finds nothing ends in the fixed message, with no
      statistics. */
  lemma RunNothingFound<S>(query: string, search: (string, nat) -> seq<(Document, S)>,
                           scorer: seq<SrcScorer.ClauseInput> -> Outcome<seq<RiskClause>>,
                           reasoner: (string, Report, string) -> Outcome<string>)
    requires search(query, K) == []
    ensures Run(query, search, scorer, reasoner).finalAnswer == NoClauses
    ensures Run(query, search, scorer, reasoner).overallReport == None
  {
    var s1 := Apply(Initial(query), Retrieve(Initial(query), search));
    assert s1.documents == [];
  }

  /** A scorer that raises ends in its failure message, passed through the
      answer step, with no statistics. */
  lemma RunScorerFails<S>(query: string, search: (string, nat) -> seq<(Document, S)>,
                          scorer: seq<SrcScorer.ClauseInput> -> Outcome<seq<RiskClause>>,
                          reasoner: (string, Report, string) -> Outcome<string>)
    requires search(query, K) != []
    requires var s1 := Apply(Initial(query), Retrieve(Initial(query), search));
      scorer(BatchClauses(s1.documents)).Failure?
    ensures var s1 := Apply(Initial(query), Retrieve(Initial(query), search));
      var r := Run(query, search, scorer, reasoner);
      r.finalAnswer == "Risk analysis failed: " + scorer(BatchClauses(s1.documents)).error &&
      r.riskAnalysis == [] && r.overallReport == None
  {
    var s1 := Apply(Initial(query), Retrieve(Initial(query), search));
    assert |s1.documents| == |search(query, K)|;
  }

  /** With the batch scorer of src/risk_engine/risk_scorer.py, every
      assessment it returns is counted under exactly one level. */
  lemma RunBatchCounts<S>(query: string, search: (string, nat) -> seq<(Document, S)>,
                          response: Outcome<string>, parse: string -> Option<seq<SrcScorer.Entry>>,
                          single: nat -> Outcome<RiskClause>,
                          reasoner: (string, Report, string) -> Outcome<string>)
    requires var s1 := Apply(Initial(query), Retrieve(Initial(query), search));
      SrcScorer.Batch(BatchClauses(s1.documents), response, parse, single) != []
    ensures var r := Run(query, search, cs => Success(SrcScorer.Batch(cs, response, parse, single)), reasoner);
      r.overallReport.Some? &&
      r.overallReport.value.highCount + r.overallReport.value.mediumCount + r.overallReport.value.lowCount ==
        r.overallReport.value.scoreCount == |r.riskAnalysis|
  {
    var s1 := Apply(Initial(query), Retrieve(Initial(query), search));
    var risks := SrcScorer.Batch(BatchClauses(s1.documents), response, parse, single);
    SrcScorer.BatchConsistent(BatchClauses(s1.documents), response, parse, single);
    assert forall k :: 0 <= k < |risks| ==> risks[k] in risks;
    ConsistentCounted(risks);
  }
}
