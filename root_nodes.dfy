/** `LegalNodes` of workflows/nodes.py, the synchronous variant over the
    `GraphState` of lines 10-14, with no statistics: `retrieve`, an
    `analyze_risk` that scores each document on its own with the scorer of
    risk_engine/scorer.py, and a `generate_answer` that lists the High risks
    without a model call. The search and the model's per-clause answers are
    inputs. */
module RootNodes {
  import opened Text
  import opened RiskModel
  import ClauseChunks
  import RootScorer

  type Document = ClauseChunks.Document

  /** How many search results `retrieve` asks for (line 30). */
  const K: nat := 5

  datatype State = State(query: string, documents: seq<Document>, riskAnalysis: seq<RiskClause>, finalAnswer: string)

  /** The keys a node returns, each `None` when it is not returned. */
  datatype Update = Update(documents: Option<seq<Document>>, riskAnalysis: Option<seq<RiskClause>>, finalAnswer: Option<string>)

  const NoKeys: Update := Update(None, None, None)

  /** The graph merges an update into the state key by key. */
  function Apply(s: State, u: Update): State
  {
    State(s.query,
          if u.documents.Some? then u.documents.value else s.documents,
          if u.riskAnalysis.Some? then u.riskAnalysis.value else s.riskAnalysis,
          if u.finalAnswer.Some? then u.finalAnswer.value else s.finalAnswer)
  }

  /** `retrieve` (lines 21-39): the documents of the top-5 search results,
      in their order. */
  function Retrieve<S>(s: State, search: (string, nat) -> seq<(Document, S)>): Update
  {
    var results := search(s.query, K);
    NoKeys.(documents := Some(seq(|results|, i requires 0 <= i < |results| => results[i].0)))
  }

  /** `doc.metadata.get("clause_id", "Unknown")` */
  function ClauseIdOf(d: Document): string
  {
    if "clause_id" in d.metadata then d.metadata["clause_id"] else "Unknown"
  }

  /** The reports of `analyze_risk`: document `i` scored alone, the model
      call for it ending in `outcomes(i)`. */
  function Reports(docs: seq<Document>, outcomes: nat -> Outcome<RiskClause>): seq<RiskClause>
  {
    seq(|docs|, i requires 0 <= i < |docs| => RootScorer.ClauseResult(ClauseIdOf(docs[i]), docs[i].pageContent, outcomes(i)))
  }

  /** `analyze_risk` (lines 41-58) */
  method AnalyzeRisk(s: State, outcomes: nat -> Outcome<RiskClause>) returns (u: Update)
    ensures u == NoKeys.(riskAnalysis := Some(Reports(s.documents, outcomes)))
  {
    var documents := s.documents;
    var riskReports: seq<RiskClause> := [];
    for i := 0 to |documents|
      invariant riskReports == Reports(documents[..i], outcomes)
    {
      var doc := documents[i];
      var clauseId := ClauseIdOf(doc);
      var clauseText := doc.pageContent;
      var riskReport := RootScorer.AnalyzeClause(clauseId, clauseText, outcomes(i));
      riskReports := riskReports + [riskReport];
    }
    assert documents[..|documents|] == documents;
    u := NoKeys.(riskAnalysis := Some(riskReports));
  }

  const Alert: string := "⚠️ HIGH RISK ALERT:\n"
  const NoHigh: string := "No high-risk clauses detected in the retrieved context.\n"

  /** The answer's first line and the blank line after it. */
  function Header(n: nat): string
  {
    "Based on the analysis of " + NatToString(n) + " clauses:\n\n"
  }

  /** The line naming one High risk. */
  function RiskLine(r: RiskClause): string
  {
    "- Clause " + r.clauseId + " (" + r.clauseType + "): " + r.reason + " (Score: " + IntToString(r.riskScore) + "/10)\n"
  }

  /** The line of advice for one High risk. */
  function AdviceLine(r: RiskClause): string
  {
    "  Recommendation: " + r.recommendation + "\n"
  }

  /** The lines `line` and `advice` give several risks, risk by risk. */
  function Blocks(risks: seq<RiskClause>, line: RiskClause -> string, advice: RiskClause -> string): string
  {
    if risks == [] then ""
    else
      var r := risks[|risks| - 1];
      Blocks(risks[..|risks| - 1], line, advice) + (line(r) + advice(r))
  }

  /** The answer of lines 72-83. */
  function AnswerText(risks: seq<RiskClause>): string
  {
    var high := WithLevel(risks, "High");
    Header(|risks|) + if high == [] then NoHigh else Alert + Blocks(high, RiskLine, AdviceLine)
  }

  /** `generate_answer` (lines 60-85): only the answer is returned. */
  method GenerateAnswer(s: State) returns (u: Update)
    ensures u == NoKeys.(finalAnswer := Some(AnswerText(s.riskAnalysis)))
  {
    var risks := s.riskAnalysis;
    var highRisks := WithLevel(risks, "High");
    var answer := Header(|risks|);
    if highRisks != [] {
      var alerts := AlertLines(Alert, highRisks, RiskLine, AdviceLine);
      answer := answer + alerts;
    } else {
      answer := answer + NoHigh;
    }
    u := NoKeys.(finalAnswer := Some(answer));
  }

  /** The loop of lines 79-81: `answer +=` a risk line and an advice line
      for each High risk, after `answer`. */
  method AlertLines(answer: string, highRisks: seq<RiskClause>, line: RiskClause -> string, advice: RiskClause -> string)
    returns (text: string)
    ensures text == answer + Blocks(highRisks, line, advice)
  {
    text := answer;
    for i := 0 to |highRisks|
      invariant text == answer + Blocks(highRisks[..i], line, advice)
    {
      var r := highRisks[i];
      assert highRisks[..i + 1] == highRisks[..i] + [r];
      BlocksSnoc(highRisks[..i], r, line, advice);
      text := text + line(r);
      text := text + advice(r);
    }
    assert highRisks[..|highRisks|] == highRisks;
  }

  /** The graph of workflows/graph.py, started from the state of main.py. */
  function Run<S>(query: string, search: (string, nat) -> seq<(Document, S)>, outcomes: nat -> Outcome<RiskClause>): State
  {
    var s0 := State(query, [], [], "");
    var s1 := Apply(s0, Retrieve(s0, search));
    var s2 := Apply(s1, NoKeys.(riskAnalysis := Some(Reports(s1.documents, outcomes))));
    Apply(s2, NoKeys.(finalAnswer := Some(AnswerText(s2.riskAnalysis))))
  }

  /** One report per document, in order; a document whose call failed is
      reported under its own id, or "Unknown", and never as High. */
  lemma ReportsSpec(docs: seq<Document>, outcomes: nat -> Outcome<RiskClause>)
    ensures |Reports(docs, outcomes)| == |docs|
    ensures forall i :: 0 <= i < |docs| && outcomes(i).Failure? ==>
      Reports(docs, outcomes)[i].clauseId == (if "clause_id" in docs[i].metadata then docs[i].metadata["clause_id"] else "Unknown") &&
      Reports(docs, outcomes)[i].riskLevel != "High"
  {
    assert "Unknown"[0] != "High"[0];
  }

  /** The answer opens with the count of all risks. */
  lemma AnswerHeader(risks: seq<RiskClause>)
    ensures StartsWith(AnswerText(risks), "Based on the analysis of " + NatToString(|risks|) + " clauses:\n\n")
  {
    var h := Header(|risks|);
    var high := WithLevel(risks, "High");
    assert AnswerText(risks) == h + (if high == [] then NoHigh else Alert + Blocks(high, RiskLine, AdviceLine));
  }

  /** Without a High risk, the empty list included, the fixed line follows
      the header. */
  lemma AnswerNoHigh(risks: seq<RiskClause>)
    requires forall k :: 0 <= k < |risks| ==> risks[k].riskLevel != "High"
    ensures AnswerText(risks) == Header(|risks|) + NoHigh
  {
    WithLevelNone(risks, "High");
  }

  /** With a High risk, the alert follows the header. */
  lemma AnswerAlert(risks: seq<RiskClause>, k: nat)
    requires k < |risks| && risks[k].riskLevel == "High"
    ensures StartsWith(AnswerText(risks), Header(|risks|) + Alert)
  {
    WithLevelSpec(risks, "High");
    var high := WithLevel(risks, "High");
    assert risks[k] in high;
    var b := Blocks(high, RiskLine, AdviceLine);
    assert AnswerText(risks) == Header(|risks|) + (Alert + b);
    StartsWithPieces(Header(|risks|), Alert, b);
  }

  /** One more risk adds its text at the end. */
  lemma BlocksSnoc(risks: seq<RiskClause>, r: RiskClause, line: RiskClause -> string, advice: RiskClause -> string)
    ensures Blocks(risks + [r], line, advice) == Blocks(risks, line, advice) + (line(r) + advice(r))
  {
    assert (risks + [r])[..|risks|] == risks;
  }

  /** The blocks of two lists run one after the other. */
  lemma {:induction false} BlocksAppend(a: seq<RiskClause>, b: seq<RiskClause>, line: RiskClause -> string,
                                       advice: RiskClause -> string)
    ensures Blocks(a + b, line, advice) == Blocks(a, line, advice) + Blocks(b, line, advice)
    decreases |b|
  {
    if b == [] {
      assert a + b == a;
    } else {
      var n := |b| - 1;
      BlocksAppend(a, b[..n], line, advice);
      assert (a + b)[..|a + b| - 1] == a + b[..n];
      assert (a + b)[|a + b| - 1] == b[n];
    }
  }

  /** The alert lists the High risks in their order: one more risk adds its
      block at the end when it is High, and nothing otherwise. */
  lemma AlertAppend(risks: seq<RiskClause>, r: RiskClause)
    ensures Blocks(WithLevel(risks + [r], "High"), RiskLine, AdviceLine) ==
      Blocks(WithLevel(risks, "High"), RiskLine, AdviceLine) +
        (if r.riskLevel == "High" then RiskLine(r) + AdviceLine(r) else "")
  {
    WithLevelAppend(risks, [r], "High");
    WithLevelSingle(r, "High");
    BlocksAppend(WithLevel(risks, "High"), WithLevel([r], "High"), RiskLine, AdviceLine);
    assert Blocks([r], RiskLine, AdviceLine) == RiskLine(r) + AdviceLine(r) by {
      assert [r][..0] == [];
    }
  }

  /** The graph keeps the retrieved documents in the search's order, one
      report per document, and answers from those reports. */
  lemma RunSpec<S>(query: string, search: (string, nat) -> seq<(Document, S)>, outcomes: nat -> Outcome<RiskClause>)
    ensures var r := Run(query, search, outcomes);
      |r.documents| == |search(query, K)| &&
      (forall i :: 0 <= i < |r.documents| ==> r.documents[i] == search(query, K)[i].0) &&
      r.riskAnalysis == Reports(r.documents, outcomes) &&
      r.finalAnswer == AnswerText(r.riskAnalysis) && r.query == query
  {
  }

  /** When every model call fails, no High risk is reported and the answer
      is the header and the fixed line. */
  lemma RunAllFailed<S>(query: string, search: (string, nat) -> seq<(Document, S)>, outcomes: nat -> Outcome<RiskClause>)
    requires forall i: nat :: outcomes(i).Failure?
    ensures var r := Run(query, search, outcomes);
      r.finalAnswer == Header(|search(query, K)|) + NoHigh
  {
    var r := Run(query, search, outcomes);
    ReportsSpec(r.documents, outcomes);
    AnswerNoHigh(r.riskAnalysis);
  }
}
