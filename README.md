# AI legal document analyzer: a Dafny model of its core

The analyzer splits a contract into clauses, stores them in a vector
store, and answers a question about the contract. It runs a three-step
LangGraph workflow:

1. `retrieve` fetches the five clauses closest to the query.
2. `analyze_risk` scores every retrieved clause. A language model gives a
   first assessment. A fixed table of keyword rules then moves the score,
   and the risk level is recomputed from the score.
3. `generate_answer` writes the answer.

The repository carries three copies of this pipeline, and each copy is
modelled on its own, module by module:

| tree | splitter | rules | scorer | workflow nodes |
|---|---|---|---|---|
| `src/` | `SrcSplitter` | `SrcRules` | `SrcScorer` (single clause and batch) | `SrcNodes` (with statistics and a reasoning model) |
| `src/ai_legal_analyzer/` | `PkgSplitter` | `PkgRules` | `PkgScorer` | `PkgNodes` (async, with the missing `await`) |
| top level (`ingestion/`, `risk_engine/`, `workflows/`) | `RootSplitter` (adds a clause type) | `RootRules` (all-of keyword groups) | `RootScorer` | `RootNodes` (synchronous) |

Several modules are shared by the three trees:

- `ClausePattern` is the clause-boundary regular expression. It is a
  hand-written matcher. The module proves that the matcher returns the
  longest prefix in the language of the first alternative that matches,
  as Python's `re.match` does. Case is folded for ASCII letters only (see
  "## Left out").
- `ClauseChunks` is the line-grouping loop of `split_text` and the
  LangChain `Document`.
- `RuleEngine` evaluates any rule table.
- `RiskModel` holds the `RiskClause` record, the clamp to [1, 10], the
  score-to-level map and the level filter.
- `Text` holds string helpers:
  - `lower()`, `strip()` and `splitlines()`;
  - `"\n".join()` and substring search;
  - integer printing and parsing.

`SplitterCases` states the cases of the two splitter test files. Each case
is proved for every text of the tested shape, not just for the literal
strings.

Things outside the code are parameters of the model:

- the vector-store search;
- the language model's replies, as an `Outcome` (a value, or the message
  of the exception raised);
- the JSON parser.

Where a node returns a partial update, the update is an `Update` value.
Its `Option` fields say which keys are returned. `Apply` merges it into
the state, as LangGraph does.

`RiskClause` is a pydantic model that the scorers change in place. It is a
datatype here: each change builds a new value.

In `src/ai_legal_analyzer/workflows/workflow_nodes.py`, `analyze_risk`
calls the async `analyze_clause` without `await`. It therefore stores
coroutine objects, and `generate_answer` fails on the first
`r.risk_level`. `PkgNodes` models this as written and proves the failure.
It also models the evidently intended awaited version, which the rest of
the model uses (see "## Findings").

The clause id is matched against the whole chunk, as
src/ingestion/legal_splitter.py:54 does, not only against its first line.
Because `\s` matches line breaks, an id can then span two lines
(`ClausePattern.MarkerAcrossLines`).

tests/splitter_test.py:27-28 asserts that "1.1 Definitions" and
"1.2 Term" occur in the clause ids. The code labels those chunks "1.1" and
"1.2": the match ends at the first character that cannot continue the
number, as tests/test_splitter.py:22-23 expects.
`SplitterCases.HeadingChunkId` proves the id the code gives.
`SplitterCases.SimpleClauses` proves that the test's text gives three
documents, as line 16 expects. The text has an empty first line, two headed
clauses and a last line of spaces. The documents are the empty lead,
labelled "Intro", followed by one document per clause.

## Model

Functions that define an operation without a contract of their own (such
as `SrcNodes.Run`, `SrcScorer.Batch`, `SrcScorer.Validate` and
`SrcScorer.Rebuild`) are listed through the lemmas stated about them,
which cite the same lines.

| member | source | states |
|---|---|---|
| Text.Lower | src/risk_engine/risk_rules.py:23 | the model's `lower()` keeps the length and maps each character through the ASCII case map |
| Text.LowerIdempotent | ingestion/splitter.py:79-83 | lower-casing twice is lower-casing once, so a lower-cased chunk gets the same clause type |
| Text.StripStartSpec | src/ingestion/legal_splitter.py:55 | `lstrip` leaves a suffix with no leading whitespace, and everything dropped is whitespace |
| Text.StripEndSpec | src/ingestion/legal_splitter.py:55 | `rstrip` leaves a prefix with no trailing whitespace, and everything dropped is whitespace |
| Text.StripEmptyIff | src/ingestion/legal_splitter.py:52-53 | `chunk.strip()` is empty exactly when the chunk is all whitespace |
| Text.StripKeepsFirst | src/ingestion/legal_splitter.py:55 | stripping a string that starts with a non-space keeps that first character and ends on a non-space |
| Text.SplitLines | src/ingestion/legal_splitter.py:29 | no line of `splitlines()` holds a line break, and the empty text has no lines |
| Text.SplitLinesJoin | src/ingestion/legal_splitter.py:29-42 | `splitlines()` undoes `"\n".join` of a non-empty list of lines without line breaks whose last line is non-empty: the lines come back unchanged (Python drops a trailing empty line) |
| Text.SplitLinesCons | src/ingestion/legal_splitter.py:29 | a line followed by "\n" is the first line, and the rest is split on its own |
| Text.JoinAppend | src/ingestion/legal_splitter.py:36 | joining one more part appends the separator and that part |
| Text.JoinPrefix | src/ai_legal_analyzer/workflows/workflow_nodes.py:50 | a join starts with its first part |
| Text.ContainsIff | src/risk_engine/risk_rules.py:25 | the substring test `kw in text` holds exactly when the keyword occurs at some position |
| Text.NotContainsMissingChar | src/risk_engine/risk_rules.py:25 | a keyword holding a character the text lacks is not in the text |
| Text.NotInEmpty | src/risk_engine/risk_rules.py:25 | no non-empty keyword occurs in the empty text |
| Text.FirstIndexOf | src/risk_engine/risk_scorer.py:117 | the index found holds the character and none before it does; `None` exactly when the character is absent |
| Text.LastIndexOf | src/risk_engine/risk_scorer.py:117 | the index found holds the character and none after it does; `None` exactly when the character is absent |
| Text.NatToString | workflows/nodes.py:75 | the decimal numeral is non-empty, all digits, with no leading zero unless it is "0" |
| Text.ParseIntRoundTrip | src/risk_engine/risk_scorer.py:136 | `int(str(n))` gives back `n` for every integer, negative ones included |
| Text.ParseIntRejects | src/risk_engine/risk_scorer.py:136 | the model's `int()` rejects a string holding a non-digit anywhere other than a leading sign |
| Text.NatToStringRoundTrip | src/workflows/workflow_nodes.py:48 | the digits of `str(i)` read back as `i` |
| Text.NatToStringInjective | src/workflows/workflow_nodes.py:48 | different positions give different numerals |
| ClausePattern.Match | src/ingestion/legal_splitter.py:18-24 | a match is a non-empty prefix of the line |
| ClausePattern.ArticleSound | src/ingestion/legal_splitter.py:19 | what the first alternative matches is in the language of `\s*ARTICLE\s+[IVX0-9]+` |
| ClausePattern.ArticleComplete | src/ingestion/legal_splitter.py:19 | any prefix in that language is matched, and the match is at least as long |
| ClausePattern.SectionSound | src/ingestion/legal_splitter.py:20 | what the second alternative matches is in the language of `\s*SECTION\s+[0-9]+(\.[0-9]+)*` |
| ClausePattern.SectionComplete | src/ingestion/legal_splitter.py:20 | any prefix in that language is matched, and the match is at least as long |
| ClausePattern.DottedSound | src/ingestion/legal_splitter.py:21 | what the third alternative matches is in the language of `\s*[0-9]+\.[0-9]+(\.[0-9]+)*` |
| ClausePattern.DottedComplete | src/ingestion/legal_splitter.py:21 | any prefix in that language is matched, and the match is at least as long |
| ClausePattern.NumberedSound | src/ingestion/legal_splitter.py:22 | what the fourth alternative matches is in the language of `\s*[0-9]+\.\s+[A-Z]` |
| ClausePattern.NumberedComplete | src/ingestion/legal_splitter.py:22 | any prefix in that language is matched, and the match is at least as long |
| ClausePattern.AlternativesExclusive | src/ingestion/legal_splitter.py:18-24 | at most one alternative matches a string, so the order of the alternation never decides the result |
| ClausePattern.MatchIsLongestPrefix | src/ingestion/legal_splitter.py:18-24 | `pattern.match` returns the longest prefix in the pattern's language, and nothing when no prefix is in it |
| ClausePattern.BoundaryIff | src/ingestion/legal_splitter.py:34 | a line opens a clause exactly when some prefix of it is in the pattern's language |
| ClausePattern.MatchStart | src/ingestion/legal_splitter.py:18-24 | a match starts, after the leading whitespace, with a digit or the initial of ARTICLE or SECTION |
| ClausePattern.ClauseIdOfBoundary | src/ingestion/legal_splitter.py:54-55 | a clause id taken from a match is the stripped matched text: non-empty, starting where the leading whitespace of the chunk ends, and with no whitespace at either end |
| ClausePattern.FallbackIffNoMarker | src/ingestion/legal_splitter.py:54-55 | when the fallback starts with a letter outside the marker initials, a chunk gets the fallback id exactly when it opens with no clause marker |
| ClausePattern.DottedHeadingId | src/ingestion/legal_splitter.py:21 | a heading `d.d` not followed by a digit or a dot, as in "1.1 Definitions", is a boundary with id `d.d` |
| ClausePattern.ArticleHeadingId | src/ingestion/legal_splitter.py:19 | "ARTICLE I: INTRO", in any case, is a boundary with id "ARTICLE I" |
| ClausePattern.ArticleBoundary | src/ingestion/legal_splitter.py:19 | any line opening with ARTICLE, one space and a numeral is a boundary |
| ClausePattern.NotBoundary | src/ingestion/legal_splitter.py:34 | a line whose first character is no space, digit or marker initial is no boundary |
| ClausePattern.PreambleFallback | src/ingestion/legal_splitter.py:54-55 | a chunk opening with such a character gets the fallback id |
| ClausePattern.MarkerAcrossLines | src/ingestion/legal_splitter.py:18-24 | `\s` spans line breaks, so the chunk "1.\nD…" gets the two-line id "1.\nD" |
| ClauseChunks.Group | src/ingestion/legal_splitter.py:33-39 | there are no more groups than lines, and the empty line list gives no groups |
| ClauseChunks.GroupWellFormed | src/ingestion/legal_splitter.py:33-42 | no chunk is empty, each chunk but the first opens with a boundary line, and no later line of a chunk is one |
| ClauseChunks.JoinAllSpec | src/ingestion/legal_splitter.py:36 | chunk `k` is group `k` joined with "\n" |
| ClauseChunks.GroupLines | src/ingestion/legal_splitter.py:30-42 | the loop over the lines yields exactly the chunks of the grouping, for any boundary test |
| ClauseChunks.SplitText | ingestion/splitter.py:36-51 | the unguarded `split_text` yields the chunks of the text's lines |
| ClauseChunks.GroupOpen | src/ingestion/legal_splitter.py:34-36 | a boundary line closes the current chunk and opens a new one |
| ClauseChunks.GroupExtend | src/ingestion/legal_splitter.py:38-39 | any other line, after the first, joins the current chunk |
| ClauseChunks.FlattenGroup | src/ingestion/legal_splitter.py:33-42 | grouping neither loses, duplicates nor reorders lines |
| ClauseChunks.GroupCount | src/ingestion/legal_splitter.py:33-42 | one chunk per boundary line, plus one leading chunk when the text does not open with a boundary |
| ClauseChunks.JoinGroups | src/ingestion/legal_splitter.py:36-42 | joining the chunks with "\n" joins the lines themselves |
| ClauseChunks.ChunksRejoin | src/ingestion/legal_splitter.py:29-44 | rejoining the chunks with "\n" gives back the text's lines joined with "\n" |
| ClauseChunks.EmptyTextNoChunks | ingestion/splitter.py:36-51 | even without the guard, the empty text gives no chunks |
| SrcSplitter.SplitText | src/ingestion/legal_splitter.py:26-44 | "" gives no chunks; any other text gives the chunks of its lines |
| SrcSplitter.LabelChunks | src/ingestion/legal_splitter.py:51-58 | the inner loop yields the labelled documents of the non-blank chunks, for any labelling |
| SrcSplitter.CreateDocuments | src/ingestion/legal_splitter.py:46-59 | `create_documents` yields the documents of every text in order |
| SrcSplitter.KeptIndicesSpec | src/ingestion/legal_splitter.py:51-53 | the kept positions increase strictly, lie within the chunks, and are exactly the positions of non-blank chunks |
| SrcSplitter.ChunkDocumentsSpec | src/ingestion/legal_splitter.py:51-58 | the k-th document is the labelled document of the k-th non-blank chunk, so documents follow chunk order, one per non-blank chunk; each carries its chunk and the base metadata with only "clause_id" set |
| SrcSplitter.ChunkDocumentsAppend | src/ingestion/legal_splitter.py:51-58 | the documents of two runs of chunks are the documents of the first run followed by those of the second |
| SrcSplitter.ChunkDocumentsSingle | src/ingestion/legal_splitter.py:52-58 | a blank chunk gives no document and a non-blank chunk exactly one, labelled from its own text |
| SrcSplitter.ChunkDocumentsCount | src/ingestion/legal_splitter.py:52-53 | exactly the non-blank chunks become documents |
| SrcSplitter.DocumentsPerText | src/ingestion/legal_splitter.py:46-59 | the documents of all texts are, in text order, the documents of each text's chunks under that text's base metadata |
| SrcSplitter.DocumentsSpec | src/ingestion/legal_splitter.py:46-59 | no document is blank, and each comes from a chunk of some text and keeps that text's metadata with "clause_id" the only key changed |
| SrcSplitter.BlankTextNoDocuments | src/ingestion/legal_splitter.py:27-28 | an empty or all-whitespace text gives no documents |
| SrcSplitter.BlankChunk | src/ingestion/legal_splitter.py:29-42 | every chunk of a blank text is blank |
| SrcSplitter.AllBlankNoDocuments | src/ingestion/legal_splitter.py:52-53 | blank chunks only give no documents |
| SrcSplitter.SplitLinesBlank | src/ingestion/legal_splitter.py:29 | every line of a blank text is blank |
| SrcSplitter.JoinBlank | src/ingestion/legal_splitter.py:36 | blank lines joined with "\n" are blank |
| PkgSplitter.SplitText | src/ai_legal_analyzer/ingestion/legal_splitter.py:23-36 | "" gives no chunks; any other text gives the chunks of its lines |
| PkgSplitter.LabelChunks | src/ai_legal_analyzer/ingestion/legal_splitter.py:44-49 | the inner loop labels every chunk, blank ones included, for any labelling |
| PkgSplitter.CreateDocuments | src/ai_legal_analyzer/ingestion/legal_splitter.py:38-50 | `create_documents` yields the documents of every text in order |
| PkgSplitter.ChunkDocumentsSpec | src/ai_legal_analyzer/ingestion/legal_splitter.py:44-49 | one document per chunk, holding that chunk, with the base metadata and only "clause_id" set |
| PkgSplitter.ClauseDocumentSpec | src/ai_legal_analyzer/ingestion/legal_splitter.py:45-48 | a chunk's clause id is its stripped marker, or "Intro" exactly when it opens with none |
| PkgSplitter.DocumentsCount | src/ai_legal_analyzer/ingestion/legal_splitter.py:41-50 | the documents of several texts number as many as their chunks |
| RootSplitter.SplitText | ingestion/splitter.py:23-51 | "" gives no chunks; any other text gives the chunks of its lines |
| RootSplitter.LabelChunks | ingestion/splitter.py:69-86 | the inner loop labels every chunk with an id and, where a keyword occurs, a clause type |
| RootSplitter.CreateDocuments | ingestion/splitter.py:53-88 | `create_documents` yields the documents of every text in order |
| RootSplitter.ChunkDocumentsSpec | ingestion/splitter.py:69-86 | document `k` is made from chunk `k`, one document per chunk |
| RootSplitter.ClauseDocumentSpec | ingestion/splitter.py:71-86 | a document holds its chunk; its metadata is the base plus "clause_id" (the stripped marker, or "Intro/Recitals") plus "details" exactly when a type keyword occurs, every other base value unchanged |
| RootSplitter.ClauseKindPriority | ingestion/splitter.py:79-84 | the type is Indemnity when "indemn" occurs, else Termination when "terminat" does, else Liability when "liabil" does, else none |
| RootSplitter.ClauseKindIgnoresCase | ingestion/splitter.py:79 | the type does not depend on the case of the chunk |
| RootSplitter.IndemnityAt | ingestion/splitter.py:79-80 | a chunk with "indemn" at any position, in any case, is typed Indemnity |
| RootSplitter.DocumentsCount | ingestion/splitter.py:59-88 | the documents of several texts number as many as their chunks |
| SplitterCases.GroupFive | tests/test_splitter.py:13-17 | the five lines of the numbered-clause test form two groups, the empty line staying with the first |
| SplitterCases.HeadedClause | tests/test_splitter.py:50-53 | a heading and one body line make a single chunk |
| SplitterCases.MetadataPreserved | tests/test_splitter.py:49-53 | the caller's metadata is kept and "clause_id" is added beside it |
| SplitterCases.HeadingChunkId | tests/splitter_test.py:26-28 | a chunk opening with "d.d text" is labelled `d.d` only, not the whole heading the test expects |
| SplitterCases.TwoClauseChunks | tests/test_splitter.py:13-19 | two headed clauses with an empty line between them make two chunks |
| SplitterCases.NumberedClauses | tests/test_splitter.py:12-23 | two documents, labelled with their clause numbers, the empty line ending the first chunk |
| SplitterCases.ArticleClauses | tests/test_splitter.py:25-35 | two ARTICLE clauses give two documents, the first labelled with its heading up to the numeral |
| SplitterCases.ArticleChunkId | tests/splitter_test.py:42-43 | a chunk opening with an ARTICLE heading is labelled with the heading up to its numeral |
| SplitterCases.ArticleShapes | tests/test_splitter.py:26-30 | the test's literal ARTICLE lines have the shapes the general lemmas need |
| SplitterCases.BlankLeadChunks | tests/splitter_test.py:6-16 | a text whose first line is empty has the empty string as its first chunk |
| SplitterCases.BlankLeadKept | tests/splitter_test.py:13-16 | this splitter keeps that chunk as a document of its own, labelled "Intro", before the headed clause |
| SplitterCases.GroupFour | tests/splitter_test.py:6-9 | an empty line, a heading, a body line and an empty line form two groups |
| SplitterCases.GroupSeven | tests/splitter_test.py:6-12 | the seven lines of the test text form three groups: the empty lead and the two headed clauses |
| SplitterCases.JoinAllThree | src/ai_legal_analyzer/ingestion/legal_splitter.py:31-35 | joining three groups gives three chunks, each its group's lines joined with "\n" |
| SplitterCases.SimpleClausesChunks | tests/splitter_test.py:6-14 | the test text makes three chunks: the empty lead, then one chunk per headed clause |
| SplitterCases.ThreeDocuments | src/ai_legal_analyzer/ingestion/legal_splitter.py:44-49 | three chunks without base metadata give three documents in order, each labelled from its own chunk |
| SplitterCases.ThreeChunkText | src/ai_legal_analyzer/ingestion/legal_splitter.py:38-50 | a text of three chunks gives three documents carrying those chunks and their clause ids |
| SplitterCases.SimpleClauses | tests/splitter_test.py:5-28 | the test text gives three documents: the empty lead labelled "Intro", then the two clauses labelled "1.1" and "1.2" |
| SplitterCases.SimpleShapes | tests/splitter_test.py:7-12 | the test's literal headings have the heading shape and its last line is blank |
| ClausePattern.BlankNotBoundary | src/ingestion/legal_splitter.py:34 | a line of whitespace only is no boundary |
| SplitterCases.BlankLeadDropped | src/ingestion/legal_splitter.py:52-53 | the splitter under src/ingestion drops the blank leading chunk |
| SplitterCases.IntroFallback | tests/test_splitter.py:37-42 | one line without a clause marker is one document labelled "Intro" |
| SplitterCases.EmptyText | tests/test_splitter.py:44-47 | the empty text gives no documents |
| SplitterCases.TermHeadingShape | tests/test_splitter.py:50 | the test's literal heading has the tested shape |
| RuleEngine.Evaluate | src/risk_engine/risk_rules.py:19-28 | the loop returns the sum of the modifiers of the rules that fire on the lower-cased text, and their labels in table order |
| RuleEngine.FiredIndicesSpec | src/risk_engine/risk_rules.py:24-27 | the fired rules are listed in increasing table order, and a rule is listed exactly when all its keywords occur |
| RuleEngine.FiredLabelsSpec | src/risk_engine/risk_rules.py:27 | the labels are those of the fired rules, in order |
| RuleEngine.TotalModifierSpec | src/risk_engine/risk_rules.py:26 | the total is the sum of the fired rules' modifiers |
| RuleEngine.FiredLabelsDistinct | src/risk_engine/risk_rules.py:24-27 | with distinct labels in the table, no label is reported twice |
| RuleEngine.ModifierBounds | src/risk_engine/risk_rules.py:19-28 | the total lies between the sum of the negative modifiers and the sum of the positive ones |
| RuleEngine.NothingFiresOnEmpty | src/risk_engine/risk_rules.py:19-28 | with non-empty keywords, the empty text fires no rule |
| RuleEngine.OnlyRuleFires | src/risk_engine/risk_rules.py:24-27 | when exactly one rule fires, the total is its modifier and the labels are its label |
| RuleEngine.NoRuleFires | src/risk_engine/risk_rules.py:24-27 | when no rule fires, the total is 0 and there are no labels |
| RuleEngine.MissingKeyword | src/risk_engine/risk_rules.py:25 | a rule with a keyword absent from the text does not fire |
| SrcRules.Evaluate | src/risk_engine/risk_rules.py:19-28 | `evaluate` on this table is the rule engine on the lower-cased text |
| SrcRules.TableSums | src/risk_engine/risk_rules.py:9-17 | seven rules, with negative modifiers summing to -3 and positive ones to 15 |
| SrcRules.TableLabels | src/risk_engine/risk_rules.py:9-17 | the labels of the table are distinct |
| SrcRules.Bounds | src/risk_engine/risk_rules.py:19-28 | every text moves the score by -3 to +15, and no label is reported twice |
| SrcRules.EmptyText | src/risk_engine/risk_rules.py:19-28 | the empty text fires nothing |
| SrcRules.UnlimitedIndemnity | src/risk_engine/risk_rules.py:10 | a text with "indemnify" and "unlimited" that fires no other rule adds exactly 7, with the one label "unlimited indemnity" |
| SrcRules.CapNeedsCap | src/risk_engine/risk_rules.py:11 | the liability-cap rule needs "cap" |
| SrcRules.CapInsideCapital | src/risk_engine/risk_rules.py:11 | substring matching makes "capital" satisfy the "cap" keyword |
| PkgRules.Evaluate | src/ai_legal_analyzer/risk_engine/risk_rules.py:16-25 | `evaluate` on this table is the rule engine on the lower-cased text |
| PkgRules.TableSums | src/ai_legal_analyzer/risk_engine/risk_rules.py:8-14 | five rules, with negative modifiers summing to -2 and positive ones to 13 |
| PkgRules.TableLabels | src/ai_legal_analyzer/risk_engine/risk_rules.py:8-14 | the labels of the table are distinct |
| PkgRules.Bounds | src/ai_legal_analyzer/risk_engine/risk_rules.py:16-25 | every text moves the score by -2 to +13, and no label is reported twice |
| PkgRules.EmptyText | src/ai_legal_analyzer/risk_engine/risk_rules.py:16-25 | the empty text fires nothing |
| PkgRules.RenamedLabels | src/ai_legal_analyzer/risk_engine/risk_rules.py:10-13 | this copy's rules 1, 3 and 4 have the keywords and modifiers of the table under src/risk_engine, under other labels |
| RootRules.Evaluate | risk_engine/rules.py:43-65 | `evaluate` on this table is the rule engine on the lower-cased text |
| RootRules.TableSums | risk_engine/rules.py:10-41 | six rules, with negative modifiers summing to -2 and positive ones to 14 |
| RootRules.TableLabels | risk_engine/rules.py:10-41 | the labels of the table are distinct |
| RootRules.Bounds | risk_engine/rules.py:43-65 | every text moves the score by -2 to +14, and no label is reported twice |
| RootRules.EmptyText | risk_engine/rules.py:43-65 | the empty text fires nothing |
| RootRules.IndemnityNeedsClaim | risk_engine/rules.py:11-15 | the +7 indemnity rule does not fire on a text without "claim" |
| RootRules.TerminationNeedsAll | risk_engine/rules.py:21-25 | the termination rule fires exactly when all three of its keywords occur |
| RootRules.GoverningLawAddsOne | risk_engine/rules.py:26-30 | the governing-law rule adds 1 and fires exactly when "jurisdiction", "exclusive" and "governing law" all occur |
| RiskModel.Clamp | src/risk_engine/risk_scorer.py:91 | the clamped score is in [1, 10], equal to the input when the input is in range, else the nearer bound |
| RiskModel.LevelMonotone | src/risk_engine/risk_scorer.py:92 | the level is High, Medium or Low, and it never drops as the score rises |
| RiskModel.AdjustedSpec | src/risk_engine/risk_scorer.py:89-94 | after the rule step the record is consistent (score in range, level from score); only score, level and reason change; the old reason starts the new one, which is longer exactly when a label is appended |
| RiskModel.AdjustedIdle | src/risk_engine/risk_scorer.py:89-94 | with no rule fired, a consistent record passes unchanged |
| RiskModel.AdjustedIdempotent | src/risk_engine/risk_scorer.py:89-94 | a second rule step with nothing fired changes nothing |
| RiskModel.WithLevelSpec | workflows/nodes.py:73 | the filter keeps exactly the records with that level |
| RiskModel.WithLevelAppend | workflows/nodes.py:73 | the filter keeps the order: filtering a concatenation concatenates the filtered parts |
| RiskModel.WithLevelNone | workflows/nodes.py:73 | with no record at the level, nothing is kept |
| RiskModel.WithLevelSingle | workflows/nodes.py:73 | one record is kept exactly when it has the level |
| RiskModel.LevelCounts | src/workflows/workflow_nodes.py:79-81 | the High, Medium and Low counts add up to at most all records, and to all of them when every level is one of the three |
| RiskModel.ConsistentCounted | src/workflows/workflow_nodes.py:79-81 | consistent records are all counted under one of the three levels |
| SrcScorer.ApplyRules | src/risk_engine/risk_scorer.py:89-94 | the field-by-field rule step gives the adjusted record |
| SrcScorer.AnalyzeClause | src/risk_engine/risk_scorer.py:73-96 | `analyze_clause` gives the rule-adjusted model reply, or the rule-adjusted placeholder when the call raises |
| SrcScorer.FallbackAll | src/risk_engine/risk_scorer.py:151-154 | the fallback loop gives one single-clause result per clause, in order |
| SrcScorer.ScoreItems | src/risk_engine/risk_scorer.py:124-147 | the item loop gives the assessments of the parsed reply, or raises when an element does |
| SrcScorer.AnalyzeBatch | src/risk_engine/risk_scorer.py:98-154 | `analyze_batch` is the batch path when it gets through, and the per-clause fallback on any failure |
| SrcScorer.ItemsPrefixNone | src/risk_engine/risk_scorer.py:124-147 | once an element raises, the whole loop raises |
| SrcScorer.ItemsSpec | src/risk_engine/risk_scorer.py:124-147 | the loop succeeds exactly when every element's assessment does, and then gives them one per element, in order |
| SrcScorer.BaseInRange | src/risk_engine/risk_scorer.py:129-139 | a validated or rebuilt record has its score in [1, 10] |
| SrcScorer.RebuildExtendsValidate | src/risk_engine/risk_scorer.py:128-139 | where validation succeeds, the rebuild gives the same record |
| SrcScorer.EncodeValidate | src/risk_engine/risk_scorer.py:129-139 | a record in the prompt's schema validates back to itself when its score is in range, and is rebuilt with the score clamped otherwise |
| SrcScorer.EmptyObjectDefaults | src/risk_engine/risk_scorer.py:132-139 | an empty object fails validation and is rebuilt from the defaults |
| SrcScorer.WrongTypeRaises | src/risk_engine/risk_scorer.py:128-139 | a field of the wrong type that the rebuild does not repair makes the element raise |
| SrcScorer.LookupTextSpec | src/risk_engine/risk_scorer.py:125-127 | the text found is that of the first clause with the id, and "" when no clause has it |
| SrcScorer.UnmatchedId | src/risk_engine/risk_scorer.py:125-145 | an element naming no clause is scored on "": no rule fires, and only the level is recomputed |
| SrcScorer.ExtractArraySpec | src/risk_engine/risk_scorer.py:116-119 | when a '[' precedes a ']', the span from the first '[' to the last ']' is taken; otherwise the reply is kept |
| SrcScorer.ExtractArrayIdempotent | src/risk_engine/risk_scorer.py:116-119 | extracting twice gives what extracting once does |
| SrcScorer.EmptyBatch | src/risk_engine/risk_scorer.py:103-104 | no clauses give no assessments, whatever the model would say |
| SrcScorer.BatchConsistent | src/risk_engine/risk_scorer.py:98-154 | every assessment the batch returns is consistent |
| SrcScorer.BatchCount | src/risk_engine/risk_scorer.py:98-154 | one assessment per reply element when the batch path gets through; otherwise one per clause, with a failed clause keeping its id |
| SrcScorer.FailedClause | src/risk_engine/risk_scorer.py:78-96 | a failed call keeps the clause id, starts the reason with the error, and scores 5, "Medium", when no rule fires |
| SrcScorer.FailedIndemnity | src/risk_engine/risk_scorer.py:78-96 | the rules apply on top of the placeholder: an unlimited indemnity lifts a failed clause to 10, "High" |
| PkgScorer.AnalyzeClause | src/ai_legal_analyzer/risk_engine/risk_scorer.py:40-61 | `analyze_clause` gives the rule-adjusted reply, or the placeholder, untouched by the rules, when the call raises |
| PkgScorer.FailureIgnoresRules | src/ai_legal_analyzer/risk_engine/risk_scorer.py:45-54 | a failed call returns the placeholder whatever the text, with the clause id kept and the level "unknown", which matches no score |
| PkgScorer.SuccessSpec | src/ai_legal_analyzer/risk_engine/risk_scorer.py:56-61 | a reply's score becomes the clamp of the score plus the fired rules' total modifier, comes out consistent, and keeps its id, type and advice |
| PkgScorer.QuietText | src/ai_legal_analyzer/risk_engine/risk_scorer.py:56-61 | on the empty text a consistent reply passes unchanged |
| RootScorer.AnalyzeClause | risk_engine/scorer.py:42-82 | `analyze_clause` gives the rule-adjusted reply, or the placeholder, untouched by the rules, when the call raises |
| RootScorer.FailureIgnoresRules | risk_engine/scorer.py:54-64 | a failed call returns the placeholder whatever the text, with the clause id kept and the level "Unknown", which matches no score |
| RootScorer.SuccessSpec | risk_engine/scorer.py:66-82 | a reply's score becomes the clamp of the score plus the fired rules' total modifier, comes out consistent, and keeps its id, type and advice |
| RootScorer.QuietText | risk_engine/scorer.py:66-82 | on the empty text a consistent reply passes unchanged |
| SrcNodes.GenerateAnswer | src/workflows/workflow_nodes.py:64-142 | the node with its line-collecting loop returns the update `generate_answer` returns |
| SrcNodes.PassThroughIdle | src/workflows/workflow_nodes.py:65-67 | returning the whole state leaves it as it was |
| SrcNodes.RetrieveSpec | src/workflows/workflow_nodes.py:33-37 | `retrieve` changes only the documents: those the search returned, in order |
| SrcNodes.BatchClausesSpec | src/workflows/workflow_nodes.py:47-50 | the scorer sees every document, in order, under its own id or its position's |
| SrcNodes.DefaultIdsDistinct | src/workflows/workflow_nodes.py:48 | documents without a "clause_id" get pairwise different ids |
| SrcNodes.DefaultIdFindsText | src/workflows/workflow_nodes.py:47-50 | when no document carries "clause_id" metadata, a reply element naming a document's default id is scored on that document's text |
| SrcNodes.AnalyzeRiskSpec | src/workflows/workflow_nodes.py:42-59 | no documents set no risks and keep an earlier answer; a scorer that raises sets no risks and a failure answer; otherwise the risks are the scorer's |
| SrcNodes.ReportCounts | src/workflows/workflow_nodes.py:79-90 | every score is counted; the level counts add up to at most all risks, and to all of them when every level is High, Medium or Low |
| SrcNodes.AnswerReport | src/workflows/workflow_nodes.py:128-142 | with risks, the statistics are returned whether or not the reasoning model answers |
| SrcNodes.FailedAnswerLead | src/workflows/workflow_nodes.py:134-140 | a failed answer opens with "Answer generation failed: " and the error |
| SrcNodes.AnswerNoRisks | src/workflows/workflow_nodes.py:65-73 | with no risks, an answer already set passes through; with none set, the fixed message is all that is returned |
| SrcNodes.RunNothingFound | src/workflows/workflow_nodes.py:33-73 | a search that finds nothing ends in the fixed message, with no statistics |
| SrcNodes.RunScorerFails | src/workflows/workflow_nodes.py:42-67 | a scorer that raises ends in its failure message, passed through the answer step, with no statistics |
| SrcNodes.RunBatchCounts | src/workflows/workflow_nodes.py:42-90 | with the batch scorer, every assessment is counted under exactly one level |
| RootNodes.AnalyzeRisk | workflows/nodes.py:41-58 | the loop scores each document alone, in order, under its "clause_id" or "Unknown" |
| RootNodes.GenerateAnswer | workflows/nodes.py:60-85 | returns only the answer, built from the header and the alert or fixed line |
| RootNodes.AlertLines | workflows/nodes.py:79-81 | the loop appends a risk line and an advice line for each High risk, in order |
| RootNodes.ReportsSpec | workflows/nodes.py:41-58 | one report per document; a failed call keeps the document's id, or "Unknown", and is never High |
| RootNodes.AnswerHeader | workflows/nodes.py:75 | the answer opens with the count of all risks |
| RootNodes.AnswerNoHigh | workflows/nodes.py:82-83 | without a High risk, the empty list included, the fixed line follows the header |
| RootNodes.AnswerAlert | workflows/nodes.py:77-78 | with a High risk, the alert follows the header |
| RootNodes.BlocksSnoc | workflows/nodes.py:79-81 | one more High risk adds its two lines at the end |
| RootNodes.BlocksAppend | workflows/nodes.py:79-81 | the lines of two lists of risks run one after the other |
| RootNodes.AlertAppend | workflows/nodes.py:73-81 | one more risk adds its lines to the alert when it is High, and nothing otherwise |
| RootNodes.RunSpec | workflows/graph.py:4-23 | the graph run from the state of main.py keeps the query and the search results' documents in order, one report per document, and answers from those reports |
| RootNodes.RunAllFailed | workflows/nodes.py:41-85 | when every model call fails, the answer is the header and the fixed line |
| PkgNodes.Retrieve | src/ai_legal_analyzer/workflows/workflow_nodes.py:18-22 | only the documents are returned: those of the top-5 search results, in order |
| PkgNodes.AnalyzeRiskAsWritten | src/ai_legal_analyzer/workflows/workflow_nodes.py:24-32 | as written, the node stores an unawaited coroutine per document, not a report |
| PkgNodes.AnalyzeRisk | src/ai_legal_analyzer/workflows/workflow_nodes.py:24-32 | awaited, the loop stores one report per document, scored under its "clause_id" or "intro" |
| PkgNodes.Values | src/ai_legal_analyzer/workflows/workflow_nodes.py:40 | the records are those held by the reports, one per report, in order |
| PkgNodes.GenerateAnswer | src/ai_legal_analyzer/workflows/workflow_nodes.py:34-50 | the node returns the answer, or fails with AttributeError on a coroutine |
| PkgNodes.AppendParts | src/ai_legal_analyzer/workflows/workflow_nodes.py:44-46 | the loop appends two parts per High risk, in order |
| PkgNodes.HighPartsSpec | src/ai_legal_analyzer/workflows/workflow_nodes.py:44-46 | two parts per High risk: part 2k describes risk k, part 2k+1 gives its score and advice |
| PkgNodes.PartsSpec | src/ai_legal_analyzer/workflows/workflow_nodes.py:39-48 | the header comes first; then either the no-high line alone, or the alert and exactly the High risks' parts, in order |
| PkgNodes.AnswerNoHigh | src/ai_legal_analyzer/workflows/workflow_nodes.py:47-50 | without a High risk the answer is the header and the no-high line |
| PkgNodes.AnswerAlert | src/ai_legal_analyzer/workflows/workflow_nodes.py:42-43 | with a High risk the alert follows the header |
| PkgNodes.AnswerSpec | src/ai_legal_analyzer/workflows/workflow_nodes.py:34-50 | the answer fails exactly when some entry is a coroutine, with the AttributeError message; no risks give the fixed message |
| PkgNodes.AnswerNotEmptyText | src/ai_legal_analyzer/workflows/workflow_nodes.py:37-50 | an answer from some risks is never the no-results message |
| PkgNodes.MissingAwaitFails | src/ai_legal_analyzer/workflows/workflow_nodes.py:28-32 | as written, any query with a search result ends in the AttributeError |
| PkgNodes.RunSpec | src/ai_legal_analyzer/workflows/workflow_graph.py:4-20 | awaited, the graph succeeds, keeps the query and one report per document, and answers from those reports |

## Left out

- The language models, their prompts and `json.loads` are not modelled. Their results are parameters: `outcome`, `single`, `response`, `parse`, `reasoner`, `scorer` and `search`.
- Pydantic coercions are not modelled: a bool or an integral float passed as the int field, and numeric strings with surrounding whitespace. The model accepts integers and digit strings only.
- `asyncio.gather` in src/risk_engine/risk_scorer.py:151-154 is a sequential map. Its concurrency is not modelled.
- SrcNodes.ReportOf: the average score of src/workflows/workflow_nodes.py:83 is a float rounded to two places. The model keeps the sum and the count instead.
- SrcNodes.Answer: the dict branch of `get_attr` (line 77) is not modelled, because the scorer only returns `RiskClause` records.
- SrcNodes.Run: the graph module src/workflows/workflow_graph.py is not part of this model. The order retrieve, analyze_risk, generate_answer is taken from workflows/graph.py:15-19 and src/ai_legal_analyzer/workflows/workflow_graph.py:15-18.
- The vector store, the document loaders, the command line, the web server, configuration and logging are not modelled. They are I/O.
- Text.Lower: maps ASCII letters only. Python's `lower()` also maps other Unicode letters, and can change the length (`"İ".lower()` has two characters).
- ClausePattern.MatchIsLongestPrefix: case is folded for ASCII letters only. Under `re.IGNORECASE` Python also matches 'İ' (U+0130) and 'ı' (U+0131) for I, 'ſ' (U+017F) for S, and 'K' (U+212A) for K. This affects ARTICLE, SECTION, `[IVX0-9]` and `[A-Z]`: a line such as "1. İşbu Sözleşme" opens a clause in Python but not in the model.
- Text.ParseIntRejects: Python's `int()` also accepts surrounding whitespace (`int(" 7 ")`), `_` between digits (`int("1_0")`) and non-ASCII decimal digits. The model rejects these.
- SrcScorer.Rebuild: besides the strings above, `int()` at src/risk_engine/risk_scorer.py:136 truncates a JSON float (`int(7.5) == 7`). The model rejects every non-integer, non-string value (`IntOf(Other(_))` is None), so such a reply sends the batch to the per-clause fallback here.
- ClauseChunks.Metadata: metadata values are strings here. The caller's dicts may hold values of any type, and the splitters copy them unchanged.
- SrcSplitter.CreateDocuments: a non-empty `metadatas` shorter than `texts` raises IndexError in the source. It is a precondition here. The same holds for PkgSplitter.CreateDocuments and RootSplitter.CreateDocuments.
- `RiskClause` changed in place by the scorers is modelled as a value, so aliasing of the record is not captured.
- The `risk_models` module imported by src/ai_legal_analyzer/risk_engine/risk_scorer.py:6 is not part of this model. It is taken to hold the same record as src/risk_engine/risk_models.py.
- The early `return state` of src/workflows/workflow_nodes.py:67 returns every key. It is an update that sets each key to its current value.

## Findings

| source | as written | input that shows it | evidently intended | confidence | as-written member | corrected member |
|---|---|---|---|---|---|---|
| src/ai_legal_analyzer/workflows/workflow_nodes.py:30 | `analyze_clause` is async and is called without `await`, so `risk_analysis` holds coroutine objects and `generate_answer` raises AttributeError on `r.risk_level` (line 40) | any query for which the search returns at least one document | each report is awaited, so `risk_analysis` holds `RiskClause` records and the answer lists the High ones | not executed | PkgNodes.MissingAwaitFails | PkgNodes.RunSpec |
