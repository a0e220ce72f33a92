/** The cases of tests/test_splitter.py and tests/splitter_test.py, stated
    about the model of src/ai_legal_analyzer/ingestion/legal_splitter.py
    (and, for a leading blank line, src/ingestion/legal_splitter.py) for
    every text of the tested shape rather than for the tests' literal
    strings.
 */
module SplitterCases {
  import opened Text
  import opened ClausePattern
  import ClauseChunks
  import opened PkgSplitter
  import SrcSplitter

  /** A heading line such as "1.1 Definitions": a dotted clause number of
      two one-digit groups, then more text that does not continue the number. */
  predicate Heading(h: string)
  {
    NoLineBreak(h) && |h| > 3 && IsDigit(h[0]) && h[1] == '.' && IsDigit(h[2]) &&
    !IsDigit(h[3]) && h[3] != '.'
  }

  /** A line that cannot open a clause, such as "The term is 1 year." or the
      empty line: it starts with no space, digit, "a" or "s". */
  predicate BodyLine(l: string)
  {
    NoLineBreak(l) &&
    (l != [] ==> !IsSpace(l[0]) && !IsDigit(l[0]) && ToLower(l[0]) != 'a' && ToLower(l[0]) != 's')
  }

  /** A heading line such as "ARTICLE I: INTRO": ARTICLE in any case, one
      space, one numeral, then something other than a numeral. */
  predicate ArticleHeading(a: string)
  {
    ArticleLine(a) && (|a| > 9 ==> !IsNumeral(a[9]))
  }

  /** A line such as "ARTICLE II: TERMS": ARTICLE, one space, a numeral. */
  predicate ArticleLine(a: string)
  {
    NoLineBreak(a) && KeywordAt(a, 0, "article") && |a| >= 9 && a[7] == ' ' && IsNumeral(a[8])
  }

  /** The documents of a single text. */
  lemma SingleText(text: string, metadatas: seq<ClauseChunks.Metadata>)
    requires metadatas == [] || 1 <= |metadatas|
    ensures Documents([text], metadatas) == ChunkDocuments(ClauseChunks.Chunks(text), ClauseChunks.BaseMetadata(metadatas, 0), ClauseLabel)
  {
    assert |[text][..0]| == 0;
  }

  /** A single line is a single group. */
  lemma GroupOne(a: string, opens: string -> bool)
    ensures ClauseChunks.Group([a], opens) == [[a]]
  {
    assert |[a][..0]| == 0;
  }

  /** Two lines, the second not opening a group, form one group. */
  lemma GroupTwo(a: string, b: string, opens: string -> bool)
    requires !opens(b)
    ensures ClauseChunks.Group([a, b], opens) == [[a, b]]
  {
    GroupOne(a, opens);
    ClauseChunks.GroupExtend([a], opens, [], [a], b);
    assert [a] + [b] == [a, b];
  }

  /** The five lines of `test_split_numbered_clauses` form two groups. */
  lemma GroupFive(h1: string, b1: string, e: string, h2: string, b2: string, opens: string -> bool)
    requires !opens(b1) && !opens(e) && opens(h2) && !opens(b2)
    ensures ClauseChunks.Group([h1, b1, e, h2, b2], opens) == [[h1, b1, e], [h2, b2]]
  {
    GroupTwo(h1, b1, opens);
    ClauseChunks.GroupExtend([h1, b1], opens, [], [h1, b1], e);
    assert [h1, b1] + [e] == [h1, b1, e];
    assert ClauseChunks.Group([h1, b1, e], opens) == [[h1, b1, e]];
    ClauseChunks.GroupOpen([h1, b1, e], opens, [], [h1, b1, e], h2);
    assert [h1, b1, e] + [h2] == [h1, b1, e, h2];
    assert [] + [[h1, b1, e]] + [[h2]] == [[h1, b1, e], [h2]];
    ClauseChunks.GroupExtend([h1, b1, e, h2], opens, [[h1, b1, e]], [h2], b2);
    assert [h1, b1, e, h2] + [b2] == [h1, b1, e, h2, b2];
    assert [h2] + [b2] == [h2, b2];
    assert [[h1, b1, e]] + [[h2] + [b2]] == [[h1, b1, e], [h2, b2]];
  }

  /** A heading and one body line make a single chunk. */
  lemma HeadedClause(h: string, b: string)
    requires Heading(h) && BodyLine(b) && b != []
    ensures ClauseChunks.Chunks(Join("\n", [h, b])) == [Join("\n", [h, b])]
  {
    SplitLinesJoin([h, b]);
    NotBoundary(b);
    GroupTwo(h, b, IsBoundary);
    assert |[[h, b]][..0]| == 0;
    assert ClauseChunks.JoinAll([[h, b]]) == [Join("\n", [h, b])];
  }

  /** `test_metadata_preserved`: the caller's metadata is kept and the clause
      id is added beside it. */
  lemma MetadataPreserved(h: string, b: string, base: ClauseChunks.Metadata)
    requires Heading(h) && BodyLine(b) && b != []
    ensures Documents([Join("\n", [h, b])], [base]) ==
      [ClauseChunks.Document(Join("\n", [h, b]), base["clause_id" := h[..3]])]
  {
    HeadedClause(h, b);
    HeadingChunkId([h, b]);
    OneChunkText(Join("\n", [h, b]), h[..3], base);
  }

  /** A text that is one chunk with the given clause id gives one document. */
  lemma OneChunkText(text: string, id: string, base: ClauseChunks.Metadata)
    requires ClauseChunks.Chunks(text) == [text]
    requires ClauseId(text, Fallback) == id
    ensures Documents([text], [base]) == [ClauseChunks.Document(text, base["clause_id" := id])]
  {
    SingleText(text, [base]);
    assert |[text][..0]| == 0;
    assert ChunkDocuments([text], base, ClauseLabel) == [ClauseDocument(text, base, ClauseLabel)];
  }

  /** A chunk opening with a heading line is labelled with its number. */
  lemma HeadingChunkId(lines: seq<string>)
    requires lines != [] && Heading(lines[0])
    ensures ClauseId(Join("\n", lines), Fallback) == lines[0][..3]
  {
    var h := lines[0];
    var c := Join("\n", lines);
    JoinPrefix("\n", lines);
    assert c[..|h|] == h;
    assert c[..3] == h[..3] && c[3] == h[3] by {
      assert c[..|h|][..3] == c[..3];
      assert c[..|h|][3] == c[3];
    }
    DottedHeadingId(c, Fallback);
  }

  /** Two clauses, the second opening with a boundary line, separated by
      an empty line, make two chunks; the empty line stays at the end of the
      first. */
  lemma TwoClauseChunks(h1: string, b1: string, h2: string, b2: string)
    requires NoLineBreak(h1) && BodyLine(b1) && NoLineBreak(h2) && IsBoundary(h2)
    requires BodyLine(b2) && b2 != []
    ensures ClauseChunks.Chunks(Join("\n", [h1, b1, "", h2, b2])) ==
      [Join("\n", [h1, b1, ""]), Join("\n", [h2, b2])]
  {
    FiveLines(h1, b1, h2, b2);
    NotBoundary(b1);
    NotBoundary("");
    NotBoundary(b2);
    GroupFive(h1, b1, "", h2, b2, IsBoundary);
    JoinAllTwo([h1, b1, ""], [h2, b2]);
  }

  lemma FiveLines(h1: string, b1: string, h2: string, b2: string)
    requires NoLineBreak(h1) && BodyLine(b1) && NoLineBreak(h2) && BodyLine(b2) && b2 != []
    ensures SplitLines(Join("\n", [h1, b1, "", h2, b2])) == [h1, b1, "", h2, b2]
  {
    SplitLinesJoin([h1, b1, "", h2, b2]);
  }

  lemma JoinAllTwo(g1: seq<string>, g2: seq<string>)
    ensures ClauseChunks.JoinAll([g1, g2]) == [Join("\n", g1), Join("\n", g2)]
  {
    assert [g1, g2][..1] == [g1];
    assert |[g1][..0]| == 0;
    assert ClauseChunks.JoinAll([g1]) == [Join("\n", g1)];
  }

  /** `test_split_numbered_clauses`: two headed clauses separated by an
      empty line give two documents, each labelled with its clause number;
      the empty line stays at the end of the first chunk. */
  lemma NumberedClauses(h1: string, b1: string, h2: string, b2: string)
    requires Heading(h1) && BodyLine(b1) && Heading(h2) && BodyLine(b2) && b2 != []
    ensures
      var c1 := Join("\n", [h1, b1, ""]);
      var c2 := Join("\n", [h2, b2]);
      Documents([Join("\n", [h1, b1, "", h2, b2])], []) ==
        [ClauseChunks.Document(c1, map["clause_id" := h1[..3]]),
         ClauseChunks.Document(c2, map["clause_id" := h2[..3]])]
  {
    var text := Join("\n", [h1, b1, "", h2, b2]);
    DottedHeadingId(h2, Fallback);
    TwoClauseChunks(h1, b1, h2, b2);
    HeadingChunkId([h1, b1, ""]);
    HeadingChunkId([h2, b2]);
    TwoChunkText(text, Join("\n", [h1, b1, ""]), Join("\n", [h2, b2]), h1[..3], h2[..3]);
  }

  /** A text of two chunks with the given clause ids gives two documents. */
  lemma TwoChunkText(text: string, c1: string, c2: string, id1: string, id2: string)
    requires ClauseChunks.Chunks(text) == [c1, c2]
    requires ClauseId(c1, Fallback) == id1 && ClauseId(c2, Fallback) == id2
    ensures Documents([text], []) ==
      [ClauseChunks.Document(c1, map["clause_id" := id1]),
       ClauseChunks.Document(c2, map["clause_id" := id2])]
  {
    SingleText(text, []);
    assert [c1, c2][..1] == [c1];
    assert |[c1][..0]| == 0;
    assert ChunkDocuments([c1], map[], ClauseLabel) == [ClauseDocument(c1, map[], ClauseLabel)];
    assert ChunkDocuments([c1, c2], map[], ClauseLabel) ==
      [ClauseDocument(c1, map[], ClauseLabel), ClauseDocument(c2, map[], ClauseLabel)];
  }

  /** `test_split_articles`: two ARTICLE clauses separated by an empty line
      give two documents, the first labelled with its "ARTICLE" heading up to
      the numeral. */
  lemma ArticleClauses(a1: string, b1: string, a2: string, b2: string)
    requires ArticleHeading(a1) && BodyLine(b1) && ArticleLine(a2) && BodyLine(b2) && b2 != []
    ensures
      var c1 := Join("\n", [a1, b1, ""]);
      var c2 := Join("\n", [a2, b2]);
      Documents([Join("\n", [a1, b1, "", a2, b2])], []) ==
        [ClauseChunks.Document(c1, map["clause_id" := a1[..9]]),
         ClauseChunks.Document(c2, map["clause_id" := ClauseLabel(c2)])]
  {
    var text := Join("\n", [a1, b1, "", a2, b2]);
    ArticleBoundary(a2);
    TwoClauseChunks(a1, b1, a2, b2);
    ArticleChunkId([a1, b1, ""]);
    TwoChunkText(text, Join("\n", [a1, b1, ""]), Join("\n", [a2, b2]), a1[..9], ClauseLabel(Join("\n", [a2, b2])));
  }

  /** A chunk opening with an ARTICLE heading is labelled with the heading
      up to its numeral. */
  lemma ArticleChunkId(lines: seq<string>)
    requires lines != [] && ArticleHeading(lines[0])
    ensures ClauseId(Join("\n", lines), Fallback) == lines[0][..9]
  {
    var h := lines[0];
    var c := Join("\n", lines);
    JoinPrefix("\n", lines);
    assert c[..|h|] == h;
    assert forall k :: 0 <= k < |h| ==> c[k] == h[k] by {
      assert forall k :: 0 <= k < |h| ==> c[..|h|][k] == c[k];
    }
    if |c| > 9 && |h| == 9 {
      assert c == h + "\n" + Join("\n", lines[1..]);
      assert c[9] == '\n';
    }
    assert KeywordAt(c, 0, "article");
    ArticleHeadingId(c, Fallback);
    assert c[..9] == h[..9];
  }

  /** The literal lines of `test_split_articles` have the tested shapes. */
  lemma ArticleShapes()
    ensures ArticleHeading("ARTICLE I: INTRO") && "ARTICLE I: INTRO"[..9] == "ARTICLE I"
    ensures ArticleLine("ARTICLE II: TERMS")
  {
    ArticleKeyword("ARTICLE I: INTRO");
    ArticleKeyword("ARTICLE II: TERMS");
    var a1 := "ARTICLE I: INTRO";
    var a2 := "ARTICLE II: TERMS";
    assert forall i :: 0 <= i < |a1| ==> ' ' <= a1[i] <= 'Z';
    assert forall i :: 0 <= i < |a2| ==> ' ' <= a2[i] <= 'Z';
  }

  /** A line that starts with upper-case "ARTICLE" holds the keyword. */
  lemma ArticleKeyword(a: string)
    requires |a| >= 7 && a[..7] == "ARTICLE"
    ensures KeywordAt(a, 0, "article")
  {
    forall k | 0 <= k < 7 ensures ToLower(a[k]) == "article"[k] {
      assert a[k] == a[..7][k];
    }
  }

  /** The first line of tests/splitter_test.py is empty: the text's first
      chunk is then the empty string. */
  lemma BlankLeadChunks(h: string, b: string)
    requires Heading(h) && BodyLine(b) && b != []
    ensures ClauseChunks.Chunks(Join("\n", ["", h, b])) == ["", Join("\n", [h, b])]
  {
    SplitLinesJoin(["", h, b]);
    NotBoundary("");
    DottedHeadingId(h, Fallback);
    NotBoundary(b);
    GroupOne("", IsBoundary);
    ClauseChunks.GroupOpen([""], IsBoundary, [], [""], h);
    assert [""] + [h] == ["", h];
    assert [] + [[""]] + [[h]] == [[""], [h]];
    ClauseChunks.GroupExtend(["", h], IsBoundary, [[""]], [h], b);
    assert ["", h] + [b] == ["", h, b];
    assert [h] + [b] == [h, b];
    assert [[""]] + [[h] + [b]] == [[""], [h, b]];
    JoinAllTwo([""], [h, b]);
  }

  /** This splitter keeps the blank leading chunk: it becomes a document of
      its own, labelled "Intro", before the headed clause. */
  lemma BlankLeadKept(h: string, b: string)
    requires Heading(h) && BodyLine(b) && b != []
    ensures Documents([Join("\n", ["", h, b])], []) ==
      [ClauseChunks.Document("", map["clause_id" := "Intro"]),
       ClauseChunks.Document(Join("\n", [h, b]), map["clause_id" := h[..3]])]
  {
    BlankLeadChunks(h, b);
    NotBoundary("");
    HeadingChunkId([h, b]);
    TwoChunkText(Join("\n", ["", h, b]), "", Join("\n", [h, b]), "Intro", h[..3]);
  }

  /** The splitter under src/ingestion drops the blank leading chunk. */
  lemma BlankLeadDropped(h: string, b: string)
    requires Heading(h) && BodyLine(b) && b != []
    ensures SrcSplitter.Documents([Join("\n", ["", h, b])], []) ==
      [ClauseChunks.Document(Join("\n", [h, b]), map["clause_id" := h[..3]])]
  {
    var text := Join("\n", ["", h, b]);
    var c := Join("\n", [h, b]);
    BlankLeadChunks(h, b);
    HeadingChunkId([h, b]);
    JoinPrefix("\n", [h, b]);
    assert c[0] == c[..|h|][0];
    assert !IsBlank(c);
    assert |[text][..0]| == 0;
    assert SrcSplitter.Documents([text], []) == SrcSplitter.ChunkDocuments(["", c], map[], SrcSplitter.ClauseLabel);
    assert ["", c][..1] == [""];
    assert |[""][..0]| == 0;
    assert SrcSplitter.ChunkDocuments([""], map[], SrcSplitter.ClauseLabel) == [];
  }

  /** A first line, then a heading, a body line and an empty line, form
      two groups. */
  lemma GroupFour(x: string, h1: string, b1: string, e: string, opens: string -> bool)
    requires opens(h1) && !opens(b1) && !opens(e)
    ensures ClauseChunks.Group([x, h1, b1, e], opens) == [[x], [h1, b1, e]]
  {
    GroupOne(x, opens);
    ClauseChunks.GroupOpen([x], opens, [], [x], h1);
    assert [x] + [h1] == [x, h1];
    assert [] + [[x]] + [[h1]] == [[x], [h1]];
    ClauseChunks.GroupExtend([x, h1], opens, [[x]], [h1], b1);
    assert [x, h1] + [b1] == [x, h1, b1];
    assert [h1] + [b1] == [h1, b1];
    ClauseChunks.GroupExtend([x, h1, b1], opens, [[x]], [h1, b1], e);
    assert [x, h1, b1] + [e] == [x, h1, b1, e];
    assert [h1, b1] + [e] == [h1, b1, e];
  }

  /** The seven lines of the first text of tests/splitter_test.py form three
      groups: the first line alone, then the two headed clauses. */
  lemma GroupSeven(x: string, h1: string, b1: string, e: string, h2: string, b2: string, w: string,
                   opens: string -> bool)
    requires opens(h1) && !opens(b1) && !opens(e) && opens(h2) && !opens(b2) && !opens(w)
    ensures ClauseChunks.Group([x, h1, b1, e, h2, b2, w], opens) == [[x], [h1, b1, e], [h2, b2, w]]
  {
    var four := [x, h1, b1, e];
    GroupFour(x, h1, b1, e, opens);
    ClauseChunks.GroupOpen(four, opens, [[x]], [h1, b1, e], h2);
    assert four + [h2] == [x, h1, b1, e, h2];
    assert [[x]] + [[h1, b1, e]] + [[h2]] == [[x], [h1, b1, e], [h2]];
    ClauseChunks.GroupExtend(four + [h2], opens, [[x], [h1, b1, e]], [h2], b2);
    assert [x, h1, b1, e, h2] + [b2] == [x, h1, b1, e, h2, b2];
    assert [h2] + [b2] == [h2, b2];
    ClauseChunks.GroupExtend([x, h1, b1, e, h2, b2], opens, [[x], [h1, b1, e]], [h2, b2], w);
    assert [x, h1, b1, e, h2, b2] + [w] == [x, h1, b1, e, h2, b2, w];
    assert [h2, b2] + [w] == [h2, b2, w];
  }

  lemma JoinAllThree(g0: seq<string>, g1: seq<string>, g2: seq<string>)
    ensures ClauseChunks.JoinAll([g0, g1, g2]) == [Join("\n", g0), Join("\n", g1), Join("\n", g2)]
  {
    JoinAllTwo(g0, g1);
    assert [g0, g1, g2][..2] == [g0, g1];
    ClauseChunks.JoinAllSnoc([g0, g1], g2);
    assert [g0, g1] + [g2] == [g0, g1, g2];
  }

  /** The first text of tests/splitter_test.py: an empty first line, two
      headed clauses separated by an empty line, and a last line of spaces,
      make three chunks: the empty lead and one chunk per clause. */
  lemma SimpleClausesChunks(h1: string, b1: string, h2: string, b2: string, w: string)
    requires Heading(h1) && BodyLine(b1) && Heading(h2) && BodyLine(b2)
    requires NoLineBreak(w) && w != [] && IsBlank(w)
    ensures ClauseChunks.Chunks(Join("\n", ["", h1, b1, "", h2, b2, w])) ==
      ["", Join("\n", [h1, b1, ""]), Join("\n", [h2, b2, w])]
  {
    var lines := ["", h1, b1, "", h2, b2, w];
    assert forall k :: 0 <= k < |lines| ==> NoLineBreak(lines[k]);
    SplitLinesJoin(lines);
    DottedHeadingId(h1, Fallback);
    DottedHeadingId(h2, Fallback);
    NotBoundary(b1);
    NotBoundary("");
    NotBoundary(b2);
    BlankNotBoundary(w);
    GroupSeven("", h1, b1, "", h2, b2, w, IsBoundary);
    JoinAllThree([""], [h1, b1, ""], [h2, b2, w]);
  }

  /** A text of three chunks with the given clause ids gives three
      documents. */
  lemma ThreeChunkText(text: string, c0: string, c1: string, c2: string, id0: string, id1: string, id2: string)
    requires ClauseChunks.Chunks(text) == [c0, c1, c2]
    requires ClauseId(c0, Fallback) == id0 && ClauseId(c1, Fallback) == id1 && ClauseId(c2, Fallback) == id2
    ensures Documents([text], []) ==
      [ClauseChunks.Document(c0, map["clause_id" := id0]),
       ClauseChunks.Document(c1, map["clause_id" := id1]),
       ClauseChunks.Document(c2, map["clause_id" := id2])]
  {
    SingleText(text, []);
    ThreeDocuments(c0, c1, c2, ClauseLabel);
  }

  /** Three chunks without base metadata give three documents, each
      labelled by `idOf`. */
  lemma ThreeDocuments(c0: string, c1: string, c2: string, idOf: string -> string)
    ensures ChunkDocuments([c0, c1, c2], map[], idOf) ==
      [ClauseChunks.Document(c0, map["clause_id" := idOf(c0)]),
       ClauseChunks.Document(c1, map["clause_id" := idOf(c1)]),
       ClauseChunks.Document(c2, map["clause_id" := idOf(c2)])]
  {
    var docs := ChunkDocuments([c0, c1, c2], map[], idOf);
    ChunkDocumentsSpec([c0, c1, c2], map[], idOf);
    assert docs[0] == ClauseDocument(c0, map[], idOf);
    assert docs[1] == ClauseDocument(c1, map[], idOf);
    assert docs[2] == ClauseDocument(c2, map[], idOf);
  }

  /** `test_split_simple_clauses` (tests/splitter_test.py:5-28): three
      documents, as line 16 expects: the empty lead labelled "Intro", then
      the two clauses labelled with their numbers only, where lines 27-28
      look for the whole headings. */
  lemma SimpleClauses(h1: string, b1: string, h2: string, b2: string, w: string)
    requires Heading(h1) && BodyLine(b1) && Heading(h2) && BodyLine(b2)
    requires NoLineBreak(w) && w != [] && IsBlank(w)
    ensures
      var c1 := Join("\n", [h1, b1, ""]);
      var c2 := Join("\n", [h2, b2, w]);
      Documents([Join("\n", ["", h1, b1, "", h2, b2, w])], []) ==
        [ClauseChunks.Document("", map["clause_id" := "Intro"]),
         ClauseChunks.Document(c1, map["clause_id" := h1[..3]]),
         ClauseChunks.Document(c2, map["clause_id" := h2[..3]])]
  {
    var text := Join("\n", ["", h1, b1, "", h2, b2, w]);
    SimpleClausesChunks(h1, b1, h2, b2, w);
    NotBoundary("");
    HeadingChunkId([h1, b1, ""]);
    HeadingChunkId([h2, b2, w]);
    ThreeChunkText(text, "", Join("\n", [h1, b1, ""]), Join("\n", [h2, b2, w]), "Intro", h1[..3], h2[..3]);
  }

  /** The literal headings and last line of `test_split_simple_clauses`
      have the tested shapes. */
  lemma SimpleShapes()
    ensures Heading("1.1 Definitions") && Heading("1.2 Term")
    ensures NoLineBreak("        ") && IsBlank("        ")
  {
    var h1 := "1.1 Definitions";
    var h2 := "1.2 Term";
    assert forall i :: 0 <= i < |h1| ==> ' ' <= h1[i] <= 'z';
    assert forall i :: 0 <= i < |h2| ==> ' ' <= h2[i] <= 'z';
  }

  /** `test_intro_fallback`: a single line without a clause marker is one
      document labelled "Intro". */
  lemma IntroFallback(p: string)
    requires BodyLine(p) && p != []
    ensures Documents([p], []) == [ClauseChunks.Document(p, map["clause_id" := "Intro"])]
  {
    SplitLinesSingle(p);
    GroupOne(p, IsBoundary);
    assert |[[p]][..0]| == 0;
    assert ClauseChunks.JoinAll([[p]]) == [Join("\n", [p])];
    assert ClauseChunks.Chunks(p) == [p];
    SingleText(p, []);
    PreambleFallback(p, Fallback);
    assert |[p][..0]| == 0;
  }

  /** `test_empty_text`: the empty text gives no documents. */
  lemma EmptyText()
    ensures Documents([""], []) == []
  {
    SingleText("", []);
  }

  /** The literal heading of `test_metadata_preserved` has the tested shape. */
  lemma TermHeadingShape()
    ensures Heading("1.1 Term")
  {
    var h := "1.1 Term";
    assert forall i :: 0 <= i < |h| ==> ' ' <= h[i] <= 'z';
  }
}
