/** `LegalClauseSplitter` of ingestion/splitter.py: `split_text` (lines
    23-51), which has no guard for the empty text, and `create_documents`
    (lines 53-88), which labels every chunk with its clause id, falling back
    to "Intro/Recitals", and tags it "Indemnity", "Termination" or
    "Liability" by the first of the keywords "indemn", "terminat", "liabil"
    that occurs in its lower-cased text.
 */
module RootSplitter {
  import opened Text
  import opened ClausePattern
  import ClauseChunks

  const Fallback: string := "Intro/Recitals"

  /** `split_text`: the lines of `text` grouped at clause headings. The
      empty text has no lines and so gives no chunks without a guard. */
  method SplitText(text: string) returns (chunks: seq<string>)
    ensures chunks == ClauseChunks.Chunks(text)
    ensures text == [] ==> chunks == []
  {
    chunks := ClauseChunks.SplitText(text);
    if text == [] {
      ClauseChunks.EmptyTextNoChunks();
    }
  }

  /** The clause id `create_documents` gives a chunk. */
  function ClauseLabel(chunk: string): string
  {
    ClauseId(chunk, Fallback)
  }

  /** The clause-type heuristic: the "details" value for a chunk, if any. */
  function ClauseKind(chunk: string): Option<string>
  {
    var low := Lower(chunk);
    if Contains(low, "indemn") then Some("Indemnity")
    else if Contains(low, "terminat") then Some("Termination")
    else if Contains(low, "liabil") then Some("Liability")
    else None
  }

  /** The document for one chunk: `base`, then "clause_id" set by `idOf`,
      then "details" set when `kindOf` gives a value. */
  function ClauseDocument(chunk: string, base: ClauseChunks.Metadata, idOf: string -> string,
                          kindOf: string -> Option<string>): ClauseChunks.Document
  {
    var meta := base["clause_id" := idOf(chunk)];
    var kind := kindOf(chunk);
    ClauseChunks.Document(chunk, if kind.Some? then meta["details" := kind.value] else meta)
  }

  /** The documents of one text: one per chunk, in chunk order. */
  function ChunkDocuments(chunks: seq<string>, base: ClauseChunks.Metadata, idOf: string -> string,
                          kindOf: string -> Option<string>): seq<ClauseChunks.Document>
  {
    if chunks == [] then []
    else
      ChunkDocuments(chunks[..|chunks| - 1], base, idOf, kindOf) +
        [ClauseDocument(chunks[|chunks| - 1], base, idOf, kindOf)]
  }

  /** What `create_documents(texts, metadatas)` returns. */
  function Documents(texts: seq<string>, metadatas: seq<ClauseChunks.Metadata>): seq<ClauseChunks.Document>
    requires metadatas == [] || |texts| <= |metadatas|
  {
    if texts == [] then []
    else
      var n := |texts| - 1;
      Documents(texts[..n], metadatas) +
        ChunkDocuments(ClauseChunks.Chunks(texts[n]), ClauseChunks.BaseMetadata(metadatas, n), ClauseLabel, ClauseKind)
  }

  /** The inner loop of `create_documents` over one text's chunks, for any
      clause id and clause type of chunks. */
  method LabelChunks(clauses: seq<string>, base: ClauseChunks.Metadata, idOf: string -> string,
                     kindOf: string -> Option<string>) returns (documents: seq<ClauseChunks.Document>)
    ensures documents == ChunkDocuments(clauses, base, idOf, kindOf)
  {
    documents := [];
    for j := 0 to |clauses|
      invariant documents == ChunkDocuments(clauses[..j], base, idOf, kindOf)
    {
      var clause := clauses[j];
      var clauseId := idOf(clause);
      var meta := base["clause_id" := clauseId];
      var kind := kindOf(clause);
      if kind.Some? {
        meta := meta["details" := kind.value];
      }
      documents := documents + [ClauseChunks.Document(clause, meta)];
      assert clauses[..j + 1][..j] == clauses[..j];
    }
    assert clauses[..|clauses|] == clauses;
  }

  /** `create_documents`; a non-empty `metadatas` shorter than `texts`
      raises `IndexError` in the source, hence the precondition. */
  method CreateDocuments(texts: seq<string>, metadatas: seq<ClauseChunks.Metadata>) returns (documents: seq<ClauseChunks.Document>)
    requires metadatas == [] || |texts| <= |metadatas|
    ensures documents == Documents(texts, metadatas)
  {
    documents := [];
    for i := 0 to |texts|
      invariant documents == Documents(texts[..i], metadatas)
    {
      var clauses := SplitText(texts[i]);
      var base := ClauseChunks.BaseMetadata(metadatas, i);
      var labelled := LabelChunks(clauses, base, ClauseLabel, ClauseKind);
      documents := documents + labelled;
      assert texts[..i + 1][..i] == texts[..i];
    }
    assert texts[..|texts|] == texts;
  }

  /** Document `k` of a text is made from chunk `k`. */
  lemma {:induction false} ChunkDocumentsSpec(chunks: seq<string>, base: ClauseChunks.Metadata, idOf: string -> string,
                                              kindOf: string -> Option<string>)
    ensures |ChunkDocuments(chunks, base, idOf, kindOf)| == |chunks|
    ensures forall k :: 0 <= k < |chunks| ==>
      ChunkDocuments(chunks, base, idOf, kindOf)[k] == ClauseDocument(chunks[k], base, idOf, kindOf)
  {
    if chunks != [] {
      var n := |chunks| - 1;
      ChunkDocumentsSpec(chunks[..n], base, idOf, kindOf);
      var init := ChunkDocuments(chunks[..n], base, idOf, kindOf);
      assert ChunkDocuments(chunks, base, idOf, kindOf) == init + [ClauseDocument(chunks[n], base, idOf, kindOf)];
      forall k | 0 <= k < n
        ensures ChunkDocuments(chunks, base, idOf, kindOf)[k] == ClauseDocument(chunks[k], base, idOf, kindOf)
      {
        assert ChunkDocuments(chunks, base, idOf, kindOf)[k] == init[k];
        assert chunks[..n][k] == chunks[k];
      }
    }
  }

  /** A chunk's document carries the chunk; its metadata has the base keys
      plus "clause_id", plus "details" exactly when a keyword occurs; every
      other base value is unchanged, and a base "details" survives when no
      keyword occurs. */
  lemma ClauseDocumentSpec(chunk: string, base: ClauseChunks.Metadata)
    ensures var d := ClauseDocument(chunk, base, ClauseLabel, ClauseKind);
      var kind := ClauseKind(chunk);
      d.pageContent == chunk &&
      d.metadata.Keys == base.Keys + {"clause_id"} + (if kind.Some? then {"details"} else {}) &&
      d.metadata["clause_id"] == ClauseId(chunk, Fallback) &&
      (kind.Some? ==> d.metadata["details"] == kind.value) &&
      (forall key :: key in base && key != "clause_id" && (key != "details" || kind.None?) ==>
        d.metadata[key] == base[key])
  {
  }

  /** `kw` occurs somewhere in the lower-cased chunk. */
  ghost predicate Mentions(chunk: string, kw: string)
  {
    exists i: nat :: OccursAt(Lower(chunk), kw, i)
  }

  /** The heuristic's priority, stated by keyword positions: "indemn" wins
      over the others, "terminat" over "liabil", and a chunk with none of
      them gets no "details". */
  lemma ClauseKindPriority(chunk: string)
    ensures ClauseKind(chunk) == Some("Indemnity") <==> Mentions(chunk, "indemn")
    ensures ClauseKind(chunk) == Some("Termination") <==>
      !Mentions(chunk, "indemn") && Mentions(chunk, "terminat")
    ensures ClauseKind(chunk) == Some("Liability") <==>
      !Mentions(chunk, "indemn") && !Mentions(chunk, "terminat") && Mentions(chunk, "liabil")
    ensures ClauseKind(chunk).None? <==>
      !Mentions(chunk, "indemn") && !Mentions(chunk, "terminat") && !Mentions(chunk, "liabil")
  {
    var low := Lower(chunk);
    ContainsIff(low, "indemn");
    ContainsIff(low, "terminat");
    ContainsIff(low, "liabil");
    assert "Indemnity"[0] != "Termination"[0] && "Indemnity"[0] != "Liability"[0];
    assert "Termination"[0] != "Liability"[0];
  }

  /** The heuristic ignores case: a chunk and its lower-cased text get the
      same "details". */
  lemma ClauseKindIgnoresCase(chunk: string)
    ensures ClauseKind(Lower(chunk)) == ClauseKind(chunk)
  {
    LowerIdempotent(chunk);
  }

  /** "indemn" at any position of the lower-cased chunk makes it an
      indemnity clause, whatever else it says. */
  lemma IndemnityAt(chunk: string, i: nat)
    requires OccursAt(Lower(chunk), "indemn", i)
    ensures ClauseKind(chunk) == Some("Indemnity")
  {
    ContainsAt(Lower(chunk), "indemn", i);
  }

  /** Every document's metadata carries a clause id; the documents of all
      texts number as many as their chunks. */
  lemma {:induction false} DocumentsCount(texts: seq<string>, metadatas: seq<ClauseChunks.Metadata>)
    requires metadatas == [] || |texts| <= |metadatas|
    ensures |Documents(texts, metadatas)| == ChunkCount(texts)
    ensures forall d :: d in Documents(texts, metadatas) ==> "clause_id" in d.metadata
  {
    if texts != [] {
      var n := |texts| - 1;
      DocumentsCount(texts[..n], metadatas);
      var chunks := ClauseChunks.Chunks(texts[n]);
      ChunkDocumentsSpec(chunks, ClauseChunks.BaseMetadata(metadatas, n), ClauseLabel, ClauseKind);
    }
  }

  /** The number of chunks of all texts together. */
  function ChunkCount(texts: seq<string>): nat
  {
    if texts == [] then 0 else ChunkCount(texts[..|texts| - 1]) + |ClauseChunks.Chunks(texts[|texts| - 1])|
  }
}
