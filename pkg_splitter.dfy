/** `LegalClauseSplitter` of src/ai_legal_analyzer/ingestion/legal_splitter.py:
    `split_text` (lines 23-36) and `create_documents` (lines 38-50). Unlike
    the splitter under src/ingestion it keeps blank chunks; the clause id
    falls back to "Intro". The cases of tests/test_splitter.py are stated
    about this model in the module SplitterCases.
 */
module PkgSplitter {
  import opened Text
  import opened ClausePattern
  import ClauseChunks

  const Fallback: string := "Intro"

  /** `split_text`: the empty text gives no chunks; any other text is
      grouped line by line. */
  method SplitText(text: string) returns (chunks: seq<string>)
    ensures chunks == ClauseChunks.Chunks(text)
    ensures text == [] ==> chunks == []
  {
    if text == [] {
      ClauseChunks.EmptyTextNoChunks();
      return [];
    }
    chunks := ClauseChunks.SplitText(text);
  }

  /** The clause id `create_documents` gives a chunk: the stripped text of
      the pattern's match, or "Intro". */
  function ClauseLabel(chunk: string): string
  {
    ClauseId(chunk, Fallback)
  }

  /** The document for one chunk: `base` with "clause_id" set to the
      chunk's id under `idOf`. */
  function ClauseDocument(chunk: string, base: ClauseChunks.Metadata, idOf: string -> string): ClauseChunks.Document
  {
    ClauseChunks.Document(chunk, base["clause_id" := idOf(chunk)])
  }

  /** The documents of one text: one per chunk, in chunk order. */
  function ChunkDocuments(chunks: seq<string>, base: ClauseChunks.Metadata, idOf: string -> string): seq<ClauseChunks.Document>
  {
    if chunks == [] then []
    else ChunkDocuments(chunks[..|chunks| - 1], base, idOf) + [ClauseDocument(chunks[|chunks| - 1], base, idOf)]
  }

  /** What `create_documents(texts, metadatas)` returns. */
  function Documents(texts: seq<string>, metadatas: seq<ClauseChunks.Metadata>): seq<ClauseChunks.Document>
    requires metadatas == [] || |texts| <= |metadatas|
  {
    if texts == [] then []
    else
      var n := |texts| - 1;
      Documents(texts[..n], metadatas) +
        ChunkDocuments(ClauseChunks.Chunks(texts[n]), ClauseChunks.BaseMetadata(metadatas, n), ClauseLabel)
  }

  /** The inner loop of `create_documents` over one text's chunks, for any
      labelling of chunks (the clause id in `create_documents`). */
  method LabelChunks(clauses: seq<string>, base: ClauseChunks.Metadata, idOf: string -> string) returns (documents: seq<ClauseChunks.Document>)
    ensures documents == ChunkDocuments(clauses, base, idOf)
  {
    documents := [];
    for j := 0 to |clauses|
      invariant documents == ChunkDocuments(clauses[..j], base, idOf)
    {
      var clause := clauses[j];
      var id := idOf(clause);
      var meta := base["clause_id" := id];
      documents := documents + [ClauseChunks.Document(clause, meta)];
      assert clauses[..j + 1][..j] == clauses[..j];
    }
    assert clauses[..|clauses|] == clauses;
  }

  /** `create_documents`; a non-empty `metadatas` shorter than `texts`
      raises `IndexError` in the source, hence the precondition. */
  method CreateDocuments(texts: seq<string>, metadatas: seq<ClauseChunks.Metadata>) returns (documents: seq<ClauseChunks.Document>)
    requires metadatas == [] || |texts| <= |metadatas|
    ensures documents == Documents(texts, metadatas)
  {
    documents := [];
    for i := 0 to |texts|
      invariant documents == Documents(texts[..i], metadatas)
    {
      var clauses := SplitText(texts[i]);
      var base := ClauseChunks.BaseMetadata(metadatas, i);
      var labelled := LabelChunks(clauses, base, ClauseLabel);
      documents := documents + labelled;
      assert texts[..i + 1][..i] == texts[..i];
    }
    assert texts[..|texts|] == texts;
  }

  /** Document `k` of a text is made from chunk `k`. */
  lemma {:induction false} ChunkDocumentsSpec(chunks: seq<string>, base: ClauseChunks.Metadata, idOf: string -> string)
    ensures |ChunkDocuments(chunks, base, idOf)| == |chunks|
    ensures forall k :: 0 <= k < |chunks| ==>
      ChunkDocuments(chunks, base, idOf)[k] == ClauseDocument(chunks[k], base, idOf)
  {
    if chunks != [] {
      var n := |chunks| - 1;
      ChunkDocumentsSpec(chunks[..n], base, idOf);
      var init := ChunkDocuments(chunks[..n], base, idOf);
      assert ChunkDocuments(chunks, base, idOf) == init + [ClauseDocument(chunks[n], base, idOf)];
      forall k | 0 <= k < n ensures ChunkDocuments(chunks, base, idOf)[k] == ClauseDocument(chunks[k], base, idOf) {
        assert ChunkDocuments(chunks, base, idOf)[k] == init[k];
        assert chunks[..n][k] == chunks[k];
      }
    }
  }

  /** A chunk's document carries the chunk, the base metadata's keys plus
      "clause_id", the chunk's clause id, and every other value unchanged. */
  lemma ClauseDocumentSpec(chunk: string, base: ClauseChunks.Metadata)
    ensures var d := ClauseDocument(chunk, base, ClauseLabel);
      d.pageContent == chunk &&
      d.metadata.Keys == base.Keys + {"clause_id"} &&
      d.metadata["clause_id"] == ClauseId(chunk, Fallback) &&
      forall key :: key in base && key != "clause_id" ==> d.metadata[key] == base[key]
  {
  }

  /** The documents of several texts number as many as their chunks. */
  lemma {:induction false} DocumentsCount(texts: seq<string>, metadatas: seq<ClauseChunks.Metadata>)
    requires metadatas == [] || |texts| <= |metadatas|
    ensures |Documents(texts, metadatas)| == ChunkCount(texts)
  {
    if texts != [] {
      var n := |texts| - 1;
      DocumentsCount(texts[..n], metadatas);
      ChunkDocumentsSpec(ClauseChunks.Chunks(texts[n]), ClauseChunks.BaseMetadata(metadatas, n), ClauseLabel);
    }
  }

  /** The number of chunks of all texts together. */
  function ChunkCount(texts: seq<string>): nat
  {
    if texts == [] then 0 else ChunkCount(texts[..|texts| - 1]) + |ClauseChunks.Chunks(texts[|texts| - 1])|
  }
}
