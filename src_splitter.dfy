/** `LegalClauseSplitter` of src/ingestion/legal_splitter.py: `split_text`
    (lines 26-44) and `create_documents` (lines 46-59), which skips blank
    chunks and labels every other chunk with its clause id, "Intro" when it
    does not open with a clause marker.
 */
module SrcSplitter {
  import opened Text
  import opened ClausePattern
  import ClauseChunks

  const Fallback: string := "Intro"

  /** `split_text`: the empty text gives no chunks; any other text is
      grouped line by line. */
  method SplitText(text: string) returns (chunks: seq<string>)
    ensures chunks == ClauseChunks.Chunks(text)
    ensures text == [] ==> chunks == []
  {
    if text == [] {
      ClauseChunks.EmptyTextNoChunks();
      return [];
    }
    chunks := ClauseChunks.SplitText(text);
  }

  /** The clause id `create_documents` gives a chunk: the stripped text of
      the pattern's match, or "Intro". */
  function ClauseLabel(chunk: string): string
  {
    ClauseId(chunk, Fallback)
  }

  /** The document for a non-blank chunk: `base` with "clause_id" set to
      the chunk's id under `idOf`. */
  function ClauseDocument(chunk: string, base: ClauseChunks.Metadata, idOf: string -> string): ClauseChunks.Document
  {
    ClauseChunks.Document(chunk, base["clause_id" := idOf(chunk)])
  }

  /** The documents made from one text's chunks: blank chunks are skipped. */
  function ChunkDocuments(chunks: seq<string>, base: ClauseChunks.Metadata, idOf: string -> string): seq<ClauseChunks.Document>
  {
    if chunks == [] then []
    else
      var last := chunks[|chunks| - 1];
      ChunkDocuments(chunks[..|chunks| - 1], base, idOf) +
        (if IsBlank(last) then [] else [ClauseDocument(last, base, idOf)])
  }

  /** What `create_documents(texts, metadatas)` returns. */
  function Documents(texts: seq<string>, metadatas: seq<ClauseChunks.Metadata>): seq<ClauseChunks.Document>
    requires metadatas == [] || |texts| <= |metadatas|
  {
    if texts == [] then []
    else
      var n := |texts| - 1;
      Documents(texts[..n], metadatas) +
        ChunkDocuments(ClauseChunks.Chunks(texts[n]), ClauseChunks.BaseMetadata(metadatas, n), ClauseLabel)
  }

  /** The inner loop of `create_documents` over one text's chunks, for any
      labelling of chunks (the clause id in `create_documents`). */
  method LabelChunks(clauses: seq<string>, base: ClauseChunks.Metadata, idOf: string -> string) returns (documents: seq<ClauseChunks.Document>)
    ensures documents == ChunkDocuments(clauses, base, idOf)
  {
    documents := [];
    for j := 0 to |clauses|
      invariant documents == ChunkDocuments(clauses[..j], base, idOf)
    {
      var clause := clauses[j];
      assert clauses[..j + 1][..j] == clauses[..j];
      if IsBlank(clause) {
        continue;
      }
      var clauseId := idOf(clause);
      var meta := base["clause_id" := clauseId];
      documents := documents + [ClauseChunks.Document(clause, meta)];
    }
    assert clauses[..|clauses|] == clauses;
  }

  /** `create_documents`; a non-empty `metadatas` shorter than `texts`
      raises `IndexError` in the source, hence the precondition. */
  method CreateDocuments(texts: seq<string>, metadatas: seq<ClauseChunks.Metadata>) returns (documents: seq<ClauseChunks.Document>)
    requires metadatas == [] || |texts| <= |metadatas|
    ensures documents == Documents(texts, metadatas)
  {
    documents := [];
    for i := 0 to |texts|
      invariant documents == Documents(texts[..i], metadatas)
    {
      var clauses := SplitText(texts[i]);
      var base := ClauseChunks.BaseMetadata(metadatas, i);
      var labelled := LabelChunks(clauses, base, ClauseLabel);
      documents := documents + labelled;
      assert texts[..i + 1][..i] == texts[..i];
    }
    assert texts[..|texts|] == texts;
  }

  /** A chunk's document: its metadata is the base metadata with
      "clause_id" set to the id of its text, and nothing else changed. */
  predicate LabelledFrom(d: ClauseChunks.Document, base: ClauseChunks.Metadata, idOf: string -> string)
  {
    d.metadata == base["clause_id" := idOf(d.pageContent)]
  }

  /** The positions of the non-blank chunks, in chunk order. */
  function KeptIndices(chunks: seq<string>): seq<nat>
  {
    if chunks == [] then []
    else
      var n := |chunks| - 1;
      KeptIndices(chunks[..n]) + (if IsBlank(chunks[n]) then [] else [n])
  }

  /** The kept positions are increasing, and a chunk's position is among
      them exactly when the chunk is not blank. */
  lemma {:induction false} KeptIndicesSpec(chunks: seq<string>)
    ensures var idx := KeptIndices(chunks);
      (forall a, b :: 0 <= a < b < |idx| ==> idx[a] < idx[b]) &&
      (forall k :: 0 <= k < |idx| ==> idx[k] < |chunks|) &&
      (forall j :: 0 <= j < |chunks| ==> (!IsBlank(chunks[j]) <==> j in idx))
  {
    if chunks != [] {
      var n := |chunks| - 1;
      var init := chunks[..n];
      KeptIndicesSpec(init);
      var prev := KeptIndices(init);
      var idx := KeptIndices(chunks);
      assert idx == prev + (if IsBlank(chunks[n]) then [] else [n]);
      forall j | 0 <= j < |chunks| ensures !IsBlank(chunks[j]) <==> j in idx {
        if j < n {
          assert init[j] == chunks[j];
          assert j != n;
        }
      }
    }
  }

  /** Document `k` of a text is made from its `k`-th non-blank chunk, so
      every non-blank chunk gives exactly one document, in chunk order, and
      each document has the base metadata with only "clause_id" set. */
  lemma {:induction false} ChunkDocumentsSpec(chunks: seq<string>, base: ClauseChunks.Metadata, idOf: string -> string)
    ensures var idx := KeptIndices(chunks);
      |ChunkDocuments(chunks, base, idOf)| == |idx| &&
      forall k :: 0 <= k < |idx| ==>
        idx[k] < |chunks| && ChunkDocuments(chunks, base, idOf)[k] == ClauseDocument(chunks[idx[k]], base, idOf)
    ensures |ChunkDocuments(chunks, base, idOf)| <= |chunks|
    ensures forall d :: d in ChunkDocuments(chunks, base, idOf) ==>
      d.pageContent in chunks && !IsBlank(d.pageContent) && LabelledFrom(d, base, idOf)
  {
    KeptIndicesSpec(chunks);
    if chunks != [] {
      var n := |chunks| - 1;
      var init := chunks[..n];
      ChunkDocumentsSpec(init, base, idOf);
      KeptIndicesSpec(init);
      var prev := ChunkDocuments(init, base, idOf);
      var pidx := KeptIndices(init);
      assert ChunkDocuments(chunks, base, idOf) == prev + (if IsBlank(chunks[n]) then [] else [ClauseDocument(chunks[n], base, idOf)]);
      assert KeptIndices(chunks) == pidx + (if IsBlank(chunks[n]) then [] else [n]);
      forall k | 0 <= k < |pidx| ensures chunks[pidx[k]] == init[pidx[k]] {
      }
      assert forall c :: c in init ==> c in chunks;
    }
  }

  /** The documents of two runs of chunks are those of the first run, then
      those of the second. */
  lemma {:induction false} ChunkDocumentsAppend(a: seq<string>, b: seq<string>, base: ClauseChunks.Metadata,
                                               idOf: string -> string)
    ensures ChunkDocuments(a + b, base, idOf) == ChunkDocuments(a, base, idOf) + ChunkDocuments(b, base, idOf)
    decreases |b|
  {
    if b == [] {
      assert a + b == a;
    } else {
      var n := |b| - 1;
      ChunkDocumentsAppend(a, b[..n], base, idOf);
      assert (a + b)[..|a + b| - 1] == a + b[..n];
      assert (a + b)[|a + b| - 1] == b[n];
    }
  }

  /** One chunk gives its document unless it is blank. */
  lemma ChunkDocumentsSingle(c: string, base: ClauseChunks.Metadata, idOf: string -> string)
    ensures ChunkDocuments([c], base, idOf) == if IsBlank(c) then [] else [ClauseDocument(c, base, idOf)]
  {
    assert [c][..0] == [];
  }

  /** Exactly the non-blank chunks become documents. */
  lemma {:induction false} ChunkDocumentsCount(chunks: seq<string>, base: ClauseChunks.Metadata, idOf: string -> string)
    ensures |ChunkDocuments(chunks, base, idOf)| == NonBlank(chunks)
  {
    if chunks != [] {
      ChunkDocumentsCount(chunks[..|chunks| - 1], base, idOf);
    }
  }

  /** The number of chunks that are not blank. */
  function NonBlank(chunks: seq<string>): nat
  {
    if chunks == [] then 0
    else NonBlank(chunks[..|chunks| - 1]) + (if IsBlank(chunks[|chunks| - 1]) then 0 else 1)
  }

  /** The documents of one text with base metadata `base`. */
  function TextDocuments(text: string, base: ClauseChunks.Metadata): seq<ClauseChunks.Document>
  {
    ChunkDocuments(ClauseChunks.Chunks(text), base, ClauseLabel)
  }

  /** The documents come text by text, in order: those of text 0, then
      those of text 1, and so on. */
  lemma {:induction false} DocumentsPerText(texts: seq<string>, metadatas: seq<ClauseChunks.Metadata>)
    requires metadatas == [] || |texts| <= |metadatas|
    ensures Documents(texts, metadatas) ==
      Flatten(seq(|texts|, i requires 0 <= i < |texts| => TextDocuments(texts[i], ClauseChunks.BaseMetadata(metadatas, i))))
  {
    var per := seq(|texts|, i requires 0 <= i < |texts| => TextDocuments(texts[i], ClauseChunks.BaseMetadata(metadatas, i)));
    if texts != [] {
      var n := |texts| - 1;
      var init := texts[..n];
      DocumentsPerText(init, metadatas);
      var prev := seq(|init|, i requires 0 <= i < |init| => TextDocuments(init[i], ClauseChunks.BaseMetadata(metadatas, i)));
      assert per[..n] == prev;
      assert Flatten(per) == Flatten(prev) + per[n];
      assert Documents(texts, metadatas) == Documents(init, metadatas) + per[n];
    }
  }

  /** No document is blank, and each is made from a chunk of some text `i`
      and keeps text `i`'s metadata, with the clause id the only key that
      may change. */
  lemma {:induction false} DocumentsSpec(texts: seq<string>, metadatas: seq<ClauseChunks.Metadata>)
    requires metadatas == [] || |texts| <= |metadatas|
    ensures forall d :: d in Documents(texts, metadatas) ==>
      !IsBlank(d.pageContent) &&
      exists i :: 0 <= i < |texts| && d.pageContent in ClauseChunks.Chunks(texts[i]) &&
        LabelledFrom(d, ClauseChunks.BaseMetadata(metadatas, i), ClauseLabel)
  {
    if texts != [] {
      var n := |texts| - 1;
      var init := texts[..n];
      DocumentsSpec(init, metadatas);
      var base := ClauseChunks.BaseMetadata(metadatas, n);
      ChunkDocumentsSpec(ClauseChunks.Chunks(texts[n]), base, ClauseLabel);
      forall d | d in Documents(texts, metadatas)
        ensures !IsBlank(d.pageContent) &&
          exists i :: 0 <= i < |texts| && d.pageContent in ClauseChunks.Chunks(texts[i]) &&
            LabelledFrom(d, ClauseChunks.BaseMetadata(metadatas, i), ClauseLabel)
      {
        if d in Documents(init, metadatas) {
          var i :| 0 <= i < n && d.pageContent in ClauseChunks.Chunks(init[i]) &&
            LabelledFrom(d, ClauseChunks.BaseMetadata(metadatas, i), ClauseLabel);
          assert init[i] == texts[i];
        } else {
          assert d.pageContent in ClauseChunks.Chunks(texts[n]);
        }
      }
    }
  }

  /** A single text that is empty, or all whitespace, gives no documents. */
  lemma BlankTextNoDocuments(text: string, metadatas: seq<ClauseChunks.Metadata>)
    requires IsBlank(text)
    requires metadatas == [] || 1 <= |metadatas|
    ensures Documents([text], metadatas) == []
  {
    assert [text][..0] == [];
    var chunks := ClauseChunks.Chunks(text);
    forall c | c in chunks ensures IsBlank(c) {
      BlankChunk(text, c);
    }
    AllBlankNoDocuments(chunks, ClauseChunks.BaseMetadata(metadatas, 0), ClauseLabel);
  }

  /** A chunk of a blank text is blank. */
  lemma BlankChunk(text: string, c: string)
    requires IsBlank(text) && c in ClauseChunks.Chunks(text)
    ensures IsBlank(c)
  {
    var lines := SplitLines(text);
    var groups := ClauseChunks.Group(lines, IsBoundary);
    ClauseChunks.JoinAllSpec(groups);
    var k :| 0 <= k < |groups| && c == Join("\n", groups[k]);
    ClauseChunks.FlattenGroup(lines, IsBoundary);
    SplitLinesBlank(text);
    ClauseChunks.FlattenMember(groups, k);
    JoinBlank(groups[k]);
  }

  lemma {:induction false} AllBlankNoDocuments(chunks: seq<string>, base: ClauseChunks.Metadata, idOf: string -> string)
    requires forall c :: c in chunks ==> IsBlank(c)
    ensures ChunkDocuments(chunks, base, idOf) == []
  {
    if chunks != [] {
      var init := chunks[..|chunks| - 1];
      assert forall c :: c in init ==> c in chunks;
      AllBlankNoDocuments(init, base, idOf);
    }
  }

  /** Every line of a blank text is blank. */
  lemma {:induction false} SplitLinesBlank(s: string)
    requires IsBlank(s)
    ensures forall l :: l in SplitLines(s) ==> IsBlank(l)
    decreases |s|
  {
    if s != [] {
      var i := LineEnd(s);
      assert IsBlank(s[..i]) by {
        forall k | 0 <= k < i ensures IsSpace(s[..i][k]) {
          assert s[..i][k] == s[k];
        }
      }
      if i < |s| {
        var width := if s[i] == '\r' && i + 1 < |s| && s[i + 1] == '\n' then 2 else 1;
        var rest := s[i + width..];
        assert IsBlank(rest) by {
          forall k | 0 <= k < |rest| ensures IsSpace(rest[k]) {
            assert rest[k] == s[i + width + k];
          }
        }
        SplitLinesBlank(rest);
        assert SplitLines(s) == [s[..i]] + SplitLines(rest);
      } else {
        assert SplitLines(s) == [s];
      }
    }
  }

  /** Joining blank lines with "\n" gives a blank string. */
  lemma {:induction false} JoinBlank(parts: seq<string>)
    requires forall l :: l in parts ==> IsBlank(l)
    ensures IsBlank(Join("\n", parts))
  {
    if |parts| > 1 {
      assert forall l :: l in parts[1..] ==> l in parts;
      JoinBlank(parts[1..]);
      var s := parts[0] + "\n" + Join("\n", parts[1..]);
      assert IsBlank(parts[0]);
      forall i | 0 <= i < |s| ensures IsSpace(s[i]) {
        if i > |parts[0]| {
          assert s[i] == Join("\n", parts[1..])[i - |parts[0]| - 1];
        }
      }
    }
  }
}
