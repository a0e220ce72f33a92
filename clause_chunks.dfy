/** The line-grouping loop of `split_text`, identical in
    src/ingestion/legal_splitter.py:29-44,
    src/ai_legal_analyzer/ingestion/legal_splitter.py:26-36 and
    ingestion/splitter.py:36-51: every line that matches the clause pattern
    closes the chunk collected so far and opens a new one; every other line
    joins the current chunk; chunks are the groups' lines joined with "\n".
 */
module ClauseChunks {
  import opened Text
  import opened ClausePattern

  /** A LangChain `Document`: its text and its metadata, whose values are
      strings in this model. */
  datatype Document = Document(pageContent: string, metadata: Metadata)

  type Metadata = map<string, string>

  /** The metadata a text's documents start from: `metadatas[i] if
      metadatas else {}`. */
  function BaseMetadata(metadatas: seq<Metadata>, i: nat): Metadata
    requires metadatas == [] || i < |metadatas|
  {
    if metadatas == [] then map[] else metadatas[i]
  }

  /** The groups of lines the loop builds, defined line by line from the
      left: a boundary line, or the first line, opens a group; any other
      line extends the last group. */
  function Group(lines: seq<string>, opens: string -> bool): (groups: seq<seq<string>>)
    ensures |groups| <= |lines|
    ensures groups == [] <==> lines == []
  {
    if lines == [] then []
    else
      var prev := Group(lines[..|lines| - 1], opens);
      var line := lines[|lines| - 1];
      if prev == [] || opens(line) then prev + [[line]]
      else prev[..|prev| - 1] + [prev[|prev| - 1] + [line]]
  }

  /** Every group is non-empty, every group but the first opens with a
      boundary line, and no other line of a group is a boundary. */
  predicate WellGrouped(groups: seq<seq<string>>, opens: string -> bool)
  {
    (forall k :: 0 <= k < |groups| ==> groups[k] != []) &&
    (forall k :: 0 < k < |groups| ==> opens(groups[k][0])) &&
    (forall k, j :: 0 <= k < |groups| && 0 < j < |groups[k]| ==> !opens(groups[k][j]))
  }

  /** The groups are well formed: none is empty, each but the first opens
      with a boundary line, and no later line of a group is one. */
  lemma {:induction false} GroupWellFormed(lines: seq<string>, opens: string -> bool)
    ensures WellGrouped(Group(lines, opens), opens)
  {
    if lines != [] {
      var init := lines[..|lines| - 1];
      var line := lines[|lines| - 1];
      var prev := Group(init, opens);
      GroupWellFormed(init, opens);
      if prev == [] || opens(line) {
        WellGroupedOpen(prev, line, opens);
      } else {
        WellGroupedExtend(prev, line, opens);
      }
    }
  }

  /** Opening a group keeps the grouping well formed. */
  lemma WellGroupedOpen(prev: seq<seq<string>>, line: string, opens: string -> bool)
    requires WellGrouped(prev, opens) && (prev == [] || opens(line))
    ensures WellGrouped(prev + [[line]], opens)
  {
    var g := prev + [[line]];
    assert forall k :: 0 <= k < |prev| ==> g[k] == prev[k];
    assert g[|prev|] == [line];
  }

  /** Extending the last group with a non-boundary line keeps the grouping
      well formed. */
  lemma WellGroupedExtend(prev: seq<seq<string>>, line: string, opens: string -> bool)
    requires WellGrouped(prev, opens) && prev != [] && !opens(line)
    ensures WellGrouped(prev[..|prev| - 1] + [prev[|prev| - 1] + [line]], opens)
  {
    var n := |prev| - 1;
    var g := prev[..n] + [prev[n] + [line]];
    assert forall k :: 0 <= k < n ==> g[k] == prev[k];
    assert g[n] == prev[n] + [line];
    forall k, j | 0 <= k < |g| && 0 < j < |g[k]| ensures !opens(g[k][j]) {
      if k == n && j == |prev[n]| {
        assert g[k][j] == line;
      } else {
        assert g[k][j] == prev[k][j];
      }
    }
  }

  /** Each group joined with "\n". */
  function JoinAll(groups: seq<seq<string>>): seq<string>
  {
    if groups == [] then []
    else JoinAll(groups[..|groups| - 1]) + [Join("\n", groups[|groups| - 1])]
  }

  /** Chunk `k` is group `k` joined with "\n". */
  lemma {:induction false} JoinAllSpec(groups: seq<seq<string>>)
    ensures |JoinAll(groups)| == |groups|
    ensures forall k :: 0 <= k < |groups| ==> JoinAll(groups)[k] == Join("\n", groups[k])
  {
    if groups != [] {
      var n := |groups| - 1;
      JoinAllSpec(groups[..n]);
      assert forall k :: 0 <= k < n ==> groups[..n][k] == groups[k];
    }
  }

  /** What `split_text` returns for `text`. */
  function Chunks(text: string): seq<string>
  {
    JoinAll(Group(SplitLines(text), IsBoundary))
  }

  /** The loop of `split_text` over `text.splitlines()`, written for any
      predicate `opens` on lines (the clause pattern in `split_text`). */
  method GroupLines(lines: seq<string>, opens: string -> bool) returns (chunks: seq<string>)
    ensures chunks == JoinAll(Group(lines, opens))
  {
    chunks := [];
    var current: seq<string> := [];
    ghost var done: seq<seq<string>> := [];
    var i := 0;
    while i < |lines|
      invariant 0 <= i <= |lines|
      invariant current == [] <==> i == 0
      invariant i == 0 ==> done == []
      invariant i > 0 ==> Group(lines[..i], opens) == done + [current]
      invariant chunks == JoinAll(done)
    {
      var line := lines[i];
      assert lines[..i + 1] == lines[..i] + [line];
      if opens(line) {
        GroupOpen(lines[..i], opens, done, current, line);
        if current != [] {
          JoinAllSnoc(done, current);
          chunks := chunks + [Join("\n", current)];
          done := done + [current];
        }
        current := [line];
      } else {
        GroupExtend(lines[..i], opens, done, current, line);
        current := current + [line];
      }
      i := i + 1;
    }
    if current != [] {
      JoinAllSnoc(done, current);
      chunks := chunks + [Join("\n", current)];
      done := done + [current];
    }
    assert lines[..i] == lines;
  }

  /** `split_text` after its guard: the lines of `text` grouped at clause
      headings. */
  method SplitText(text: string) returns (chunks: seq<string>)
    ensures chunks == Chunks(text)
  {
    chunks := GroupLines(SplitLines(text), IsBoundary);
  }

  /** A boundary line opens a new group. */
  lemma GroupOpen(lines: seq<string>, opens: string -> bool, done: seq<seq<string>>, current: seq<string>, line: string)
    requires opens(line)
    requires lines == [] ==> done == [] && current == []
    requires lines != [] ==> Group(lines, opens) == done + [current]
    ensures Group(lines + [line], opens) == (if lines == [] then [] else done + [current]) + [[line]]
  {
    assert (lines + [line])[..|lines|] == lines;
  }

  /** Any other line, after the first, joins the current group. */
  lemma GroupExtend(lines: seq<string>, opens: string -> bool, done: seq<seq<string>>, current: seq<string>, line: string)
    requires !opens(line)
    requires lines == [] ==> done == [] && current == []
    requires lines != [] ==> Group(lines, opens) == done + [current]
    ensures Group(lines + [line], opens) == done + [current + [line]]
  {
    assert (lines + [line])[..|lines|] == lines;
    if lines != [] {
      assert (done + [current])[..|done|] == done;
    }
  }

  lemma JoinAllSnoc(groups: seq<seq<string>>, g: seq<string>)
    ensures JoinAll(groups + [g]) == JoinAll(groups) + [Join("\n", g)]
  {
    assert (groups + [g])[..|groups|] == groups;
  }

  /** Grouping neither loses, duplicates nor reorders lines. */
  lemma {:induction false} FlattenGroup(lines: seq<string>, opens: string -> bool)
    ensures Flatten(Group(lines, opens)) == lines
  {
    if lines != [] {
      var init := lines[..|lines| - 1];
      var line := lines[|lines| - 1];
      var prev := Group(init, opens);
      FlattenGroup(init, opens);
      var g := Group(lines, opens);
      if prev == [] || opens(line) {
        assert g[..|g| - 1] == prev;
      } else {
        var n := |prev| - 1;
        assert g[..|g| - 1] == prev[..n];
        assert Flatten(prev) == Flatten(prev[..n]) + prev[n];
      }
    }
  }

  /** Every line of a group is a line of the flattened groups. */
  lemma {:induction false} FlattenMember<T>(groups: seq<seq<T>>, k: nat)
    requires k < |groups|
    ensures forall x :: x in groups[k] ==> x in Flatten(groups)
  {
    var n := |groups| - 1;
    if k < n {
      FlattenMember(groups[..n], k);
      assert groups[..n][k] == groups[k];
    }
  }

  /** The number of boundary lines. */
  function Boundaries(lines: seq<string>, opens: string -> bool): nat
  {
    if lines == [] then 0
    else Boundaries(lines[..|lines| - 1], opens) + (if opens(lines[|lines| - 1]) then 1 else 0)
  }

  /** One chunk per boundary line, plus one leading chunk when the text does
      not open with a boundary. */
  lemma {:induction false} GroupCount(lines: seq<string>, opens: string -> bool)
    ensures |Group(lines, opens)| == Boundaries(lines, opens) + (if lines != [] && !opens(lines[0]) then 1 else 0)
  {
    if lines != [] {
      var init := lines[..|lines| - 1];
      GroupCount(init, opens);
      if init != [] {
        assert init[0] == lines[0];
      }
    }
  }

  /** "\n".join of the chunks is "\n".join of the lines: chunking only
      decides where to cut. */
  lemma {:induction false} JoinGroups(groups: seq<seq<string>>)
    requires forall k :: 0 <= k < |groups| ==> groups[k] != []
    ensures Join("\n", JoinAll(groups)) == Join("\n", Flatten(groups))
  {
    if groups != [] {
      var n := |groups| - 1;
      var init := groups[..n];
      JoinGroups(init);
      assert JoinAll(groups) == JoinAll(init) + [Join("\n", groups[n])];
      if init == [] {
        assert JoinAll(groups) == [Join("\n", groups[n])];
        assert Flatten(groups) == groups[n] by {
          assert groups[..n] == [];
        }
      } else {
        JoinAppend("\n", JoinAll(init), Join("\n", groups[n]));
        assert Flatten(groups) == Flatten(init) + groups[n];
        FlattenNonEmpty(init);
        JoinConcat("\n", Flatten(init), groups[n]);
      }
    }
  }

  lemma {:induction false} FlattenNonEmpty(groups: seq<seq<string>>)
    requires groups != []
    requires forall k :: 0 <= k < |groups| ==> groups[k] != []
    ensures Flatten(groups) != []
  {
  }

  /** Joining two non-empty runs of parts. */
  lemma {:induction false} JoinConcat(sep: string, xs: seq<string>, ys: seq<string>)
    requires xs != [] && ys != []
    ensures Join(sep, xs + ys) == Join(sep, xs) + sep + Join(sep, ys)
  {
    if |xs| == 1 {
      assert xs + ys == [xs[0]] + ys;
      assert (xs + ys)[1..] == ys;
    } else {
      assert (xs + ys)[1..] == xs[1..] + ys;
      JoinConcat(sep, xs[1..], ys);
    }
  }

  /** Rejoining the chunks with "\n" gives back the text's lines joined with
      "\n". */
  lemma ChunksRejoin(text: string)
    ensures Join("\n", Chunks(text)) == Join("\n", SplitLines(text))
  {
    var lines := SplitLines(text);
    GroupWellFormed(lines, IsBoundary);
    JoinGroups(Group(lines, IsBoundary));
    FlattenGroup(lines, IsBoundary);
  }

  lemma EmptyTextNoChunks()
    ensures Chunks("") == []
  {
  }
}
