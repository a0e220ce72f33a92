/** The clause-boundary pattern shared by the three splitters
    (src/ingestion/legal_splitter.py:18-24, its copies in
    src/ai_legal_analyzer/ingestion/legal_splitter.py:15-21 and
    ingestion/splitter.py:15-21): the case-insensitive alternation

      ^\s*ARTICLE\s+[IVX0-9]+ | ^\s*SECTION\s+[0-9]+(\.[0-9]+)*
      | ^\s*[0-9]+\.[0-9]+(\.[0-9]+)* | ^\s*[0-9]+\.\s+[A-Z]

    applied with `re.match`, i.e. anchored at the start of the string.
    `Match` is a hand-written matcher; the `In...` predicates give the
    language of each alternative declaratively, and `MatchIsLongestPrefix`
    proves that the matcher returns the longest prefix in the language of
    the first alternative that matches at all, as Python's greedy
    backtracking does. Case is folded for ASCII letters only: Python's
    `re.IGNORECASE` also lets a few non-ASCII letters (such as U+0130 and
    U+212A) match I, S or K.
 */
module ClausePattern {
  import opened Text

  /** `[IVX0-9]` under `re.IGNORECASE`. */
  predicate IsNumeral(c: char)
  {
    IsDigit(c) || c == 'I' || c == 'V' || c == 'X' || c == 'i' || c == 'v' || c == 'x'
  }

  /** Greedy `\s*` from position `i`. */
  function SkipSpaces(s: string, i: nat): (j: nat)
    requires i <= |s|
    ensures i <= j <= |s|
    ensures j < |s| ==> !IsSpace(s[j])
    decreases |s| - i
  {
    if i < |s| && IsSpace(s[i]) then SkipSpaces(s, i + 1) else i
  }

  /** Greedy `[0-9]*` from position `i`. */
  function SkipDigits(s: string, i: nat): (j: nat)
    requires i <= |s|
    ensures i <= j <= |s|
    ensures j < |s| ==> !IsDigit(s[j])
    decreases |s| - i
  {
    if i < |s| && IsDigit(s[i]) then SkipDigits(s, i + 1) else i
  }

  /** Greedy `[IVX0-9]*` (case-insensitive) from position `i`. */
  function SkipNumerals(s: string, i: nat): (j: nat)
    requires i <= |s|
    ensures i <= j <= |s|
    ensures j < |s| ==> !IsNumeral(s[j])
    decreases |s| - i
  {
    if i < |s| && IsNumeral(s[i]) then SkipNumerals(s, i + 1) else i
  }

  /** Greedy `(\.[0-9]+)*` from position `i`. */
  function SkipDotGroups(s: string, i: nat): (j: nat)
    requires i <= |s|
    ensures i <= j <= |s|
    decreases |s| - i
  {
    if i + 1 < |s| && s[i] == '.' && IsDigit(s[i + 1]) then SkipDotGroups(s, SkipDigits(s, i + 1)) else i
  }

  /** Everything `SkipSpaces` passes over is whitespace. */
  lemma {:induction false} SkipSpacesSpec(s: string, i: nat)
    requires i <= |s|
    ensures SpacesIn(s, i, SkipSpaces(s, i))
    decreases |s| - i
  {
    if i < |s| && IsSpace(s[i]) {
      SkipSpacesSpec(s, i + 1);
    }
  }

  /** Everything `SkipDigits` passes over is digits. */
  lemma {:induction false} SkipDigitsSpec(s: string, i: nat)
    requires i <= |s|
    ensures DigitsIn(s, i, SkipDigits(s, i))
    decreases |s| - i
  {
    if i < |s| && IsDigit(s[i]) {
      SkipDigitsSpec(s, i + 1);
    }
  }

  /** Everything `SkipNumerals` passes over is numerals. */
  lemma {:induction false} SkipNumeralsSpec(s: string, i: nat)
    requires i <= |s|
    ensures NumeralsIn(s, i, SkipNumerals(s, i))
    decreases |s| - i
  {
    if i < |s| && IsNumeral(s[i]) {
      SkipNumeralsSpec(s, i + 1);
    }
  }

  /** The lower-case keyword `kw` occurs at position `i`, ignoring ASCII case. */
  predicate KeywordAt(s: string, i: nat, kw: string)
  {
    i + |kw| <= |s| && forall k :: 0 <= k < |kw| ==> ToLower(s[i + k]) == kw[k]
  }

  /** First alternative: `\s*ARTICLE\s+[IVX0-9]+`; the length of the match. */
  function ArticleMatch(s: string): (r: Option<nat>)
    ensures r.Some? ==> 0 < r.value <= |s|
  {
    var w := SkipSpaces(s, 0);
    if !KeywordAt(s, w, "article") then None
    else
      var a := SkipSpaces(s, w + 7);
      if a == w + 7 then None
      else
        var n := SkipNumerals(s, a);
        if n == a then None else Some(n)
  }

  /** Second alternative: `\s*SECTION\s+[0-9]+(\.[0-9]+)*`. */
  function SectionMatch(s: string): (r: Option<nat>)
    ensures r.Some? ==> 0 < r.value <= |s|
  {
    var w := SkipSpaces(s, 0);
    if !KeywordAt(s, w, "section") then None
    else
      var a := SkipSpaces(s, w + 7);
      if a == w + 7 then None
      else
        var d := SkipDigits(s, a);
        if d == a then None else Some(SkipDotGroups(s, d))
  }

  /** Third alternative: `\s*[0-9]+\.[0-9]+(\.[0-9]+)*`. */
  function DottedMatch(s: string): (r: Option<nat>)
    ensures r.Some? ==> 0 < r.value <= |s|
  {
    var w := SkipSpaces(s, 0);
    var d := SkipDigits(s, w);
    if d == w || d == |s| || s[d] != '.' then None
    else
      var e := SkipDigits(s, d + 1);
      if e == d + 1 then None else Some(SkipDotGroups(s, e))
  }

  /** Fourth alternative: `\s*[0-9]+\.\s+[A-Z]` (the letter case-insensitive). */
  function NumberedMatch(s: string): (r: Option<nat>)
    ensures r.Some? ==> 0 < r.value <= |s|
  {
    var w := SkipSpaces(s, 0);
    var d := SkipDigits(s, w);
    if d == w || d == |s| || s[d] != '.' then None
    else
      var a := SkipSpaces(s, d + 1);
      if a == d + 1 || a == |s| || !IsAsciiLetter(s[a]) then None else Some(a + 1)
  }

  /** `pattern.match(s)`: the length of the matched prefix, or `None`. */
  function Match(s: string): (r: Option<nat>)
    ensures r.Some? ==> 0 < r.value <= |s|
  {
    var article := ArticleMatch(s);
    if article.Some? then article
    else
      var section := SectionMatch(s);
      if section.Some? then section
      else
        var dotted := DottedMatch(s);
        if dotted.Some? then dotted else NumberedMatch(s)
  }

  /** A line that opens a new chunk. */
  predicate IsBoundary(line: string)
  {
    Match(line).Some?
  }

  /** `match.group(0).strip() if match else fallback`. */
  function ClauseId(chunk: string, fallback: string): string
  {
    match Match(chunk)
    case Some(n) => Strip(chunk[..n])
    case None => fallback
  }

  // ---------------------------------------------------------------------
  // The language of the pattern, stated without the matcher
  // ---------------------------------------------------------------------

  predicate SpacesIn(m: string, a: nat, b: nat)
  {
    a <= b <= |m| && forall k :: a <= k < b ==> IsSpace(m[k])
  }

  predicate DigitsIn(m: string, a: nat, b: nat)
  {
    a <= b <= |m| && forall k :: a <= k < b ==> IsDigit(m[k])
  }

  predicate NumeralsIn(m: string, a: nat, b: nat)
  {
    a <= b <= |m| && forall k :: a <= k < b ==> IsNumeral(m[k])
  }

  /** `m[a..b]` is in `[0-9]+(\.[0-9]+)*`: digits and dots, a digit at both
      ends, no two dots in a row. */
  predicate DottedNumberIn(m: string, a: nat, b: nat)
  {
    a < b <= |m| && IsDigit(m[a]) && IsDigit(m[b - 1]) &&
    (forall k :: a <= k < b ==> IsDigit(m[k]) || m[k] == '.') &&
    (forall k :: a <= k < b - 1 ==> !(m[k] == '.' && m[k + 1] == '.'))
  }

  /** `m` is spaces up to `i`, ARTICLE, spaces up to `j`, then numerals. */
  predicate ArticleSplit(m: string, i: nat, j: nat)
  {
    SpacesIn(m, 0, i) && KeywordAt(m, i, "article") && i + 7 < j < |m| &&
    SpacesIn(m, i + 7, j) && NumeralsIn(m, j, |m|)
  }

  /** `m` is spaces up to `i`, SECTION, spaces up to `j`, then a dotted number. */
  predicate SectionSplit(m: string, i: nat, j: nat)
  {
    SpacesIn(m, 0, i) && KeywordAt(m, i, "section") && i + 7 < j &&
    SpacesIn(m, i + 7, j) && DottedNumberIn(m, j, |m|)
  }

  /** `m` is spaces up to `i`, then a dotted number with a dot at `p`. */
  predicate DottedSplit(m: string, i: nat, p: nat)
  {
    SpacesIn(m, 0, i) && DottedNumberIn(m, i, |m|) && i < p < |m| && m[p] == '.'
  }

  /** `m` is spaces up to `i`, digits up to the dot at `j`, spaces, one letter. */
  predicate NumberedSplit(m: string, i: nat, j: nat)
  {
    i < j && j + 2 < |m| && SpacesIn(m, 0, i) && DigitsIn(m, i, j) && m[j] == '.' &&
    SpacesIn(m, j + 1, |m| - 1) && IsAsciiLetter(m[|m| - 1])
  }

  ghost predicate InArticle(m: string) { exists i: nat, j: nat :: ArticleSplit(m, i, j) }

  ghost predicate InSection(m: string) { exists i: nat, j: nat :: SectionSplit(m, i, j) }

  ghost predicate InDotted(m: string) { exists i: nat, p: nat :: DottedSplit(m, i, p) }

  ghost predicate InNumbered(m: string) { exists i: nat, j: nat :: NumberedSplit(m, i, j) }

  /** The language of the whole alternation. */
  ghost predicate InPattern(m: string)
  {
    InArticle(m) || InSection(m) || InDotted(m) || InNumbered(m)
  }

  // ---------------------------------------------------------------------
  // The matcher against the language
  // ---------------------------------------------------------------------

  /** Where a run of whitespace ends is fixed by the first non-space character. */
  lemma {:induction false} SpacesEndAt(s: string, i: nat, j: nat)
    requires i <= j < |s| && !IsSpace(s[j]) && SpacesIn(s, i, j)
    ensures SkipSpaces(s, i) == j
    decreases j - i
  {
    if i < j {
      SpacesEndAt(s, i + 1, j);
    }
  }

  lemma {:induction false} DigitsEndAt(s: string, i: nat, j: nat)
    requires DigitsIn(s, i, j) && (j < |s| ==> !IsDigit(s[j]))
    ensures SkipDigits(s, i) == j
    decreases j - i
  {
    if i < j {
      DigitsEndAt(s, i + 1, j);
    }
  }

  lemma {:induction false} NumeralsEndAt(s: string, i: nat, j: nat)
    requires NumeralsIn(s, i, j) && (j < |s| ==> !IsNumeral(s[j]))
    ensures SkipNumerals(s, i) == j
    decreases j - i
  {
    if i < j {
      NumeralsEndAt(s, i + 1, j);
    }
  }

  /** The greedy `(\.[0-9]+)*` extends a digit run to a maximal dotted number. */
  lemma {:induction false} DotGroupsSpec(s: string, a: nat, i: nat)
    requires DottedNumberIn(s, a, i)
    requires i == |s| || !IsDigit(s[i])
    ensures DottedNumberIn(s, a, SkipDotGroups(s, i))
    ensures SkipDotGroups(s, i) == |s| || !IsDigit(s[SkipDotGroups(s, i)])
    ensures var g := SkipDotGroups(s, i); !(g + 1 < |s| && s[g] == '.' && IsDigit(s[g + 1]))
    decreases |s| - i
  {
    if i + 1 < |s| && s[i] == '.' && IsDigit(s[i + 1]) {
      var e := SkipDigits(s, i + 1);
      SkipDigitsSpec(s, i + 1);
      DottedExtend(s, a, i, e);
      DotGroupsSpec(s, a, e);
    }
  }

  /** A run of digits is a dotted number. */
  lemma DigitsDotted(s: string, a: nat, d: nat)
    requires a < d && DigitsIn(s, a, d)
    ensures DottedNumberIn(s, a, d)
  {
    assert IsDigit(s[d - 1]);
  }

  /** A dotted number, a dot and a run of digits make a dotted number. */
  lemma DottedExtend(s: string, a: nat, i: nat, e: nat)
    requires DottedNumberIn(s, a, i) && i + 1 < e && DigitsIn(s, i + 1, e) && s[i] == '.'
    ensures DottedNumberIn(s, a, e)
  {
    assert IsDigit(s[e - 1]);
    forall k | a <= k < e - 1 ensures !(s[k] == '.' && s[k + 1] == '.') {
      if k == i - 1 {
        assert IsDigit(s[i - 1]);
      }
    }
  }

  /** No dotted number starting at `a` reaches past a greedy end `g`. */
  lemma DottedNumberMax(s: string, a: nat, g: nat, n: nat)
    requires a < g <= |s| && (g == |s| || !IsDigit(s[g]))
    requires !(g + 1 < |s| && s[g] == '.' && IsDigit(s[g + 1]))
    requires DottedNumberIn(s, a, n)
    ensures n <= g
  {
  }

  /** Greedy `[0-9]+(\.[0-9]+)*` from `a` ends at the longest dotted number. */
  lemma DottedNumberFrom(s: string, a: nat, n: nat)
    requires a < |s| && IsDigit(s[a])
    ensures DottedNumberIn(s, a, SkipDotGroups(s, SkipDigits(s, a)))
    ensures DottedNumberIn(s, a, n) ==> n <= SkipDotGroups(s, SkipDigits(s, a))
  {
    var d := SkipDigits(s, a);
    SkipDigitsSpec(s, a);
    DigitsDotted(s, a, d);
    DotGroupsSpec(s, a, d);
    if DottedNumberIn(s, a, n) {
      DottedNumberMax(s, a, SkipDotGroups(s, d), n);
    }
  }

  /** The building blocks of a split hold alike in `s` and in a prefix
      `s[..n]` that covers them. */
  lemma SpacesPrefix(s: string, n: nat, a: nat, b: nat)
    requires b <= n <= |s|
    ensures SpacesIn(s[..n], a, b) <==> SpacesIn(s, a, b)
  {
    assert forall k :: a <= k < b ==> s[..n][k] == s[k];
  }

  lemma DigitsPrefix(s: string, n: nat, a: nat, b: nat)
    requires b <= n <= |s|
    ensures DigitsIn(s[..n], a, b) <==> DigitsIn(s, a, b)
  {
    assert forall k :: a <= k < b ==> s[..n][k] == s[k];
  }

  lemma NumeralsPrefix(s: string, n: nat, a: nat)
    requires a <= n <= |s|
    ensures NumeralsIn(s[..n], a, n) <==> NumeralsIn(s, a, n)
  {
    assert forall k :: a <= k < n ==> s[..n][k] == s[k];
  }

  lemma DottedPrefix(s: string, n: nat, a: nat)
    requires a < n <= |s|
    ensures DottedNumberIn(s[..n], a, n) <==> DottedNumberIn(s, a, n)
  {
    assert forall k :: a <= k < n ==> s[..n][k] == s[k];
  }

  lemma KeywordPrefix(s: string, n: nat, i: nat, kw: string)
    requires i + |kw| <= n <= |s|
    ensures KeywordAt(s[..n], i, kw) <==> KeywordAt(s, i, kw)
  {
    assert forall j :: i <= j < i + |kw| ==> s[..n][j] == s[j];
  }

  lemma ArticleSound(s: string)
    requires ArticleMatch(s).Some?
    ensures InArticle(s[..ArticleMatch(s).value])
  {
    var w := SkipSpaces(s, 0);
    var a := SkipSpaces(s, w + 7);
    var g := ArticleMatch(s).value;
    SkipSpacesSpec(s, 0);
    SkipSpacesSpec(s, w + 7);
    SkipNumeralsSpec(s, a);
    SpacesPrefix(s, g, 0, w);
    KeywordPrefix(s, g, w, "article");
    SpacesPrefix(s, g, w + 7, a);
    NumeralsPrefix(s, g, a);
    assert ArticleSplit(s[..g], w, a);
  }

  lemma ArticleComplete(s: string, n: nat, i: nat, j: nat)
    requires n <= |s| && ArticleSplit(s[..n], i, j)
    ensures ArticleMatch(s).Some? && n <= ArticleMatch(s).value
  {
    var m := s[..n];
    SpacesPrefix(s, n, 0, i);
    KeywordPrefix(s, n, i, "article");
    SpacesPrefix(s, n, i + 7, j);
    NumeralsPrefix(s, n, j);
    assert ToLower(s[i + 0]) == "article"[0] == 'a';
    assert IsNumeral(m[j]) && m[j] == s[j];
    SpacesEndAt(s, 0, i);
    SpacesEndAt(s, i + 7, j);
    SkipNumeralsSpec(s, j);
  }

  lemma SectionSound(s: string)
    requires SectionMatch(s).Some?
    ensures InSection(s[..SectionMatch(s).value])
  {
    var w := SkipSpaces(s, 0);
    var a := SkipSpaces(s, w + 7);
    var g := SectionMatch(s).value;
    SkipSpacesSpec(s, 0);
    SkipSpacesSpec(s, w + 7);
    DottedNumberFrom(s, a, a);
    SpacesPrefix(s, g, 0, w);
    KeywordPrefix(s, g, w, "section");
    SpacesPrefix(s, g, w + 7, a);
    DottedPrefix(s, g, a);
    assert SectionSplit(s[..g], w, a);
  }

  lemma SectionComplete(s: string, n: nat, i: nat, j: nat)
    requires n <= |s| && SectionSplit(s[..n], i, j)
    ensures SectionMatch(s).Some? && n <= SectionMatch(s).value
  {
    var m := s[..n];
    SpacesPrefix(s, n, 0, i);
    KeywordPrefix(s, n, i, "section");
    SpacesPrefix(s, n, i + 7, j);
    DottedPrefix(s, n, j);
    assert ToLower(s[i + 0]) == "section"[0] == 's';
    assert IsDigit(m[j]) && m[j] == s[j];
    SpacesEndAt(s, 0, i);
    SpacesEndAt(s, i + 7, j);
    DottedNumberFrom(s, j, n);
  }

  lemma DottedSound(s: string)
    requires DottedMatch(s).Some?
    ensures InDotted(s[..DottedMatch(s).value])
  {
    var w := SkipSpaces(s, 0);
    var d := SkipDigits(s, w);
    var e := SkipDigits(s, d + 1);
    var g := DottedMatch(s).value;
    SkipSpacesSpec(s, 0);
    SkipDigitsSpec(s, w);
    SkipDigitsSpec(s, d + 1);
    DigitsDotted(s, w, d);
    DottedExtend(s, w, d, e);
    DotGroupsSpec(s, w, e);
    SpacesPrefix(s, g, 0, w);
    DottedPrefix(s, g, w);
    assert s[..g][d] == s[d];
    assert DottedSplit(s[..g], w, d);
  }

  /** The first `.` at or after `i`, given one at `q`. */
  lemma {:induction false} FirstDot(s: string, i: nat, q: nat) returns (p: nat)
    requires i <= q < |s| && s[q] == '.'
    ensures i <= p <= q && s[p] == '.' && forall k :: i <= k < p ==> s[k] != '.'
    decreases q - i
  {
    if s[i] == '.' { p := i; } else { p := FirstDot(s, i + 1, q); }
  }

  /** A dotted number's digits run up to its first dot. */
  lemma DigitsBeforeDot(s: string, i: nat, p: nat, n: nat)
    requires DottedNumberIn(s, i, n) && i <= p < n && s[p] == '.'
    requires forall k :: i <= k < p ==> s[k] != '.'
    ensures DigitsIn(s, i, p)
  {
  }

  lemma DottedComplete(s: string, n: nat, i: nat, q: nat)
    requires n <= |s| && DottedSplit(s[..n], i, q)
    ensures DottedMatch(s).Some? && n <= DottedMatch(s).value
  {
    DottedSplitPrefix(s, n, i, q);
    var p := FirstDot(s, i, q);
    DigitsBeforeDot(s, i, p, n);
    DottedAfterDot(s, i, p, n);
    SpacesEndAt(s, 0, i);
    DigitsEndAt(s, i, p);
    var e := SkipDigits(s, p + 1);
    DottedMatchAt(s, i, p);
    SkipDigitsSpec(s, p + 1);
    DigitsDotted(s, i, p);
    DottedExtend(s, i, p, e);
    DotGroupsSpec(s, i, e);
    DottedNumberMax(s, i, SkipDotGroups(s, e), n);
  }

  lemma DottedSplitPrefix(s: string, n: nat, i: nat, q: nat)
    requires n <= |s| && DottedSplit(s[..n], i, q)
    ensures SpacesIn(s, 0, i) && DottedNumberIn(s, i, n) && i < q < n && s[q] == '.'
  {
    SpacesPrefix(s, n, 0, i);
    DottedPrefix(s, n, i);
    assert s[..n][q] == s[q];
  }

  /** Inside a dotted number a dot is followed by a digit. */
  lemma DottedAfterDot(s: string, i: nat, p: nat, n: nat)
    requires DottedNumberIn(s, i, n) && i <= p < n && s[p] == '.'
    ensures p + 1 < n && IsDigit(s[p + 1])
  {
    assert p != n - 1;
    assert s[p + 1] != '.';
  }

  /** Where the third alternative ends once its first digit run is known. */
  lemma DottedMatchAt(s: string, i: nat, p: nat)
    requires SkipSpaces(s, 0) == i && SkipDigits(s, i) == p && i < p
    requires p + 1 < |s| && s[p] == '.' && IsDigit(s[p + 1])
    ensures DottedMatch(s) == Some(SkipDotGroups(s, SkipDigits(s, p + 1)))
  {
  }

  lemma NumberedSound(s: string)
    requires NumberedMatch(s).Some?
    ensures InNumbered(s[..NumberedMatch(s).value])
  {
    var w := SkipSpaces(s, 0);
    var d := SkipDigits(s, w);
    var g := NumberedMatch(s).value;
    SkipSpacesSpec(s, 0);
    SkipDigitsSpec(s, w);
    SkipSpacesSpec(s, d + 1);
    SpacesPrefix(s, g, 0, w);
    DigitsPrefix(s, g, w, d);
    SpacesPrefix(s, g, d + 1, g - 1);
    assert s[..g][d] == s[d] && s[..g][g - 1] == s[g - 1];
    assert NumberedSplit(s[..g], w, d);
  }

  lemma NumberedComplete(s: string, n: nat, i: nat, j: nat)
    requires n <= |s| && NumberedSplit(s[..n], i, j)
    ensures NumberedMatch(s).Some? && n <= NumberedMatch(s).value
  {
    var m := s[..n];
    SpacesPrefix(s, n, 0, i);
    DigitsPrefix(s, n, i, j);
    SpacesPrefix(s, n, j + 1, n - 1);
    assert m[j] == s[j] && m[n - 1] == s[n - 1];
    assert IsDigit(s[i]);
    SpacesEndAt(s, 0, i);
    DigitsEndAt(s, i, j);
    SpacesEndAt(s, j + 1, n - 1);
  }

  /** At most one alternative can match a given string, so the order of the
      alternation never decides which one is taken. */
  lemma AlternativesExclusive(s: string)
    ensures ArticleMatch(s).Some? ==> SectionMatch(s).None? && DottedMatch(s).None? && NumberedMatch(s).None?
    ensures SectionMatch(s).Some? ==> DottedMatch(s).None? && NumberedMatch(s).None?
    ensures DottedMatch(s).Some? ==> NumberedMatch(s).None?
  {
    var w := SkipSpaces(s, 0);
    if KeywordAt(s, w, "article") {
      assert ToLower(s[w + 0]) == "article"[0] == 'a';
    }
    if KeywordAt(s, w, "section") {
      assert ToLower(s[w + 0]) == "section"[0] == 's';
    }
  }

  /** `re.match` with this pattern returns the longest prefix of `s` that is
      in the pattern's language, and nothing when no prefix is. */
  lemma MatchIsLongestPrefix(s: string)
    ensures Match(s).Some? ==> InPattern(s[..Match(s).value])
    ensures forall n: nat :: n <= |s| && InPattern(s[..n]) ==> Match(s).Some? && n <= Match(s).value
  {
    AlternativesExclusive(s);
    if ArticleMatch(s).Some? { ArticleSound(s); }
    if SectionMatch(s).Some? { SectionSound(s); }
    if DottedMatch(s).Some? { DottedSound(s); }
    if NumberedMatch(s).Some? { NumberedSound(s); }
    forall n: nat | n <= |s| && InPattern(s[..n])
      ensures Match(s).Some? && n <= Match(s).value
    {
      var m := s[..n];
      if InArticle(m) {
        var i: nat, j: nat :| ArticleSplit(m, i, j);
        ArticleComplete(s, n, i, j);
      } else if InSection(m) {
        var i: nat, j: nat :| SectionSplit(m, i, j);
        SectionComplete(s, n, i, j);
      } else if InDotted(m) {
        var i: nat, p: nat :| DottedSplit(m, i, p);
        DottedComplete(s, n, i, p);
      } else {
        var i: nat, j: nat :| NumberedSplit(m, i, j);
        NumberedComplete(s, n, i, j);
      }
    }
  }

  /** A boundary line is exactly one with a prefix in the pattern's language. */
  lemma BoundaryIff(line: string)
    ensures IsBoundary(line) <==> exists n: nat :: n <= |line| && InPattern(line[..n])
  {
    MatchIsLongestPrefix(line);
  }

  // ---------------------------------------------------------------------
  // Clause ids
  // ---------------------------------------------------------------------

  /** The first character of a match is the first non-space character of the
      string, and it is a digit or the initial of ARTICLE or SECTION. */
  lemma MatchStart(s: string)
    requires IsBoundary(s)
    ensures SkipSpaces(s, 0) < Match(s).value
    ensures var c := s[SkipSpaces(s, 0)]; IsDigit(c) || ToLower(c) == 'a' || ToLower(c) == 's'
  {
    var w := SkipSpaces(s, 0);
    if KeywordAt(s, w, "article") {
      assert ToLower(s[w + 0]) == "article"[0] == 'a';
    }
    if KeywordAt(s, w, "section") {
      assert ToLower(s[w + 0]) == "section"[0] == 's';
    }
  }

  /** `lstrip` drops exactly the leading run of whitespace. */
  lemma {:induction false} StripStartAt(s: string, w: nat)
    requires w < |s| && !IsSpace(s[w]) && SpacesIn(s, 0, w)
    ensures StripStart(s) == s[w..]
    decreases w
  {
    if w > 0 {
      assert IsSpace(s[0]);
      var t := s[1..];
      assert SpacesIn(t, 0, w - 1) by {
        forall k | 0 <= k < w - 1 ensures IsSpace(t[k]) {
          assert t[k] == s[k + 1];
        }
      }
      assert t[w - 1] == s[w];
      StripStartAt(t, w - 1);
      assert t[w - 1..] == s[w..];
    } else {
      assert StripStart(s) == s;
    }
  }

  /** A clause id taken from a match is the stripped matched text: it starts
      where the chunk's leading whitespace ends, with a digit or the initial
      of ARTICLE or SECTION, and has no whitespace at either end. */
  lemma ClauseIdOfBoundary(chunk: string, fallback: string)
    requires IsBoundary(chunk)
    ensures var id := ClauseId(chunk, fallback);
      id != [] && id[0] == chunk[SkipSpaces(chunk, 0)] &&
      !IsSpace(id[0]) && !IsSpace(id[|id| - 1]) &&
      (IsDigit(id[0]) || ToLower(id[0]) == 'a' || ToLower(id[0]) == 's')
  {
    MatchStart(chunk);
    SkipSpacesSpec(chunk, 0);
    StrippedMarker(chunk, Match(chunk).value, SkipSpaces(chunk, 0));
  }

  /** The stripped text of a match that starts, after `w` spaces, with a
      non-space character. */
  lemma StrippedMarker(chunk: string, n: nat, w: nat)
    requires w < n <= |chunk| && SpacesIn(chunk, 0, w) && !IsSpace(chunk[w])
    ensures var id := Strip(chunk[..n]);
      id != [] && id[0] == chunk[w] && !IsSpace(id[0]) && !IsSpace(id[|id| - 1])
  {
    var m := chunk[..n];
    assert SpacesIn(m, 0, w) by {
      forall k | 0 <= k < w ensures IsSpace(m[k]) {
        assert m[k] == chunk[k];
      }
    }
    assert m[w] == chunk[w];
    StripStartAt(m, w);
    var t := m[w..];
    assert t[0] == chunk[w];
    StripKeepsFirst(t);
    assert Strip(m) == StripEnd(t);
    assert Strip(t) == StripEnd(t);
  }

  lemma FallbackIffNoMarker(chunk: string, fallback: string)
    requires fallback != [] && !IsDigit(fallback[0])
    requires ToLower(fallback[0]) != 'a' && ToLower(fallback[0]) != 's'
    ensures ClauseId(chunk, fallback) == fallback <==> !IsBoundary(chunk)
  {
    if IsBoundary(chunk) {
      ClauseIdOfBoundary(chunk, fallback);
    }
  }

  /** A heading `d.d` followed by anything other than a digit or a dot, as
      in "1.1 Definitions" and "1.2 Term", gets the id `d.d`. */
  lemma DottedHeadingId(s: string, fallback: string)
    requires |s| >= 3 && IsDigit(s[0]) && s[1] == '.' && IsDigit(s[2])
    requires |s| > 3 ==> !IsDigit(s[3]) && s[3] != '.'
    ensures IsBoundary(s) && ClauseId(s, fallback) == s[..3]
  {
    SpacesEndAt(s, 0, 0);
    assert !KeywordAt(s, 0, "article") by { assert ToLower(s[0 + 0]) != "article"[0]; }
    assert !KeywordAt(s, 0, "section") by { assert ToLower(s[0 + 0]) != "section"[0]; }
    DigitsEndAt(s, 0, 1);
    DigitsEndAt(s, 2, 3);
    assert Match(s) == Some(3);
    StripUnchanged(s[..3]);
  }

  /** "ARTICLE I: INTRO" (ARTICLE in any case, one space, one numeral, then
      a non-numeral) gets the id "ARTICLE I". */
  lemma ArticleHeadingId(s: string, fallback: string)
    requires KeywordAt(s, 0, "article") && |s| >= 9 && s[7] == ' ' && IsNumeral(s[8])
    requires |s| > 9 ==> !IsNumeral(s[9])
    ensures IsBoundary(s) && ClauseId(s, fallback) == s[..9]
  {
    assert ToLower(s[0 + 0]) == "article"[0] == 'a';
    SpacesEndAt(s, 0, 0);
    SpacesEndAt(s, 7, 8);
    NumeralsEndAt(s, 8, 9);
    assert ArticleMatch(s) == Some(9);
    StripUnchanged(s[..9]);
  }

  /** Any line opening with ARTICLE, one space and a numeral, such as
      "ARTICLE II: TERMS", is a boundary. */
  lemma ArticleBoundary(s: string)
    requires KeywordAt(s, 0, "article") && |s| >= 9 && s[7] == ' ' && IsNumeral(s[8])
    ensures IsBoundary(s)
  {
    assert ToLower(s[0 + 0]) == "article"[0] == 'a';
    SpacesEndAt(s, 0, 0);
    SpacesEndAt(s, 7, 8);
    assert ArticleMatch(s).Some?;
  }

  /** A line whose first character cannot open a marker is no boundary. */
  lemma NotBoundary(line: string)
    requires line != [] ==> !IsSpace(line[0]) && !IsDigit(line[0])
    requires line != [] ==> ToLower(line[0]) != 'a' && ToLower(line[0]) != 's'
    ensures !IsBoundary(line)
  {
    if line != [] {
      SpacesEndAt(line, 0, 0);
      if IsBoundary(line) {
        MatchStart(line);
      }
    }
  }

  /** A line of whitespace only is no boundary. */
  lemma BlankNotBoundary(line: string)
    requires IsBlank(line)
    ensures !IsBoundary(line)
  {
    if IsBoundary(line) {
      MatchStart(line);
    }
  }

  /** A chunk whose first character is a non-space that cannot open a
      marker, like the preamble "This is a preamble with no clause
      markers.", gets the fallback id. */
  lemma PreambleFallback(chunk: string, fallback: string)
    requires chunk != [] && !IsSpace(chunk[0]) && !IsDigit(chunk[0])
    requires ToLower(chunk[0]) != 'a' && ToLower(chunk[0]) != 's'
    ensures ClauseId(chunk, fallback) == fallback
  {
    SpacesEndAt(chunk, 0, 0);
    if IsBoundary(chunk) {
      MatchStart(chunk);
    }
  }

  /** `\s` also matches line breaks, so a chunk "1.\nDefinitions" gets the
      id "1.\nD", which spans two lines. */
  lemma MarkerAcrossLines(rest: string, fallback: string)
    ensures ClauseId("1.\nD" + rest, fallback) == "1.\nD"
  {
    var s := "1.\nD" + rest;
    SpacesEndAt(s, 0, 0);
    assert !KeywordAt(s, 0, "article") by { assert ToLower(s[0 + 0]) != "article"[0]; }
    assert !KeywordAt(s, 0, "section") by { assert ToLower(s[0 + 0]) != "section"[0]; }
    DigitsEndAt(s, 0, 1);
    DigitsEndAt(s, 2, 2);
    SpacesEndAt(s, 2, 3);
    assert Match(s) == Some(4);
    assert s[..4] == "1.\nD";
    StripUnchanged("1.\nD");
  }
}
