/** What the chunker reads, character by character: lines, fences, headings, sentences, and the bodies of sections. */
module ChunkText {
  import opened Text
  import opened Chunking
  import opened ChunkLimits

  // ---------------------------------------------------------------- characters

  /** White space to Python but not to Go: the four separators, file to unit. */
  lemma SpacesDiffer(c: char)
    ensures IsSpace(c) <==> IsGoSpace(c) || 0x1c <= c as int <= 0x1f
  {
  }

  /** The line breaks of splitlines, by code point. */
  lemma LineBreaksAre(c: char)
    ensures IsLineBreak(c) <==> c as int in {10, 11, 12, 13, 28, 29, 30, 133, 0x2028, 0x2029}
    ensures IsLineBreak(c) ==> IsSpace(c)
  {
  }

  // ---------------------------------------------------------------- lines

  /** A line break: one character, or a carriage return with its line feed. */
  predicate IsBreak(b: string) { b == "\r\n" || (|b| == 1 && IsLineBreak(b[0])) }

  function Interleaved(lines: seq<string>, breaks: seq<string>): string
    requires |lines| == |breaks|
  {
    if lines == [] then "" else lines[0] + breaks[0] + Interleaved(lines[1..], breaks[1..])
  }

  predicate NoBreakIn(line: string) { forall i :: 0 <= i < |line| ==> !IsLineBreak(line[i]) }

  /** A line feed never stands alone behind a carriage return, and the text ends with the last line or its break. */
  predicate WellBroken(lines: seq<string>, breaks: seq<string>)
    requires |lines| == |breaks|
  {
    && (forall i :: 0 <= i < |lines| ==> NoBreakIn(lines[i]))
    && (forall i :: 0 <= i < |breaks| - 1 ==> IsBreak(breaks[i]))
    && (forall i :: 0 <= i < |breaks| - 1 ==>
         !(breaks[i] == "\r" && lines[i + 1] == "" && breaks[i + 1] != "" && breaks[i + 1][0] == '\n'))
    && (breaks != [] ==>
         IsBreak(breaks[|breaks| - 1]) || (breaks[|breaks| - 1] == "" && lines[|lines| - 1] != ""))
  }

  function BreaksOf(s: string): seq<string>
    decreases |s|
  {
    if s == "" then [] else
    var n := LineEnd(s);
    var k := BreakLength(s, n);
    [s[n..n + k]] + BreaksOf(s[n + k..])
  }

  lemma ThreePieces(s: string, n: nat, m: nat)
    requires n <= m <= |s|
    ensures s == s[..n] + s[n..m] + s[m..]
  {
  }

  lemma BreakAfter(s: string, n: nat)
    requires n < |s| && IsLineBreak(s[n])
    ensures var b := s[n..n + BreakLength(s, n)]; IsBreak(b) && (b == "\r" && n + 1 < |s| ==> s[n + 1] != '\n')
  {
    var k := BreakLength(s, n);
    if k == 2 {
      assert s[n..n + 2] == [s[n], s[n + 1]];
    } else {
      assert s[n..n + 1] == [s[n]];
    }
  }

  lemma FirstBreak(s: string)
    requires s != ""
    ensures var n := LineEnd(s);
      var b := s[n..n + BreakLength(s, n)];
      && NoBreakIn(s[..n]) && (if n == |s| then b == "" else IsBreak(b))
      && (b == "\r" && n + 1 < |s| ==> s[n + 1] != '\n')
  {
    var n := LineEnd(s);
    if n < |s| {
      BreakAfter(s, n);
    }
  }

  lemma FirstLineOf(s: string)
    requires s != ""
    ensures SplitLines(s) != [] && BreaksOf(s) != [] && SplitLines(s)[0] == s[..LineEnd(s)]
    ensures s[0] == '\n' ==> SplitLines(s)[0] == "" && BreaksOf(s)[0] == "\n"
    ensures s[0] != '\n' ==> SplitLines(s)[0] != "" || BreaksOf(s)[0] == "" || BreaksOf(s)[0][0] != '\n'
  {
  }

  lemma OneMoreLine(line: string, b: string, lines: seq<string>, breaks: seq<string>)
    requires |lines| == |breaks| && NoBreakIn(line) && WellBroken(lines, breaks)
    requires if lines == [] then IsBreak(b) || (b == "" && line != "") else IsBreak(b)
    requires b == "\r" && lines != [] ==> !(lines[0] == "" && breaks[0] != "" && breaks[0][0] == '\n')
    ensures WellBroken([line] + lines, [b] + breaks)
    ensures Interleaved([line] + lines, [b] + breaks) == line + b + Interleaved(lines, breaks)
  {
    assert ([line] + lines)[1..] == lines && ([b] + breaks)[1..] == breaks;
  }

  /** The lines of a text and the breaks between them are the text, cut at every line break and nowhere else. */
  lemma {:induction false} LinesAreCut(s: string)
    ensures |SplitLines(s)| == |BreaksOf(s)| && WellBroken(SplitLines(s), BreaksOf(s))
    ensures Interleaved(SplitLines(s), BreaksOf(s)) == s
    decreases |s|
  {
    if s != "" {
      var n := LineEnd(s);
      var k := BreakLength(s, n);
      var rest := s[n + k..];
      LinesAreCut(rest);
      FirstBreak(s);
      ThreePieces(s, n, n + k);
      if rest != "" {
        FirstLineOf(rest);
        assert rest[0] == s[n + k];
      }
      OneMoreLine(s[..n], s[n..n + k], SplitLines(rest), BreaksOf(rest));
    }
  }

  // ---------------------------------------------------------------- fences and headings

  lemma {:induction false} TrimmedStart(s: string, k: nat, blank: char -> bool)
    requires k <= |s| && (forall i :: 0 <= i < k ==> blank(s[i])) && (k < |s| ==> !blank(s[k]))
    ensures TrimLeft(s, blank) == s[k..]
  {
    if k > 0 {
      TrimmedStart(s[1..], k - 1, blank);
      assert s[1..][k - 1..] == s[k..];
    }
  }

  predicate IsFenceAt(line: string, k: nat) {
    k + 3 <= |line| && (forall i :: 0 <= i < k ==> IsSpace(line[i])) && line[k..k + 3] == "```"
  }

  lemma {:induction false} TrimLeftIs(s: string, blank: char -> bool)
    ensures var k := |s| - |TrimLeft(s, blank)|;
      (forall i :: 0 <= i < k ==> blank(s[i])) && s[k..] == TrimLeft(s, blank)
  {
    if s != "" && blank(s[0]) {
      TrimLeftIs(s[1..], blank);
      var k := |s| - |TrimLeft(s, blank)|;
      forall i | 0 < i < k
        ensures blank(s[i])
      {
        assert s[i] == s[1..][i - 1];
      }
    }
  }

  lemma FenceFound(line: string, k: nat)
    requires IsFenceAt(line, k)
    ensures IsFence(line)
  {
    assert line[k] == line[k..k + 3][0] == '`';
    TrimmedStart(line, k, IsSpace);
    assert line[k..][..3] == line[k..k + 3];
  }

  lemma FenceStands(line: string) returns (k: nat)
    requires IsFence(line)
    ensures IsFenceAt(line, k)
  {
    k := |line| - |TrimLeft(line, IsSpace)|;
    TrimLeftIs(line, IsSpace);
    assert line[k..][..3] == line[k..k + 3];
  }

  /** A fence line: three back-ticks behind white space. */
  lemma FenceIs(line: string)
    ensures IsFence(line) <==> exists k: nat :: IsFenceAt(line, k)
  {
    if IsFence(line) {
      var k := FenceStands(line);
    }
    if k: nat :| IsFenceAt(line, k) {
      FenceFound(line, k);
    }
  }

  lemma {:induction false} HashesCounted(line: string)
    ensures HashCount(line) <= |line| && (forall i :: 0 <= i < HashCount(line) ==> line[i] == '#')
    ensures HashCount(line) < |line| ==> line[HashCount(line)] != '#'
  {
    if line != "" && line[0] == '#' {
      HashesCounted(line[1..]);
      forall i | 0 < i < HashCount(line)
        ensures line[i] == '#'
      {
        assert line[i] == line[1..][i - 1];
      }
    }
  }

  /** A heading of level n: n hashes, one to six of them, and white space. */
  lemma HeadingIs(line: string, n: nat)
    requires n > 0
    ensures HeadingLevel(line) == n <==>
      n <= 6 && n < |line| && (forall i :: 0 <= i < n ==> line[i] == '#') && IsSpace(line[n])
  {
    HashesCounted(line);
    var h := HashCount(line);
    if h < n < |line| {
      assert line[h] != '#';
    }
  }

  // ---------------------------------------------------------------- sentences

  /** A sentence ends before j and the next one begins at e. */
  predicate BreakAt(s: string, j: nat, e: nat) {
    && 0 < j < e < |s| && (s[j - 1] == '.' || s[j - 1] == '!' || s[j - 1] == '?')
    && (forall k :: j <= k < e ==> IsSpace(s[k])) && ('A' <= s[e] <= 'Z' || '0' <= s[e] <= '9')
  }

  lemma SentenceBreakIs(s: string, j: nat)
    ensures IsSentenceBreak(s, j) <==> exists e: nat :: BreakAt(s, j, e)
  {
    if IsSentenceBreak(s, j) {
      assert BreakAt(s, j, RunEnd(s, j));
    }
    if e: nat :| BreakAt(s, j, e) {
      assert RunEnd(s, j) == e;
    }
  }

  /** The sentences are the text cut at every such break and nowhere else, without the white space between them. */
  ghost predicate CutInto(s: string, from: nat, sentences: seq<string>)
    requires from <= |s|
    decreases |sentences|
  {
    sentences != [] && |sentences[0]| <= |s| - from && sentences[0] == s[from..from + |sentences[0]|]
    && var j := from + |sentences[0]|;
    && (forall k: nat, e: nat :: from <= k < j ==> !BreakAt(s, k, e))
    && (if |sentences| == 1 then j == |s| else exists e: nat :: BreakAt(s, j, e) && CutInto(s, e, sentences[1..]))
  }

  lemma NoBreakBefore(s: string, from: nat)
    requires from <= |s|
    ensures forall k: nat, e: nat :: from <= k < SentenceEnd(s, from) ==> !BreakAt(s, k, e)
  {
    forall k: nat, e: nat | from <= k < SentenceEnd(s, from)
      ensures !BreakAt(s, k, e)
    {
      SentenceBreakIs(s, k);
    }
  }

  lemma {:induction false} SentencesAreCut(s: string, from: nat)
    requires from <= |s|
    ensures CutInto(s, from, SentencesFrom(s, from))
    decreases |s| - from
  {
    var j := SentenceEnd(s, from);
    NoBreakBefore(s, from);
    if j < |s| {
      SentenceBreakIs(s, j);
      var e: nat :| BreakAt(s, j, e);
      assert RunEnd(s, j) == e;
      SentencesAreCut(s, e);
      assert SentencesFrom(s, from)[1..] == SentencesFrom(s, e);
    }
  }

  // ---------------------------------------------------------------- the bodies of sections

  ghost predicate Contiguous(lines: seq<string>, s: Section) {
    exists a, b :: 0 <= a <= b <= |lines| && s.lines == lines[a..b]
  }

  ghost predicate AllContiguous(lines: seq<string>, sections: seq<Section>) {
    forall i :: 0 <= i < |sections| ==> Contiguous(lines, sections[i])
  }

  /** The open section holds the lines from c up to n. */
  ghost predicate OpenFrom(lines: seq<string>, n: nat, c: nat, st: Splitter) {
    c <= n <= |lines| && st.current.lines == lines[c..n] && AllContiguous(lines, st.done)
  }

  lemma ClosedContiguous(lines: seq<string>, n: nat, c: nat, st: Splitter)
    requires OpenFrom(lines, n, c, st)
    ensures AllContiguous(lines, Closed(st))
  {
    assert Contiguous(lines, st.current);
  }

  lemma LinesOneMore(lines: seq<string>, c: nat, n: nat)
    requires c <= n < |lines|
    ensures lines[c..n] + [lines[n]] == lines[c..n + 1]
  {
  }

  lemma FeedOpen(lines: seq<string>, n: nat, c: nat, st: Splitter)
    requires OpenFrom(lines, n, c, st) && n < |lines|
    ensures OpenFrom(lines, n + 1, if StartsSection(st, lines[n]) then n + 1 else c, Feed(st, lines[n]))
  {
    ClosedContiguous(lines, n, c, st);
    LinesOneMore(lines, c, n);
  }

  lemma SectionsContiguous(lines: seq<string>)
    ensures AllContiguous(lines, Closed(FeedAll(lines)))
  {
    var c: nat := 0;
    assert FeedAll(lines[..0]).done == [];
    for n := 0 to |lines|
      invariant OpenFrom(lines, n, c, FeedAll(lines[..n]))
    {
      FeedAllOneMore(lines, n);
      FeedOpen(lines, n, c, FeedAll(lines[..n]));
      c := if StartsSection(FeedAll(lines[..n]), lines[n]) then n + 1 else c;
    }
    TakeAll(lines);
    ClosedContiguous(lines, |lines|, c, FeedAll(lines));
  }

  predicate OnlyLineFeeds(s: string) { forall i :: 0 <= i < |s| && IsLineBreak(s[i]) ==> s[i] == '\n' }

  lemma LaterFed(s: string, n: nat)
    requires OnlyLineFeeds(s) && n <= |s|
    ensures OnlyLineFeeds(s[n..])
  {
    var rest := s[n..];
    forall i | 0 <= i < |rest| && IsLineBreak(rest[i])
      ensures rest[i] == '\n'
    {
      assert rest[i] == s[n + i];
    }
  }

  lemma SplitFirst(s: string, n: nat, k: nat)
    requires s != "" && n == LineEnd(s) && k == BreakLength(s, n)
    ensures SplitLines(s) == [s[..n]] + SplitLines(s[n + k..])
  {
  }

  lemma OneLineOnly(s: string)
    requires s != "" && LineEnd(s) == |s|
    ensures |SplitLines(s)| == 1
  {
    SplitFirst(s, |s|, 0);
    assert SplitLines(s[|s|..]) == [];
  }

  lemma GluedFront(line: string, rest: string, front: string, q: string)
    requires rest == front + q
    ensures (line + "\n" + front) + q == line + "\n" + rest
  {
  }

  lemma CutAtFeed(s: string, n: nat)
    requires n < |s| && s[n] == '\n'
    ensures s == s[..n] + "\n" + s[n + 1..]
  {
  }

  lemma JoinFirst(line: string, lines: seq<string>, b: nat)
    requires 0 < b <= |lines|
    ensures Join(([line] + lines)[..b + 1], "\n") == line + "\n" + Join(lines[..b], "\n")
  {
    assert ([line] + lines)[..b + 1] == [line] + lines[..b];
    assert ([line] + lines[..b])[1..] == lines[..b];
  }

  lemma LaterLines(line: string, lines: seq<string>, a: nat, b: nat)
    requires 0 < a <= b <= |lines| + 1
    ensures ([line] + lines)[a..b] == lines[a - 1..b - 1]
  {
  }

  /** The first of several lines, and the text behind its line feed. */
  lemma FirstOfLines(s: string) returns (line: string, rest: string)
    requires OnlyLineFeeds(s) && |SplitLines(s)| > 1
    ensures s == line + "\n" + rest && OnlyLineFeeds(rest) && SplitLines(s) == [line] + SplitLines(rest)
  {
    var n := LineEnd(s);
    if n == |s| {
      OneLineOnly(s);
    }
    line, rest := s[..n], s[n + 1..];
    assert s[n] == '\n';
    SplitFirst(s, n, 1);
    LaterFed(s, n + 1);
    CutAtFeed(s, n);
  }

  lemma FirstAlone(s: string) returns (q: string)
    requires s != ""
    ensures SplitLines(s) != [] && SplitLines(s)[0] + q == s
  {
    SplitFirst(s, LineEnd(s), BreakLength(s, LineEnd(s)));
    q := s[LineEnd(s)..];
    Halves(s, LineEnd(s));
  }

  lemma JoinOfFirst(lines: seq<string>)
    requires lines != []
    ensures Join(lines[..1], "\n") == lines[0]
  {
    assert lines[..1] == [lines[0]];
  }

  /** The first b lines, joined, are the beginning of the text. */
  lemma {:induction false} LinesAreAPrefix(s: string, b: nat) returns (q: string)
    requires OnlyLineFeeds(s) && 0 < b <= |SplitLines(s)|
    ensures Join(SplitLines(s)[..b], "\n") + q == s
    decreases |s|
  {
    if b == 1 {
      q := FirstAlone(s);
      JoinOfFirst(SplitLines(s));
    } else {
      var line, rest := FirstOfLines(s);
      q := LinesAreAPrefix(rest, b - 1);
      JoinFirst(line, SplitLines(rest), b - 1);
      GluedFront(line, rest, Join(SplitLines(rest)[..b - 1], "\n"), q);
    }
  }

  lemma Nested(a: string, p: string, m: string, q: string)
    ensures (a + p) + m + q == a + (p + m + q)
  {
  }

  lemma FirstLinesStand(s: string, b: nat) returns (p: string, q: string)
    requires OnlyLineFeeds(s) && 0 < b <= |SplitLines(s)|
    ensures p + Join(SplitLines(s)[0..b], "\n") + q == s
  {
    p := "";
    q := LinesAreAPrefix(s, b);
    NoneBefore(Join(SplitLines(s)[..b], "\n"));
  }

  lemma StandsLater(line: string, lines: seq<string>, a: nat, b: nat, front: string, q: string)
    requires 0 < a < b <= |lines| + 1
    ensures (line + "\n" + front) + Join(([line] + lines)[a..b], "\n") + q
      == line + "\n" + (front + Join(lines[a - 1..b - 1], "\n") + q)
  {
    LaterLines(line, lines, a, b);
    Nested(line + "\n", front, Join(lines[a - 1..b - 1], "\n"), q);
  }

  /** Any lines that follow one another, joined, stand in the text as they are. */
  lemma {:induction false} LinesStandInText(s: string, a: nat, b: nat) returns (p: string, q: string)
    requires OnlyLineFeeds(s) && a < b <= |SplitLines(s)|
    ensures p + Join(SplitLines(s)[a..b], "\n") + q == s
    decreases |s|
  {
    if a == 0 {
      p, q := FirstLinesStand(s, b);
    } else {
      var line, rest := FirstOfLines(s);
      var front;
      front, q := LinesStandInText(rest, a - 1, b - 1);
      p := line + "\n" + front;
      StandsLater(line, SplitLines(rest), a, b, front, q);
    }
  }

  lemma InTheMiddle(p: string, a: string, m: string, b: string, q: string)
    ensures p + (a + m + b) + q == (p + a) + m + (b + q)
  {
  }

  lemma BodyInLines(s: Section) returns (p: string, q: string)
    ensures p + Body(s) + q == Join(s.lines, "\n")
  {
    p, q := TrimInside(Join(s.lines, "\n"), IsSpace);
  }

  lemma NoLinesNoBody(s: Section)
    ensures s.lines == [] ==> Body(s) == ""
  {
    if s.lines == [] {
      assert Join(s.lines, "\n") == "" && Strip("") == "";
    }
  }

  /** Where the only line breaks are line feeds, the body of every section stands in the document, word for word. */
  lemma BodyIsVerbatim(text: string, k: nat) returns (p: string, q: string)
    requires OnlyLineFeeds(text) && k < |SplitSections(text)| && Body(SplitSections(text)[k]) != ""
    ensures p + Body(SplitSections(text)[k]) + q == text
  {
    var lines, s := SplitLines(text), SplitSections(text)[k];
    SectionsContiguous(lines);
    assert Contiguous(lines, s);
    var a, b :| 0 <= a <= b <= |lines| && s.lines == lines[a..b];
    NoLinesNoBody(s);
    var before, after := LinesStandInText(text, a, b);
    var front, tail := BodyInLines(s);
    InTheMiddle(before, front, Body(s), tail, after);
    p, q := before + front, tail + after;
  }
}
