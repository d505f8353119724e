/** Concrete documents: the two ways past the size budget, and a heading filed under its sibling. */
module ChunkDocuments {
  import opened Text
  import opened Chunking
  import opened ChunkConservation
  import opened ChunkShape
  import opened ChunkOutline
  import opened ChunkLimits

  // ---------------------------------------------------------------- lines

  predicate OneLine(s: string) { Solid(s) && forall i :: 0 <= i < |s| ==> !IsLineBreak(s[i]) }

  /** A line of prose: no fence, no heading. */
  predicate ProseLine(line: string) { OneLine(line) && HeadingLevel(line) == 0 && !IsFence(line) }

  lemma {:induction false} NoBreakInside(s: string)
    requires forall i :: 0 <= i < |s| ==> !IsLineBreak(s[i])
    ensures LineEnd(s) == |s|
  {
    if s != "" {
      NoBreakInside(s[1..]);
    }
  }

  lemma LastLine(line: string)
    requires OneLine(line)
    ensures SplitLines(line) == [line]
  {
    NoBreakInside(line);
    assert line[..|line|] == line && line[|line|..] == "";
  }

  lemma {:induction false} LineEndsAt(line: string, rest: string)
    requires forall i :: 0 <= i < |line| ==> !IsLineBreak(line[i])
    ensures LineEnd(line + "\n" + rest) == |line|
  {
    if line == "" {
      assert "" + "\n" + rest == "\n" + rest;
    } else {
      assert (line + "\n" + rest)[1..] == line[1..] + "\n" + rest;
      LineEndsAt(line[1..], rest);
    }
  }

  lemma FirstLine(line: string, rest: string)
    requires forall i :: 0 <= i < |line| ==> !IsLineBreak(line[i])
    ensures SplitLines(line + "\n" + rest) == [line] + SplitLines(rest)
  {
    var text := line + "\n" + rest;
    LineEndsAt(line, rest);
    assert text[|line|] == '\n' && text[..|line|] == line && text[|line| + 1..] == rest;
  }

  lemma FourInOrder<T>(a: T, b: T, c: T, d: T)
    ensures [a] + ([b] + ([c] + [d])) == [] + [a] + [b] + [c] + [d]
  {
  }

  lemma FourLines(a: string, b: string, c: string, d: string)
    requires OneLine(a) && OneLine(b) && OneLine(c) && OneLine(d)
    ensures SplitLines(a + "\n" + (b + "\n" + (c + "\n" + d))) == [] + [a] + [b] + [c] + [d]
  {
    FirstLine(a, b + "\n" + (c + "\n" + d));
    FirstLine(b, c + "\n" + d);
    FirstLine(c, d);
    LastLine(d);
    FourInOrder(a, b, c, d);
  }

  lemma NoFence(line: string)
    requires line != "" && !IsSpace(line[0]) && line[0] != '`'
    ensures !IsFence(line)
  {
    assert TrimLeft(line, IsSpace) == line && "```"[0] == '`';
  }

  lemma StripGlued(s: string)
    requires s != "" && !IsSpace(s[0]) && !IsSpace(s[|s| - 1])
    ensures Strip("" + " " + s) == s && Strip(s) == s
  {
    assert "" + " " + s == [' '] + s;
    assert ([' '] + s)[1..] == s;
  }

  lemma FeedOneMore(lines: seq<string>, line: string)
    ensures FeedAll(lines + [line]) == Feed(FeedAll(lines), line)
  {
    assert (lines + [line])[..|lines|] == lines;
  }

  // ---------------------------------------------------------------- headings

  function Hashes(n: nat): string { if n == 0 then "" else "#" + Hashes(n - 1) }

  function HeadingLine(level: nat, title: string): string { Hashes(level) + (" " + title) }

  lemma {:induction false} HashesCount(n: nat, s: string)
    requires s == "" || s[0] != '#'
    ensures |Hashes(n)| == n && HashCount(Hashes(n) + s) == n
  {
    if n == 0 {
      assert "" + s == s;
    } else {
      HashesCount(n - 1, s);
      assert (Hashes(n) + s)[1..] == Hashes(n - 1) + s && (Hashes(n) + s)[0] == '#';
    }
  }

  lemma TitleIs(level: nat, title: string)
    requires Solid(title)
    ensures level <= |HeadingLine(level, title)| && Strip(HeadingLine(level, title)[level..]) == title
  {
    HashesCount(level, " " + title);
    assert HeadingLine(level, title)[level..] == "" + " " + title;
    StripGlued(title);
  }

  lemma {:induction false} HashesUnbroken(n: nat)
    ensures forall i :: 0 <= i < |Hashes(n)| ==> Hashes(n)[i] == '#'
  {
    if n > 0 {
      HashesUnbroken(n - 1);
    }
  }

  lemma HeadingIsOneLine(level: nat, title: string)
    requires 0 < level && OneLine(title)
    ensures OneLine(HeadingLine(level, title)) && HeadingLine(level, title)[0] == '#'
  {
    var line := HeadingLine(level, title);
    HashesCount(level, " " + title);
    HashesUnbroken(level);
    assert line[0] == Hashes(level)[0] && line[|line| - 1] == title[|title| - 1];
    forall i | 0 <= i < |line|
      ensures !IsLineBreak(line[i])
    {
      assert line[i] == if i < level then '#' else if i == level then ' ' else title[i - level - 1];
    }
  }

  lemma HeadingIs(level: nat, title: string)
    requires 1 <= level <= 6 && OneLine(title)
    ensures var line := HeadingLine(level, title);
      HeadingLevel(line) == level && HeadOf(line) == Head(level, title) && !IsFence(line)
  {
    HashesCount(level, " " + title);
    TitleIs(level, title);
    HeadingIsOneLine(level, title);
    NoFence(HeadingLine(level, title));
    assert HeadingLine(level, title)[level] == ' ';
  }

  lemma FeedHeading(st: Splitter, level: nat, title: string)
    requires 1 <= level <= 6 && OneLine(title) && !st.inFence
    ensures var stack := PushTitle(st.stack, Head(level, title));
      Feed(st, HeadingLine(level, title)) == Splitter(Closed(st), stack, Section(stack, []), false)
  {
    HeadingIs(level, title);
  }

  lemma FeedProse(st: Splitter, line: string)
    requires ProseLine(line) && st.current.lines == [] && !st.inFence
    ensures Feed(st, line) == st.(current := Section(st.current.path, [line]))
  {
    NoneBefore([line]);
  }

  lemma BodyOfLine(path: seq<string>, line: string)
    requires Solid(line)
    ensures Body(Section(path, [line])) == line && Body(Section(path, [])) == ""
  {
    StripGlued(line);
  }

  lemma ClosesWith(st: Splitter, line: string)
    requires Solid(line) && st.current.lines == [line]
    ensures Closed(st) == st.done + [st.current]
  {
    BodyOfLine(st.current.path, line);
  }

  lemma ClosesEmpty(st: Splitter)
    requires st.current.lines == []
    ensures Closed(st) == st.done
  {
  }

  // ---------------------------------------------------------------- a heading filed under its sibling

  function SkippingDocument(a: string, b: string, c: string, prose: string): string {
    HeadingLine(1, a) + "\n" + (HeadingLine(3, b) + "\n" + (HeadingLine(3, c) + "\n" + prose))
  }

  lemma LinesOfSkipping(a: string, b: string, c: string, prose: string)
    requires OneLine(a) && OneLine(b) && OneLine(c) && ProseLine(prose)
    ensures SplitLines(SkippingDocument(a, b, c, prose)) ==
      [] + [HeadingLine(1, a)] + [HeadingLine(3, b)] + [HeadingLine(3, c)] + [prose]
  {
    HeadingIsOneLine(1, a);
    HeadingIsOneLine(3, b);
    HeadingIsOneLine(3, c);
    FourLines(HeadingLine(1, a), HeadingLine(3, b), HeadingLine(3, c), prose);
  }

  /** A heading right behind another one. */
  lemma FeedNextHeading(lines: seq<string>, level: nat, title: string)
    requires 1 <= level <= 6 && OneLine(title)
    requires !FeedAll(lines).inFence && FeedAll(lines).current.lines == [] && FeedAll(lines).done == []
    ensures var stack := PushTitle(FeedAll(lines).stack, Head(level, title));
      FeedAll(lines + [HeadingLine(level, title)]) == Splitter([], stack, Section(stack, []), false)
  {
    FeedOneMore(lines, HeadingLine(level, title));
    FeedHeading(FeedAll(lines), level, title);
    ClosesEmpty(FeedAll(lines));
  }

  lemma PushDeep(stack: seq<string>, level: nat, title: string)
    requires level > |stack|
    ensures PushTitle(stack, Head(level, title)) == stack + [title]
  {
  }

  lemma SkippedStacks(a: string, b: string, c: string)
    requires OneLine(a) && OneLine(b) && OneLine(c)
    ensures FeedAll([] + [HeadingLine(1, a)] + [HeadingLine(3, b)] + [HeadingLine(3, c)]) ==
      Splitter([], [] + [a] + [b] + [c], Section([] + [a] + [b] + [c], []), false)
  {
    FeedNextHeading([], 1, a);
    PushDeep([], 1, a);
    FeedNextHeading([] + [HeadingLine(1, a)], 3, b);
    PushDeep([] + [a], 3, b);
    FeedNextHeading([] + [HeadingLine(1, a)] + [HeadingLine(3, b)], 3, c);
    PushDeep([] + [a] + [b], 3, c);
  }

  lemma HeadsOneMore(lines: seq<string>, level: nat, title: string)
    requires 1 <= level <= 6 && OneLine(title) && !FenceOpen(lines)
    ensures Heads(lines + [HeadingLine(level, title)]) == Heads(lines) + [Head(level, title)]
    ensures !FenceOpen(lines + [HeadingLine(level, title)])
  {
    HeadingIs(level, title);
    assert (lines + [HeadingLine(level, title)])[..|lines|] == lines;
  }

  lemma NoHeadingMore(lines: seq<string>, line: string)
    requires ProseLine(line)
    ensures Heads(lines + [line]) == Heads(lines)
  {
    assert (lines + [line])[..|lines|] == lines;
  }

  lemma HeadsOfSkipping(a: string, b: string, c: string, prose: string)
    requires OneLine(a) && OneLine(b) && OneLine(c) && ProseLine(prose)
    ensures Heads([] + [HeadingLine(1, a)] + [HeadingLine(3, b)] + [HeadingLine(3, c)] + [prose]) ==
      [] + [Head(1, a)] + [Head(3, b)] + [Head(3, c)]
  {
    HeadsOneMore([], 1, a);
    HeadsOneMore([] + [HeadingLine(1, a)], 3, b);
    HeadsOneMore([] + [HeadingLine(1, a)] + [HeadingLine(3, b)], 3, c);
    NoHeadingMore([] + [HeadingLine(1, a)] + [HeadingLine(3, b)] + [HeadingLine(3, c)], prose);
  }

  lemma SkippedAncestry(a: string, b: string, c: string)
    ensures Ancestry([] + [Head(1, a)] + [Head(3, b)] + [Head(3, c)], 2) == [0, 2]
  {
    var heads := [] + [Head(1, a)] + [Head(3, b)] + [Head(3, c)];
    assert Above(heads, 1, 3) == Above(heads, 0, 1) + [0] == [0];
    assert Above(heads, 2, 3) == Above(heads, 1, 3);
  }

  /** Levels 1, 3, 3: whatever the titles, the document's one section is filed under the second heading too. */
  lemma SkippedLevelMisfilesSibling(a: string, b: string, c: string, prose: string)
    requires OneLine(a) && OneLine(b) && OneLine(c) && ProseLine(prose)
    ensures var text := SkippingDocument(a, b, c, prose);
      && SplitSections(text) == [] + [Section([] + [a] + [b] + [c], [prose])]
      && Heads(SplitLines(text)) == [] + [Head(1, a)] + [Head(3, b)] + [Head(3, c)]
      && Ancestry(Heads(SplitLines(text)), 2) == [0, 2]
  {
    var lines := [] + [HeadingLine(1, a)] + [HeadingLine(3, b)] + [HeadingLine(3, c)];
    LinesOfSkipping(a, b, c, prose);
    SkippedStacks(a, b, c);
    FeedOneMore(lines, prose);
    FeedProse(FeedAll(lines), prose);
    ClosesWith(FeedAll(lines + [prose]), prose);
    HeadsOfSkipping(a, b, c, prose);
    SkippedAncestry(a, b, c);
  }

  // ---------------------------------------------------------------- past the budget: a long sentence

  /** "A. B" and then `n` times 'x': a short sentence before one of n + 1 characters. */
  function LongSecondSentence(n: nat): (s: string)
    ensures |s| == n + 4 && s[..4] == "A. B" && forall i :: 4 <= i < |s| ==> s[i] == 'x'
  {
    "A. B" + seq(n, i => 'x')
  }

  lemma {:induction false} NoLaterBreak(n: nat, i: nat)
    requires 3 <= i <= n + 4
    ensures SentenceEnd(LongSecondSentence(n), i) == n + 4
    decreases n + 4 - i
  {
    var s := LongSecondSentence(n);
    assert s[2] == s[..4][2] && s[3] == s[..4][3];
    if i < n + 4 {
      NoLaterBreak(n, i + 1);
    }
  }

  lemma SentencesOfLong(n: nat)
    ensures Sentences(LongSecondSentence(n)) == ["A.", LongSecondSentence(n)[3..]]
  {
    var s := LongSecondSentence(n);
    assert s[0] == s[..4][0] == 'A' && s[1] == s[..4][1] == '.' && s[2] == s[..4][2] == ' ' && s[3] == s[..4][3] == 'B';
    assert RunEnd(s, 3) == 3;
    assert RunEnd(s, 2) == 3;
    assert !IsSentenceBreak(s, 0) && !IsSentenceBreak(s, 1) && IsSentenceBreak(s, 2);
    assert SentenceEnd(s, 2) == 2;
    assert SentenceEnd(s, 1) == 2;
    assert SentenceEnd(s, 0) == 2;
    NoLaterBreak(n, 3);
    assert SentencesFrom(s, 3) == [s[3..]];
    assert s[0..2] == "A.";
  }

  lemma NothingToResume()
    ensures Resume("A.") == "" && NonSpace("") == ""
  {
    assert IndexOfBlank("A.") == 2;
  }

  lemma FirstStep()
    ensures Pack(PackAll([]), "A.") == Packing([], Part("A.", 0))
  {
    StripGlued("A.");
  }

  lemma SecondStep(second: string)
    requires |second| > MAX_CHARS && !IsSpace(second[0]) && !IsSpace(second[|second| - 1])
    ensures Pack(Packing([], Part("A.", 0)), second) == Packing([Part("A.", 0)], Part(second, 0))
  {
    NothingToResume();
    StripGlued(second);
    assert [] + [Part("A.", 0)] == [Part("A.", 0)];
  }

  lemma PackTwo(first: string, second: string)
    ensures PackAll([first, second]) == Pack(Pack(PackAll([]), first), second)
  {
    assert [first, second][..1] == [first] && [first][..0] == [];
  }

  lemma SplitOfPacking(body: string, st: Packing)
    requires PackAll(Sentences(body)) == st && st.buf.text != ""
    ensures SplitOversized(body) == st.parts + [st.buf]
  {
  }

  lemma SecondSentence(n: nat)
    ensures var second := LongSecondSentence(n)[3..];
      |second| == n + 1 && second[0] == 'B' && (n > 0 ==> second[n] == 'x')
  {
    var s := LongSecondSentence(n);
    assert s[3] == s[..4][3];
  }

  lemma TwoSentences(text: string, second: string)
    requires Sentences(text) == ["A.", second] && |second| > MAX_CHARS
    requires !IsSpace(second[0]) && !IsSpace(second[|second| - 1])
    ensures SplitOversized(text) == [Part("A.", 0)] + [Part(second, 0)]
  {
    FirstStep();
    SecondStep(second);
    PackTwo("A.", second);
    SplitOfPacking(text, Packing([Part("A.", 0)], Part(second, 0)));
  }

  lemma LongIsProse(n: nat)
    requires n > 0
    ensures ProseLine(LongSecondSentence(n))
  {
    var s := LongSecondSentence(n);
    assert s[0] == s[..4][0] == 'A' && s[1] == s[..4][1] == '.' && s[2] == s[..4][2] == ' ' && s[3] == s[..4][3] == 'B';
    assert s[|s| - 1] == 'x';
    NoFence(s);
  }

  lemma OneSection(line: string)
    requires ProseLine(line)
    ensures SplitSections(line) == [Section([], [line])]
  {
    LastLine(line);
    FeedOneMore([], line);
    NoneBefore([line]);
    ClosesWith(FeedAll([line]), line);
    NoneBefore([Section([], [line])]);
  }

  lemma AddAllOneMore(sections: seq<Section>, s: Section)
    ensures AddAll(sections + [s]) == Add(AddAll(sections), s)
  {
    assert (sections + [s])[..|sections|] == sections;
  }

  lemma FlushNothing(p: Packer)
    requires p.body == ""
    ensures Flush(p).out == p.out
  {
  }

  lemma FlushText(p: Packer)
    requires p.body != "" && Strip(p.body) == p.body
    ensures Flush(p).out == p.out + [Draft(p.heading, [Part(p.body, 0)])]
  {
  }

  lemma AddedOversized(p: Packer, s: Section)
    requires |Body(s)| > MAX_CHARS && p.body == ""
    ensures Flush(Add(p, s)).out == p.out + Singles(Heading(s), SplitOversized(Body(s)))
  {
    FlushNothing(p);
    FlushNothing(Add(p, s));
  }

  lemma OneAdded(s: Section)
    requires |Body(s)| > MAX_CHARS
    ensures Flush(AddAll([s])).out == Singles(Heading(s), SplitOversized(Body(s)))
  {
    AddAllOneMore([], s);
    assert [] + [s] == [s];
    AddedOversized(AddAll([]), s);
    var singles := Singles(Heading(s), SplitOversized(Body(s)));
    assert [] + singles == singles;
  }

  lemma OneOversizedSection(line: string)
    requires ProseLine(line) && |line| > MAX_CHARS
    ensures Unfolded(line) == Singles("", SplitOversized(line))
  {
    OneSection(line);
    BodyOfLine([], line);
    OneAdded(Section([], [line]));
  }

  lemma TwoSingles(a: Part, b: Part)
    requires |b.text| >= MIN_CHARS
    ensures Number(Fold(Singles("", [a] + [b]))) == [Chunk(0, "", a.text)] + [Chunk(1, "", b.text)]
  {
    var drafts := Singles("", [a] + [b]);
    assert Texts([a]) == [a.text] && Texts([b]) == [b.text];
    assert drafts[0] == Draft("", [a]) && drafts[1] == Draft("", [b]);
  }

  /** The first way past: a long sentence behind a short one. This document has a chunk of n + 1 characters. */
  lemma LongSentenceEscapesBudget(n: nat)
    requires n >= MAX_CHARS
    ensures var text := LongSecondSentence(n);
      |text[3..]| == n + 1 && ChunkDocument(text) == [Chunk(0, "", "A.")] + [Chunk(1, "", text[3..])]
  {
    var text := LongSecondSentence(n);
    SecondSentence(n);
    SentencesOfLong(n);
    TwoSentences(text, text[3..]);
    LongIsProse(n);
    OneOversizedSection(text);
    TwoSingles(Part("A.", 0), Part(text[3..], 0));
  }

  // ---------------------------------------------------------------- past the budget: a folded scrap

  /** Two sections under one heading, of one line each. */
  function HeadedTwice(h: string, x: string, y: string): string {
    HeadingLine(1, h) + "\n" + (x + "\n" + (HeadingLine(1, h) + "\n" + y))
  }

  lemma OnlyTitle(stack: seq<string>, h: string)
    requires |stack| <= 1
    ensures PushTitle(stack, Head(1, h)) == [h]
  {
  }

  /** A heading and one line of prose: the section before closes, and this one opens. */
  lemma FeedHeadedLine(lines: seq<string>, h: string, line: string)
    requires OneLine(h) && ProseLine(line) && !FeedAll(lines).inFence && |FeedAll(lines).stack| <= 1
    ensures FeedAll(lines + [HeadingLine(1, h)] + [line]) ==
      Splitter(Closed(FeedAll(lines)), [h], Section([h], [line]), false)
  {
    FeedOneMore(lines, HeadingLine(1, h));
    FeedOneMore(lines + [HeadingLine(1, h)], line);
    FeedHeading(FeedAll(lines), 1, h);
    OnlyTitle(FeedAll(lines).stack, h);
    FeedProse(FeedAll(lines + [HeadingLine(1, h)]), line);
  }

  lemma TwoHeadedSections(h: string, x: string, y: string)
    requires OneLine(h) && ProseLine(x) && ProseLine(y)
    ensures SplitSections(HeadedTwice(h, x, y)) == [] + [Section([h], [x])] + [Section([h], [y])]
  {
    var lines := [] + [HeadingLine(1, h)] + [x];
    HeadingIsOneLine(1, h);
    FourLines(HeadingLine(1, h), x, HeadingLine(1, h), y);
    FeedHeadedLine([], h, x);
    ClosesEmpty(FeedAll([]));
    FeedHeadedLine(lines, h, y);
    ClosesWith(FeedAll(lines), x);
    ClosesWith(FeedAll(lines + [HeadingLine(1, h)] + [y]), y);
  }

  lemma AddFirst(s: Section)
    requires 0 < |Body(s)| <= MAX_CHARS
    ensures AddAll([s]) == Packer([], Body(s), Heading(s))
  {
    AddAllOneMore([], s);
    assert [] + [s] == [s];
  }

  lemma AddSecond(p: Packer, s: Section)
    requires 0 < |Body(s)| <= MAX_CHARS && p.body != "" && |p.body| + |Body(s)| > TARGET_CHARS
    ensures Add(p, s) == Packer(Flush(p).out, Body(s), Heading(s))
  {
  }

  lemma FlushedTwice(p: Packer, q: Packer, h: string, x: string, y: string)
    requires p == Packer([], x, h) && q == Packer(Flush(p).out, y, h) && Solid(x) && Solid(y)
    ensures Flush(q).out == [] + [Draft(h, [Part(x, 0)])] + [Draft(h, [Part(y, 0)])]
  {
    StripGlued(x);
    StripGlued(y);
    FlushText(p);
    FlushText(q);
  }

  lemma HeadedFirst(h: string, x: string)
    requires Solid(x) && |x| <= MAX_CHARS
    ensures AddAll([] + [Section([h], [x])]) == Packer([], x, h)
  {
    BodyOfLine([h], x);
    AddFirst(Section([h], [x]));
    NoneBefore([Section([h], [x])]);
  }

  lemma HeadedSecond(p: Packer, h: string, y: string)
    requires Solid(y) && |y| <= MAX_CHARS && p.body != "" && |p.body| + |y| > TARGET_CHARS
    ensures Add(p, Section([h], [y])) == Packer(Flush(p).out, y, h)
  {
    BodyOfLine([h], y);
    AddSecond(p, Section([h], [y]));
  }

  lemma TwoAdded(h: string, x: string, y: string)
    requires Solid(x) && Solid(y) && |x| <= MAX_CHARS && |y| <= MAX_CHARS && |x| + |y| > TARGET_CHARS
    ensures Flush(AddAll([] + [Section([h], [x])] + [Section([h], [y])])).out ==
      [] + [Draft(h, [Part(x, 0)])] + [Draft(h, [Part(y, 0)])]
  {
    var first := [] + [Section([h], [x])];
    HeadedFirst(h, x);
    AddAllOneMore(first, Section([h], [y]));
    HeadedSecond(AddAll(first), h, y);
    FlushedTwice(AddAll(first), AddAll(first + [Section([h], [y])]), h, x, y);
  }

  lemma TwoFolded(h: string, a: string, b: string)
    requires |b| < MIN_CHARS
    ensures Number(Fold([] + [Draft(h, [Part(a, 0)])] + [Draft(h, [Part(b, 0)])])) == [Chunk(0, h, a + "\n\n" + b)]
  {
    var x, y := Draft(h, [Part(a, 0)]), Draft(h, [Part(b, 0)]);
    assert [] + [x] + [y] == [x] + [y];
    ContentOfFold(x, y);
    assert Texts([Part(a, 0)]) == [a] && Texts([Part(b, 0)]) == [b];
    NoneBefore([Draft(h, [Part(a, 0)] + [Part(b, 0)])]);
  }

  /** The second way past: a scrap folded behind a full chunk. The document is one chunk of |x| + 2 + |y| characters. */
  lemma FoldEscapesBudget(h: string, x: string, y: string)
    requires OneLine(h) && ProseLine(x) && ProseLine(y)
    requires |x| <= MAX_CHARS && |y| < MIN_CHARS && |x| + 2 + |y| > MAX_CHARS
    ensures ChunkDocument(HeadedTwice(h, x, y)) == [Chunk(0, h, x + "\n\n" + y)]
  {
    TwoHeadedSections(h, x, y);
    TwoAdded(h, x, y);
    TwoFolded(h, x, y);
  }

  lemma Letters(c: char, n: nat)
    requires 'A' <= c <= 'z' && c != '`' && n > 0
    ensures ProseLine(seq(n, i => c))
  {
    var s := seq(n, i => c);
    assert s[0] == c && s[n - 1] == c;
    NoFence(s);
  }

  /** One of them: 3600 and 9 letters under one heading make a chunk of 3611 characters. */
  lemma FoldedDocument()
    ensures var h, x, y := seq(1, i => 'H'), seq(3600, i => 'x'), seq(9, i => 'y');
      var chunks := ChunkDocument(HeadedTwice(h, x, y));
      |chunks| == 1 && |chunks[0].content| == 3611 > MAX_CHARS
  {
    Letters('H', 1);
    Letters('x', 3600);
    Letters('y', 9);
    FoldEscapesBudget(seq(1, i => 'H'), seq(3600, i => 'x'), seq(9, i => 'y'));
  }
}
