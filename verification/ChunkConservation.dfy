/** What chunking keeps: every non-space character, its order and its heading. */
module ChunkConservation {
  import opened Text
  import opened Chunking

  // ---------------------------------------------------------------- the document, read without the chunker

  /** The lines read so far leave a code fence open. */
  predicate FenceOpen(lines: seq<string>) {
    lines != [] && (IsFence(lines[|lines| - 1]) != FenceOpen(lines[..|lines| - 1]))
  }

  predicate IsHeading(before: seq<string>, line: string) {
    !IsFence(line) && !FenceOpen(before) && HeadingLevel(line) > 0
  }

  /** The headings of a document, in reading order. */
  function Heads(lines: seq<string>): (heads: seq<Head>)
    ensures forall h :: h in heads ==> 1 <= h.level <= 6
  {
    if lines == [] then [] else
    var before, line := lines[..|lines| - 1], lines[|lines| - 1];
    Heads(before) + (if IsHeading(before, line) then [HeadOf(line)] else [])
  }

  /** The headings left open after `heads`: each new one closes all from its own depth down. */
  function Open(heads: seq<Head>): (stack: seq<nat>)
    ensures forall k :: 0 <= k < |stack| ==> stack[k] < |heads|
  {
    if heads == [] then [] else
    var last := |heads| - 1;
    var stack := Open(heads[..last]);
    (if 1 <= heads[last].level <= |stack| then stack[..heads[last].level - 1] else stack) + [last]
  }

  function Titles(heads: seq<Head>, stack: seq<nat>): seq<string>
    requires forall k :: 0 <= k < |stack| ==> stack[k] < |heads|
  {
    seq(|stack|, k requires 0 <= k < |stack| => heads[stack[k]].title)
  }

  function PathAfter(lines: seq<string>): seq<string> { Titles(Heads(lines), Open(Heads(lines))) }

  /** The lines that are not headings and whose heading path `keep` accepts. */
  function ProseUnder(lines: seq<string>, keep: string -> bool): seq<string> {
    if lines == [] then [] else
    var before, line := lines[..|lines| - 1], lines[|lines| - 1];
    ProseUnder(before, keep) +
    (if !IsHeading(before, line) && keep(Join(PathAfter(before), " › ")) then [line] else [])
  }

  // ---------------------------------------------------------------- ink of parts, drafts and sections

  /** The characters a part adds: its non-space characters without the repeated ones. */
  function New(p: Part): string {
    var ink := NonSpace(p.text);
    if p.repeated <= |ink| then ink[p.repeated..] else ""
  }

  function NewInk(parts: seq<Part>): string {
    if parts == [] then "" else NewInk(parts[..|parts| - 1]) + New(parts[|parts| - 1])
  }

  lemma {:induction false} NewInkConcat(a: seq<Part>, b: seq<Part>)
    ensures NewInk(a + b) == NewInk(a) + NewInk(b)
  {
    if b == [] {
      assert a + b == a;
    } else {
      var init, last := b[..|b| - 1], b[|b| - 1];
      NewInkConcat(a, init);
      ButLast(a, b);
      Assoc(NewInk(a), NewInk(init), New(last));
    }
  }

  function DraftInk(drafts: seq<Draft>, keep: string -> bool): string {
    if drafts == [] then "" else
    var d := drafts[|drafts| - 1];
    DraftInk(drafts[..|drafts| - 1], keep) + (if keep(d.heading) then NewInk(d.parts) else "")
  }

  lemma DraftInkAppend(drafts: seq<Draft>, d: Draft, keep: string -> bool)
    ensures DraftInk(drafts + [d], keep) == DraftInk(drafts, keep) + (if keep(d.heading) then NewInk(d.parts) else "")
  {
    assert (drafts + [d])[..|drafts|] == drafts;
  }

  function SectionInk(sections: seq<Section>, keep: string -> bool): string {
    if sections == [] then "" else
    var s := sections[|sections| - 1];
    SectionInk(sections[..|sections| - 1], keep) + (if keep(Heading(s)) then NonSpace(Body(s)) else "")
  }

  lemma SectionInkAppend(sections: seq<Section>, s: Section, keep: string -> bool)
    ensures SectionInk(sections + [s], keep) == SectionInk(sections, keep) +
      (if keep(Heading(s)) then NonSpace(Body(s)) else "")
  {
    assert (sections + [s])[..|sections|] == sections;
  }

  // ---------------------------------------------------------------- sections

  lemma {:induction false} FeedTracksFence(lines: seq<string>)
    ensures FeedAll(lines).inFence == FenceOpen(lines)
    ensures FeedAll(lines).stack == FeedAll(lines).current.path
  {
    if lines != [] {
      FeedTracksFence(lines[..|lines| - 1]);
    }
  }

  lemma PushKeepsTitles(heads: seq<Head>, head: Head)
    requires head.level >= 1
    ensures Titles(heads + [head], Open(heads + [head])) == PushTitle(Titles(heads, Open(heads)), head)
  {
    assert (heads + [head])[..|heads|] == heads;
  }

  lemma {:induction false} FeedTracksOutline(lines: seq<string>)
    ensures FeedAll(lines).stack == PathAfter(lines)
  {
    if lines != [] {
      var before, line := lines[..|lines| - 1], lines[|lines| - 1];
      FeedTracksOutline(before);
      FeedTracksFence(before);
      if IsHeading(before, line) {
        PushKeepsTitles(Heads(before), HeadOf(line));
      } else {
        assert Heads(lines) == Heads(before);
      }
    }
  }

  lemma BodyInk(s: Section)
    ensures NonSpace(Body(s)) == NonSpace(Concat(s.lines))
    ensures Body(s) == "" <==> NonSpace(Concat(s.lines)) == ""
  {
    InkTrim(Join(s.lines, "\n"), IsSpace);
    InkOfTrimmed(Join(s.lines, "\n"), IsSpace);
    InkJoin(s.lines, "\n", IsSpace);
  }

  lemma ClosedInk(st: Splitter, keep: string -> bool)
    ensures SectionInk(Closed(st), keep) ==
      SectionInk(st.done, keep) + (if keep(Heading(st.current)) then NonSpace(Concat(st.current.lines)) else "")
  {
    BodyInk(st.current);
    SectionInkAppend(st.done, st.current, keep);
  }

  lemma InkOfOneMore(lines: seq<string>, line: string)
    ensures NonSpace(Concat(lines + [line])) == NonSpace(Concat(lines)) + NonSpace(line)
  {
    ConcatAppend(lines, [line]);
    assert Concat([line]) == line + Concat([]) == line;
    InkConcat(Concat(lines), line, IsSpace);
  }

  lemma ProseStep(before: seq<string>, line: string, keep: string -> bool)
    ensures NonSpace(Concat(ProseUnder(before + [line], keep))) == NonSpace(Concat(ProseUnder(before, keep))) +
      (if !IsHeading(before, line) && keep(Join(PathAfter(before), " › ")) then NonSpace(line) else "")
  {
    assert (before + [line])[..|before|] == before;
    InkOfOneMore(ProseUnder(before, keep), line);
    assert ProseUnder(before, keep) + [] == ProseUnder(before, keep);
  }

  function LineInk(st: Splitter, line: string, keep: string -> bool): string {
    if !StartsSection(st, line) && keep(Heading(st.current)) then NonSpace(line) else ""
  }

  lemma HeadingKeepsProse(st: Splitter, line: string, keep: string -> bool)
    requires StartsSection(st, line)
    ensures SectionInk(Closed(Feed(st, line)), keep) == SectionInk(Closed(st), keep)
  {
    ClosedInk(st, keep);
    ClosedInk(Feed(st, line), keep);
    assert Concat([]) == "" && NonSpace("") == "";
  }

  lemma LineKeepsProse(st: Splitter, line: string, keep: string -> bool)
    requires !StartsSection(st, line)
    ensures SectionInk(Closed(Feed(st, line)), keep) ==
      SectionInk(Closed(st), keep) + (if keep(Heading(st.current)) then NonSpace(line) else "")
  {
    ClosedInk(st, keep);
    ClosedInk(Feed(st, line), keep);
    assert Heading(Feed(st, line).current) == Heading(st.current);
    InkOfOneMore(st.current.lines, line);
    Assoc(SectionInk(st.done, keep), NonSpace(Concat(st.current.lines)), NonSpace(line));
  }

  lemma FeedKeepsProse(st: Splitter, line: string, keep: string -> bool)
    ensures SectionInk(Closed(Feed(st, line)), keep) == SectionInk(Closed(st), keep) + LineInk(st, line, keep)
  {
    if StartsSection(st, line) {
      HeadingKeepsProse(st, line, keep);
    } else {
      LineKeepsProse(st, line, keep);
    }
  }

  /** The sections hold exactly the non-heading lines of the document, each under its outline path. */
  lemma {:induction false} SectionsKeepProse(lines: seq<string>, keep: string -> bool)
    ensures SectionInk(Closed(FeedAll(lines)), keep) == NonSpace(Concat(ProseUnder(lines, keep)))
  {
    if lines == [] {
      ClosedInk(FeedAll(lines), keep);
    } else {
      var before, line := lines[..|lines| - 1], lines[|lines| - 1];
      SectionsKeepProse(before, keep);
      FeedKeepsProse(FeedAll(before), line, keep);
      FeedTracksFence(before);
      FeedTracksOutline(before);
      ProseStep(before, line, keep);
      SplitLast(lines);
    }
  }

  // ---------------------------------------------------------------- forced splits

  lemma SentenceInk(sentence: string, gap: string, tail: string, rest: seq<string>)
    requires forall i :: 0 <= i < |gap| ==> IsSpace(gap[i])
    requires NonSpace(Concat(rest)) == NonSpace(tail)
    ensures NonSpace(Concat([sentence] + rest)) == NonSpace(sentence + gap + tail)
  {
    assert ([sentence] + rest)[1..] == rest;
    InkConcat(sentence, Concat(rest), IsSpace);
    InkOfBlanks(gap, IsSpace);
    InkOfThree(sentence, gap, tail);
  }

  lemma {:induction false} SentencesKeepInk(s: string, i: nat)
    requires i <= |s|
    ensures NonSpace(Concat(SentencesFrom(s, i))) == NonSpace(s[i..])
    decreases |s| - i
  {
    var j := SentenceEnd(s, i);
    if j == |s| {
      assert Concat([s[i..]]) == s[i..] + Concat([]) == s[i..];
    } else {
      var k := RunEnd(s, j);
      SentencesKeepInk(s, k);
      SentenceInk(s[i..j], s[j..k], s[k..], SentencesFrom(s, k));
      assert s[i..] == s[i..j] + s[j..k] + s[k..];
    }
  }

  lemma NewInkOne(p: Part)
    ensures NewInk([p]) == New(p)
  {
    assert [p][..0] == [];
    assert NewInk([]) == "";
  }

  lemma FirstPieceInk(first: string, pieces: seq<string>)
    ensures NewInk(Fresh([first] + pieces)) == NonSpace(first) + NewInk(Fresh(pieces))
  {
    assert Fresh([first] + pieces) == [Part(first, 0)] + Fresh(pieces);
    NewInkConcat([Part(first, 0)], Fresh(pieces));
    NewInkOne(Part(first, 0));
  }

  lemma OnePieceInk(s: string)
    ensures NewInk(Fresh([s])) == NonSpace(s)
  {
    assert Fresh([s]) == [Part(s, 0)];
    NewInkOne(Part(s, 0));
  }

  lemma {:induction false} HardSplitKeepsInk(s: string)
    ensures NewInk(Fresh(HardSplit(s))) == NonSpace(s)
    decreases |s|
  {
    if |s| > MAX_CHARS {
      var first, rest := s[..MAX_CHARS], s[MAX_CHARS..];
      HardSplitKeepsInk(rest);
      FirstPieceInk(first, HardSplit(rest));
      InkConcat(first, rest, IsSpace);
      assert s == first + rest;
    } else if s != "" {
      OnePieceInk(s);
    }
  }

  lemma InkOfGlued(a: string, b: string)
    ensures NonSpace(Strip(a + " " + b)) == NonSpace(a) + NonSpace(b)
  {
    InkTrim(a + " " + b, IsSpace);
    assert NonSpace(" ") == "";
    InkOfThree(a, " ", b);
  }

  predicate WellCounted(p: Part) { p.repeated <= |NonSpace(p.text)| }

  lemma DropFromLeft(a: string, b: string, n: nat)
    requires n <= |a|
    ensures (a + b)[n..] == a[n..] + b
  {
  }

  lemma GrownInk(ink: string, buf: Part, sentence: string)
    requires WellCounted(buf)
    ensures var grown := Part(Strip(buf.text + " " + sentence), buf.repeated);
      WellCounted(grown) && ink + New(grown) == ink + New(buf) + NonSpace(sentence)
  {
    InkOfGlued(buf.text, sentence);
    DropFromLeft(NonSpace(buf.text), NonSpace(sentence), buf.repeated);
    Assoc(ink, New(buf), NonSpace(sentence));
  }

  lemma ResumedInk(words: string, sentence: string)
    ensures var next := Part(Strip(words + " " + sentence), |NonSpace(words)|);
      WellCounted(next) && New(next) == NonSpace(sentence)
  {
    InkOfGlued(words, sentence);
    DropFromLeft(NonSpace(words), NonSpace(sentence), |NonSpace(words)|);
  }

  lemma NewInkMore(parts: seq<Part>, p: Part)
    ensures NewInk(parts + [p]) == NewInk(parts) + New(p)
  {
    NewInkConcat(parts, [p]);
    NewInkOne(p);
  }

  /** The packing went on by text with that ink. */
  predicate Gains(st: Packing, next: Packing, ink: string) {
    WellCounted(next.buf) && NewInk(next.parts) + New(next.buf) == NewInk(st.parts) + New(st.buf) + ink
  }

  lemma BufferGains(st: Packing, sentence: string)
    requires WellCounted(st.buf)
    ensures Gains(st, st.(buf := Part(Strip(st.buf.text + " " + sentence), st.buf.repeated)), NonSpace(sentence))
  {
    GrownInk(NewInk(st.parts), st.buf, sentence);
  }

  lemma PartGains(st: Packing, words: string, sentence: string)
    requires WellCounted(st.buf)
    ensures Gains(st, Packing(st.parts + [st.buf], Part(Strip(words + " " + sentence), |NonSpace(words)|)),
      NonSpace(sentence))
  {
    NewInkMore(st.parts, st.buf);
    ResumedInk(words, sentence);
  }

  lemma NothingNew(p: Part)
    requires p.text == ""
    ensures New(p) == ""
  {
    assert NonSpace("") == "";
  }

  lemma PiecesGain(st: Packing, pieces: seq<Part>)
    requires st.buf.text == ""
    ensures Gains(st, Packing(st.parts + pieces, Part("", 0)), NewInk(pieces))
  {
    NewInkConcat(st.parts, pieces);
    NothingNew(st.buf);
    NothingNew(Part("", 0));
  }

  /** One sentence adds exactly its own ink, whichever branch takes it. */
  lemma PackKeepsInk(st: Packing, sentence: string)
    requires WellCounted(st.buf)
    ensures Gains(st, Pack(st, sentence), NonSpace(sentence))
  {
    if |st.buf.text| + |sentence| + 1 <= MAX_CHARS {
      BufferGains(st, sentence);
    } else if st.buf.text != "" {
      PartGains(st, Resume(st.buf.text), sentence);
    } else {
      PiecesGain(st, Fresh(HardSplit(sentence)));
      HardSplitKeepsInk(sentence);
    }
  }

  lemma {:induction false} PackAllKeepsInk(sentences: seq<string>)
    ensures WellCounted(PackAll(sentences).buf)
    ensures NewInk(PackAll(sentences).parts) + New(PackAll(sentences).buf) == NonSpace(Concat(sentences))
  {
    if sentences != [] {
      var init, last := sentences[..|sentences| - 1], sentences[|sentences| - 1];
      PackAllKeepsInk(init);
      PackKeepsInk(PackAll(init), last);
      InkOfOneMore(init, last);
      SplitLast(sentences);
    }
  }

  /** Without the repeated characters, a forced split is its section, character by character. */
  lemma SplitKeepsInk(body: string)
    ensures NewInk(SplitOversized(body)) == NonSpace(body)
  {
    var st := PackAll(Sentences(body));
    PackAllKeepsInk(Sentences(body));
    SentencesKeepInk(body, 0);
    assert body[0..] == body;
    NewInkConcat(st.parts, [st.buf]);
    NewInkOne(st.buf);
  }

  // ---------------------------------------------------------------- packing

  lemma SinglesSnoc(drafts: seq<Draft>, heading: string, parts: seq<Part>, part: Part)
    ensures drafts + Singles(heading, parts + [part]) == drafts + Singles(heading, parts) + [Draft(heading, [part])]
  {
  }

  lemma SingleInk(drafts: seq<Draft>, heading: string, part: Part, keep: string -> bool)
    ensures DraftInk(drafts + [Draft(heading, [part])], keep) == DraftInk(drafts, keep) +
      (if keep(heading) then New(part) else "")
  {
    DraftInkAppend(drafts, Draft(heading, [part]), keep);
    NewInkOne(part);
  }

  lemma {:induction false} SinglesInk(drafts: seq<Draft>, heading: string, parts: seq<Part>, keep: string -> bool)
    ensures DraftInk(drafts + Singles(heading, parts), keep) ==
      DraftInk(drafts, keep) + (if keep(heading) then NewInk(parts) else "")
    decreases |parts|
  {
    if parts == [] {
      assert drafts + Singles(heading, parts) == drafts;
    } else {
      var init, last := parts[..|parts| - 1], parts[|parts| - 1];
      SinglesInk(drafts, heading, init, keep);
      SingleInk(drafts + Singles(heading, init), heading, last, keep);
      SinglesSnoc(drafts, heading, init, last);
      SplitLast(parts);
      Assoc(DraftInk(drafts, keep), NewInk(init), New(last));
    }
  }

  function PendingInk(p: Packer, keep: string -> bool): string {
    if keep(p.heading) then NonSpace(p.body) else ""
  }

  lemma FlushKeepsInk(p: Packer, keep: string -> bool)
    ensures DraftInk(Flush(p).out, keep) == DraftInk(p.out, keep) + PendingInk(p, keep)
  {
    InkOfTrimmed(p.body, IsSpace);
    InkTrim(p.body, IsSpace);
    var part := Part(Strip(p.body), 0);
    DraftInkAppend(p.out, Draft(p.heading, [part]), keep);
    NewInkOne(part);
  }

  lemma InkOfPacked(a: string, b: string)
    ensures NonSpace(Strip(a + "\n\n" + b)) == NonSpace(a) + NonSpace(b)
  {
    InkTrim(a + "\n\n" + b, IsSpace);
    InkOfBlanks("\n\n", IsSpace);
    InkOfThree(a, "\n\n", b);
  }

  lemma AddOversized(p: Packer, s: Section, keep: string -> bool)
    requires |Body(s)| > MAX_CHARS
    ensures DraftInk(Add(p, s).out, keep) ==
      DraftInk(p.out, keep) + PendingInk(p, keep) + (if keep(Heading(s)) then NonSpace(Body(s)) else "")
    ensures PendingInk(Add(p, s), keep) == ""
  {
    FlushKeepsInk(p, keep);
    SinglesInk(Flush(p).out, Heading(s), SplitOversized(Body(s)), keep);
    SplitKeepsInk(Body(s));
  }

  lemma AddSmall(p: Packer, s: Section, keep: string -> bool)
    requires 0 < |Body(s)| <= MAX_CHARS
    requires p.body == "" || p.heading == Heading(s)
    ensures var body := if p.body != "" then Strip(p.body + "\n\n" + Body(s)) else Body(s);
      DraftInk(p.out, keep) + PendingInk(Packer(p.out, body, Heading(s)), keep) ==
      DraftInk(p.out, keep) + PendingInk(p, keep) + (if keep(Heading(s)) then NonSpace(Body(s)) else "")
  {
    if p.body == "" {
      assert PendingInk(p, keep) == "";
    } else if keep(p.heading) {
      InkOfPacked(p.body, Body(s));
      Assoc(DraftInk(p.out, keep), NonSpace(p.body), NonSpace(Body(s)));
    }
  }

  lemma NothingPending(p: Packer, keep: string -> bool)
    requires p.body == ""
    ensures DraftInk(p.out, keep) + PendingInk(p, keep) == DraftInk(p.out, keep)
  {
    assert PendingInk(p, keep) == "";
  }

  lemma AddKeepsInk(p: Packer, s: Section, keep: string -> bool)
    ensures DraftInk(Add(p, s).out, keep) + PendingInk(Add(p, s), keep) ==
      DraftInk(p.out, keep) + PendingInk(p, keep) + (if keep(Heading(s)) then NonSpace(Body(s)) else "")
  {
    var body := Body(s);
    if body == "" {
      assert NonSpace(body) == "";
    } else if |body| > MAX_CHARS {
      AddOversized(p, s, keep);
    } else if p.body != "" && (Heading(s) != p.heading || |p.body| + |body| > TARGET_CHARS) {
      FlushKeepsInk(p, keep);
      AddSmall(Flush(p), s, keep);
      NothingPending(Flush(p), keep);
    } else {
      AddSmall(p, s, keep);
    }
  }

  lemma {:induction false} AddAllKeepsInk(sections: seq<Section>, keep: string -> bool)
    ensures DraftInk(AddAll(sections).out, keep) + PendingInk(AddAll(sections), keep) == SectionInk(sections, keep)
  {
    if sections == [] {
      assert NonSpace("") == "";
    } else {
      var init := sections[..|sections| - 1];
      AddAllKeepsInk(init, keep);
      AddKeepsInk(AddAll(init), sections[|sections| - 1], keep);
    }
  }

  lemma FoldKeepsInk(drafts: seq<Draft>, keep: string -> bool)
    ensures DraftInk(Fold(drafts), keep) == DraftInk(drafts, keep)
  {
    if Folds(drafts) {
      var n := |drafts|;
      var a, b := drafts[n - 2], drafts[n - 1];
      DraftInkAppend(drafts[..n - 2], Draft(a.heading, a.parts + b.parts), keep);
      DraftInkAppend(drafts[..n - 2], a, keep);
      DraftInkAppend(drafts[..n - 2] + [a], b, keep);
      assert drafts[..n - 2] + [a] + [b] == drafts;
      NewInkConcat(a.parts, b.parts);
    }
  }

  /**
   * Conservation, heading by heading. For any choice of headings, the chunks that carry them hold,
   * in order and once the repeated characters are removed, exactly the non-space characters of the
   * non-heading lines whose outline path is one of them. Accepting every heading gives the whole
   * document; accepting one heading shows that no chunk mixes two.
   */
  lemma ChunkingConserves(text: string, keep: string -> bool)
    ensures DraftInk(Drafts(text), keep) == NonSpace(Concat(ProseUnder(SplitLines(text), keep)))
  {
    var sections := SplitSections(text);
    FoldKeepsInk(Unfolded(text), keep);
    FlushKeepsInk(AddAll(sections), keep);
    AddAllKeepsInk(sections, keep);
    SectionsKeepProse(SplitLines(text), keep);
  }

  // ---------------------------------------------------------------- the text itself

  predicate AnyHeading(heading: string) { true }

  function HeadingLines(lines: seq<string>): seq<string> {
    if lines == [] then [] else
    var before, line := lines[..|lines| - 1], lines[|lines| - 1];
    HeadingLines(before) + (if IsHeading(before, line) then [line] else [])
  }

  lemma HeadingInk(before: seq<string>, line: string)
    ensures NonSpace(Concat(HeadingLines(before + [line]))) ==
      NonSpace(Concat(HeadingLines(before))) + (if IsHeading(before, line) then NonSpace(line) else "")
  {
    assert (before + [line])[..|before|] == before;
    InkOfOneMore(HeadingLines(before), line);
    assert HeadingLines(before) + [] == HeadingLines(before);
  }

  lemma BagOneMore(whole: string, prose: string, headings: string, line: string)
    requires multiset(whole) == multiset(prose) + multiset(headings)
    ensures multiset(whole + line) == multiset(prose + line) + multiset(headings + "")
    ensures multiset(whole + line) == multiset(prose + "") + multiset(headings + line)
  {
    assert headings + "" == headings && prose + "" == prose;
  }

  /** The lines of a document are its prose and its headings. */
  lemma {:induction false} ProseAndHeadings(lines: seq<string>)
    ensures multiset(NonSpace(Concat(lines))) ==
      multiset(NonSpace(Concat(ProseUnder(lines, AnyHeading)))) + multiset(NonSpace(Concat(HeadingLines(lines))))
  {
    if lines != [] {
      var before, line := lines[..|lines| - 1], lines[|lines| - 1];
      ProseAndHeadings(before);
      SplitLast(lines);
      InkOfOneMore(before, line);
      ProseStep(before, line, AnyHeading);
      HeadingInk(before, line);
      BagOneMore(NonSpace(Concat(before)), NonSpace(Concat(ProseUnder(before, AnyHeading))),
                 NonSpace(Concat(HeadingLines(before))), NonSpace(line));
    }
  }

  lemma {:induction false} AllProse(lines: seq<string>)
    requires HeadingLines(lines) == []
    ensures ProseUnder(lines, AnyHeading) == lines
  {
    if lines != [] {
      AllProse(lines[..|lines| - 1]);
      SplitLast(lines);
    }
  }

  /**
   * Nothing of a text is lost or invented: the characters of its chunks, once the repeated ones are removed, and those
   * of its heading lines are its non-space characters; without headings the chunks spell them in order.
   */
  lemma TextConserved(text: string)
    ensures multiset(NonSpace(text)) ==
      multiset(DraftInk(Drafts(text), AnyHeading)) + multiset(NonSpace(Concat(HeadingLines(SplitLines(text)))))
    ensures HeadingLines(SplitLines(text)) == [] ==> DraftInk(Drafts(text), AnyHeading) == NonSpace(text)
  {
    LinesKeepInk(text);
    ProseAndHeadings(SplitLines(text));
    ChunkingConserves(text, AnyHeading);
    if HeadingLines(SplitLines(text)) == [] {
      AllProse(SplitLines(text));
    }
  }
}
