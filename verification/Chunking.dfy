/** Structure-aware chunking (workers/ingest/chunking.py): sections, forced splits, packing, fold. */
module Chunking {
  import opened Text

  const TARGET_CHARS := 2400
  const MAX_CHARS := 3600
  const MIN_CHARS := 280
  const OVERLAP_CHARS := 200

  datatype Chunk = Chunk(ordinal: nat, heading: string, content: string)

  datatype Section = Section(path: seq<string>, lines: seq<string>)

  /** The characters Python's str.isspace and the regular expression class \s accept. */
  predicate IsSpace(c: char) {
    || '\t' <= c <= '\r' || '\U{1c}' <= c <= ' ' || c == '\U{85}' || c == '\U{a0}' || c == '\U{1680}'
    || '\U{2000}' <= c <= '\U{200a}' || c == '\U{2028}' || c == '\U{2029}' || c == '\U{202f}'
    || c == '\U{205f}' || c == '\U{3000}'
  }

  function Strip(s: string): string { Trim(s, IsSpace) }

  function NonSpace(s: string): string { Ink(s, IsSpace) }

  function Heading(s: Section): string { Join(s.path, " › ") }

  function Body(s: Section): string { Strip(Join(s.lines, "\n")) }

  // ---------------------------------------------------------------- lines

  predicate IsLineBreak(c: char) {
    || '\n' <= c <= '\r' || '\U{1c}' <= c <= '\U{1e}' || c == '\U{85}' || c == '\U{2028}' || c == '\U{2029}'
  }

  function LineEnd(s: string): (n: nat)
    ensures n <= |s| && (n < |s| ==> IsLineBreak(s[n]))
    ensures forall i :: 0 <= i < n ==> !IsLineBreak(s[i])
  {
    if s == "" || IsLineBreak(s[0]) then 0 else 1 + LineEnd(s[1..])
  }

  function BreakLength(s: string, n: nat): (k: nat)
    requires n <= |s|
    ensures n + k <= |s| && (k == 0 <==> n == |s|)
  {
    if n == |s| then 0 else if s[n] == '\r' && n + 1 < |s| && s[n + 1] == '\n' then 2 else 1
  }

  /** Python's str.splitlines: a final line break opens no further line. */
  function SplitLines(s: string): seq<string>
    decreases |s|
  {
    if s == "" then [] else
    var n := LineEnd(s);
    [s[..n]] + SplitLines(s[n + BreakLength(s, n)..])
  }

  lemma BreakIsBlank(s: string, n: nat)
    requires n <= |s| && (n < |s| ==> IsLineBreak(s[n]))
    ensures NonSpace(s[n..n + BreakLength(s, n)]) == ""
  {
    InkOfBlanks(s[n..n + BreakLength(s, n)], IsSpace);
  }

  lemma InkOfThree(a: string, b: string, c: string)
    requires NonSpace(b) == ""
    ensures NonSpace(a + b + c) == NonSpace(a) + NonSpace(c)
  {
    InkConcat(a, b, IsSpace);
    InkConcat(a + b, c, IsSpace);
  }

  lemma FirstLineInk(s: string, n: nat)
    requires n <= |s| && (n < |s| ==> IsLineBreak(s[n]))
    ensures NonSpace(s) == NonSpace(s[..n]) + NonSpace(s[n + BreakLength(s, n)..])
  {
    var k := BreakLength(s, n);
    BreakIsBlank(s, n);
    InkOfThree(s[..n], s[n..n + k], s[n + k..]);
    assert s == s[..n] + s[n..n + k] + s[n + k..];
  }

  lemma {:induction false} LinesKeepInk(s: string)
    ensures NonSpace(Concat(SplitLines(s))) == NonSpace(s)
    decreases |s|
  {
    if s != "" {
      var n := LineEnd(s);
      var rest := s[n + BreakLength(s, n)..];
      LinesKeepInk(rest);
      FirstLineInk(s, n);
      assert ([s[..n]] + SplitLines(rest))[1..] == SplitLines(rest);
      InkConcat(s[..n], Concat(SplitLines(rest)), IsSpace);
    }
  }

  // ---------------------------------------------------------------- sections

  function HashCount(line: string): nat {
    if line != "" && line[0] == '#' then 1 + HashCount(line[1..]) else 0
  }

  predicate IsFence(line: string) { "```" <= TrimLeft(line, IsSpace) }

  /** The level of a heading line (1 to 6), or 0 for every other line. */
  function HeadingLevel(line: string): (level: nat)
    ensures level <= 6
  {
    var n := HashCount(line);
    if 1 <= n <= 6 && n < |line| && IsSpace(line[n]) then n else 0
  }

  datatype Head = Head(level: nat, title: string)

  function HeadOf(line: string): Head {
    var n := HeadingLevel(line);
    Head(n, if n <= |line| then Strip(line[n..]) else "")
  }

  datatype Splitter = Splitter(done: seq<Section>, stack: seq<string>, current: Section, inFence: bool)

  function Closed(st: Splitter): seq<Section> {
    if Body(st.current) != "" then st.done + [st.current] else st.done
  }

  function PushTitle(stack: seq<string>, head: Head): seq<string> {
    (if 1 <= head.level <= |stack| then stack[..head.level - 1] else stack) + [head.title]
  }

  predicate StartsSection(st: Splitter, line: string) {
    !IsFence(line) && !st.inFence && HeadingLevel(line) > 0
  }

  function Feed(st: Splitter, line: string): Splitter {
    if StartsSection(st, line) then
      var stack := PushTitle(st.stack, HeadOf(line));
      Splitter(Closed(st), stack, Section(stack, []), false)
    else
      st.(current := Section(st.current.path, st.current.lines + [line]),
          inFence := if IsFence(line) then !st.inFence else st.inFence)
  }

  function FeedAll(lines: seq<string>): Splitter {
    if lines == [] then Splitter([], [], Section([], []), false)
    else Feed(FeedAll(lines[..|lines| - 1]), lines[|lines| - 1])
  }

  function SplitSections(text: string): seq<Section> { Closed(FeedAll(SplitLines(text))) }

  /** The heading branch of the loop: the current section closes and the stack is cut back to the level. */
  method OpenSection(sections: seq<Section>, stack: seq<string>, current: Section, line: string)
    returns (sections': seq<Section>, stack': seq<string>)
    requires HeadingLevel(line) > 0
    ensures sections' == Closed(Splitter(sections, stack, current, false))
    ensures stack' == PushTitle(stack, HeadOf(line))
  {
    sections', stack' := sections, stack;
    if Body(current) != "" {
      sections' := sections' + [current];
    }
    var level := HeadingLevel(line);
    var title := Strip(line[level..]);
    if level - 1 < |stack'| {
      stack' := stack'[..level - 1];
    }
    stack' := stack' + [title];
  }

  lemma FeedAllOneMore(lines: seq<string>, i: nat)
    requires i < |lines|
    ensures FeedAll(lines[..i + 1]) == Feed(FeedAll(lines[..i]), lines[i])
  {
    assert lines[..i + 1][..i] == lines[..i];
  }

  method SplitSectionsLoop(text: string) returns (sections: seq<Section>)
    ensures sections == SplitSections(text)
  {
    sections := [];
    var stack: seq<string> := [];
    var current := Section([], []);
    var inFence := false;
    var lines := SplitLines(text);
    for i := 0 to |lines|
      invariant Splitter(sections, stack, current, inFence) == FeedAll(lines[..i])
    {
      var line := lines[i];
      FeedAllOneMore(lines, i);
      if IsFence(line) {
        inFence := !inFence;
        current := current.(lines := current.lines + [line]);
        continue;
      }
      if !inFence && HeadingLevel(line) > 0 {
        sections, stack := OpenSection(sections, stack, current, line);
        current := Section(stack, []);
      } else {
        current := current.(lines := current.lines + [line]);
      }
    }
    TakeAll(lines);
    if Body(current) != "" {
      sections := sections + [current];
    }
  }

  // ---------------------------------------------------------------- forced splits

  /** A piece of text; its first `repeated` non-space characters copy the end of the piece before it. */
  datatype Part = Part(text: string, repeated: nat)

  datatype Packing = Packing(parts: seq<Part>, buf: Part)

  function RunEnd(s: string, i: nat): (j: nat)
    requires i <= |s|
    ensures i <= j <= |s| && (j < |s| ==> !IsSpace(s[j]))
    ensures forall k :: i <= k < j ==> IsSpace(s[k])
    decreases |s| - i
  {
    if i < |s| && IsSpace(s[i]) then RunEnd(s, i + 1) else i
  }

  /** A white-space run at `j`, after '.', '!' or '?' and before an upper-case ASCII letter or a digit. */
  predicate IsSentenceBreak(s: string, j: nat) {
    && 0 < j < |s| && s[j - 1] in ".!?" && IsSpace(s[j])
    && var e := RunEnd(s, j); e < |s| && ('A' <= s[e] <= 'Z' || '0' <= s[e] <= '9')
  }

  function SentenceEnd(s: string, i: nat): (j: nat)
    requires i <= |s|
    ensures i <= j <= |s| && (j < |s| ==> IsSentenceBreak(s, j))
    ensures forall k :: i <= k < j ==> !IsSentenceBreak(s, k)
    decreases |s| - i
  {
    if i == |s| || IsSentenceBreak(s, i) then i else SentenceEnd(s, i + 1)
  }

  function SentencesFrom(s: string, i: nat): seq<string>
    requires i <= |s|
    decreases |s| - i
  {
    var j := SentenceEnd(s, i);
    if j == |s| then [s[i..]] else [s[i..j]] + SentencesFrom(s, RunEnd(s, j))
  }

  function Sentences(body: string): seq<string> { SentencesFrom(body, 0) }

  function HardSplit(s: string): (pieces: seq<string>)
    ensures forall i :: 0 <= i < |pieces| ==> 0 < |pieces[i]| <= MAX_CHARS
    decreases |s|
  {
    if s == "" then [] else
    if |s| <= MAX_CHARS then [s] else [s[..MAX_CHARS]] + HardSplit(s[MAX_CHARS..])
  }

  /** Parts that repeat nothing. */
  function Fresh(texts: seq<string>): (parts: seq<Part>)
    ensures |parts| == |texts| && forall i :: 0 <= i < |texts| ==> parts[i] == Part(texts[i], 0)
  {
    seq(|texts|, i requires 0 <= i < |texts| => Part(texts[i], 0))
  }

  function IndexOfBlank(s: string): (i: nat)
    ensures i <= |s| && (i < |s| ==> s[i] == ' ') && forall k :: 0 <= k < i ==> s[k] != ' '
  {
    if s == "" || s[0] == ' ' then 0 else 1 + IndexOfBlank(s[1..])
  }

  /** The words a forced split repeats: the last OVERLAP_CHARS characters from their first blank on. */
  function Resume(buf: string): (words: string)
    ensures |words| < OVERLAP_CHARS && |words| <= |buf| && buf[|buf| - |words|..] == words
  {
    var tail := if |buf| <= OVERLAP_CHARS then buf else buf[|buf| - OVERLAP_CHARS..];
    var blank := IndexOfBlank(tail);
    if blank < |tail| then tail[blank + 1..] else ""
  }

  function Pack(st: Packing, sentence: string): Packing {
    var buf := st.buf.text;
    if |buf| + |sentence| + 1 <= MAX_CHARS then
      st.(buf := Part(Strip(buf + " " + sentence), st.buf.repeated))
    else if buf != "" then
      var words := Resume(buf);
      Packing(st.parts + [st.buf], Part(Strip(words + " " + sentence), |NonSpace(words)|))
    else
      Packing(st.parts + Fresh(HardSplit(sentence)), Part("", 0))
  }

  function PackAll(sentences: seq<string>): Packing {
    if sentences == [] then Packing([], Part("", 0))
    else Pack(PackAll(sentences[..|sentences| - 1]), sentences[|sentences| - 1])
  }

  function SplitOversized(body: string): seq<Part> {
    var st := PackAll(Sentences(body));
    if st.buf.text != "" then st.parts + [st.buf] else st.parts
  }

  function Texts(parts: seq<Part>): (texts: seq<string>)
    ensures |texts| == |parts| && forall i :: 0 <= i < |parts| ==> texts[i] == parts[i].text
  {
    seq(|parts|, i requires 0 <= i < |parts| => parts[i].text)
  }

  lemma TextsConcat(a: seq<Part>, b: seq<Part>)
    ensures Texts(a + b) == Texts(a) + Texts(b)
  {
  }

  method HardSplitLoop(sentence: string) returns (pieces: seq<string>)
    ensures pieces == HardSplit(sentence)
  {
    pieces := [];
    var i := 0;
    ghost var rest := sentence;
    while i < |sentence|
      invariant 0 <= i && rest == if i <= |sentence| then sentence[i..] else ""
      invariant pieces + HardSplit(rest) == HardSplit(sentence)
    {
      var end := if i + MAX_CHARS <= |sentence| then i + MAX_CHARS else |sentence|;
      assert sentence[i..end] == rest[..end - i];
      assert end == |sentence| ==> rest[..end - i] == rest;
      pieces := pieces + [sentence[i..end]];
      rest := rest[end - i..];
      i := i + MAX_CHARS;
    }
  }

  method PackStep(parts: seq<string>, buf: string, sentence: string, ghost st: Packing)
    returns (parts': seq<string>, buf': string)
    requires parts == Texts(st.parts) && buf == st.buf.text
    ensures parts' == Texts(Pack(st, sentence).parts) && buf' == Pack(st, sentence).buf.text
  {
    if |buf| + |sentence| + 1 <= MAX_CHARS {
      return parts, Strip(buf + " " + sentence);
    }
    if buf != "" {
      TextsConcat(st.parts, [st.buf]);
      return parts + [buf], Strip(Resume(buf) + " " + sentence);
    }
    TextsConcat(st.parts, Fresh(HardSplit(sentence)));
    var pieces := HardSplitLoop(sentence);
    return parts + pieces, "";
  }

  lemma PackAllOneMore(sentences: seq<string>, i: nat)
    requires i < |sentences|
    ensures PackAll(sentences[..i + 1]) == Pack(PackAll(sentences[..i]), sentences[i])
  {
    assert sentences[..i + 1][..i] == sentences[..i];
  }

  method PackSentences(sentences: seq<string>) returns (parts: seq<string>, buf: string)
    ensures parts == Texts(PackAll(sentences).parts) && buf == PackAll(sentences).buf.text
  {
    parts, buf := [], "";
    ghost var st := PackAll([]);
    for i := 0 to |sentences|
      invariant st == PackAll(sentences[..i])
      invariant parts == Texts(st.parts) && buf == st.buf.text
    {
      PackAllOneMore(sentences, i);
      parts, buf := PackStep(parts, buf, sentences[i], st);
      st := Pack(st, sentences[i]);
    }
    TakeAll(sentences);
  }

  lemma LeftoverText(st: Packing)
    ensures Texts(st.parts + [st.buf]) == Texts(st.parts) + [st.buf.text]
  {
  }

  method SplitOversizedLoop(body: string) returns (parts: seq<string>)
    ensures parts == Texts(SplitOversized(body))
  {
    var sentences := Sentences(body);
    var buf;
    parts, buf := PackSentences(sentences);
    if buf != "" {
      LeftoverText(PackAll(sentences));
      parts := parts + [buf];
    }
  }

  // ---------------------------------------------------------------- packing sections

  datatype Draft = Draft(heading: string, parts: seq<Part>)

  function Content(d: Draft): string { Join(Texts(d.parts), "\n\n") }

  datatype Packer = Packer(out: seq<Draft>, body: string, heading: string)

  function Flush(p: Packer): Packer {
    var body := Strip(p.body);
    Packer(if body != "" then p.out + [Draft(p.heading, [Part(body, 0)])] else p.out, "", p.heading)
  }

  function Singles(heading: string, parts: seq<Part>): (drafts: seq<Draft>)
    ensures |drafts| == |parts|
    ensures forall i :: 0 <= i < |parts| ==> drafts[i] == Draft(heading, [parts[i]])
  {
    seq(|parts|, i requires 0 <= i < |parts| => Draft(heading, [parts[i]]))
  }

  function Add(p: Packer, s: Section): Packer {
    var body, heading := Body(s), Heading(s);
    if body == "" then p
    else if |body| > MAX_CHARS then
      Packer(Flush(p).out + Singles(heading, SplitOversized(body)), "", heading)
    else
      var q := if p.body != "" && (heading != p.heading || |p.body| + |body| > TARGET_CHARS) then Flush(p) else p;
      Packer(q.out, if q.body != "" then Strip(q.body + "\n\n" + body) else body, heading)
  }

  function AddAll(sections: seq<Section>): Packer {
    if sections == [] then Packer([], "", "")
    else Add(AddAll(sections[..|sections| - 1]), sections[|sections| - 1])
  }

  predicate Folds(drafts: seq<Draft>) {
    var n := |drafts|;
    n > 1 && |Content(drafts[n - 1])| < MIN_CHARS && drafts[n - 1].heading == drafts[n - 2].heading
  }

  function Fold(drafts: seq<Draft>): seq<Draft> {
    var n := |drafts|;
    if Folds(drafts) then drafts[..n - 2] + [Draft(drafts[n - 2].heading, drafts[n - 2].parts + drafts[n - 1].parts)]
    else drafts
  }

  function Unfolded(text: string): seq<Draft> { Flush(AddAll(SplitSections(text))).out }

  function Drafts(text: string): seq<Draft> { Fold(Unfolded(text)) }

  function Number(drafts: seq<Draft>): (chunks: seq<Chunk>)
    ensures |chunks| == |drafts|
    ensures forall i :: 0 <= i < |drafts| ==> chunks[i] == Chunk(i, drafts[i].heading, Content(drafts[i]))
  {
    seq(|drafts|, i requires 0 <= i < |drafts| => Chunk(i, drafts[i].heading, Content(drafts[i])))
  }

  /** The chunks of a document: what chunk_document returns. */
  function ChunkDocument(text: string): seq<Chunk> { Number(Drafts(text)) }

  predicate OnePartEach(drafts: seq<Draft>) { forall i :: 0 <= i < |drafts| ==> |drafts[i].parts| == 1 }

  lemma FlushSingle(p: Packer)
    requires OnePartEach(p.out)
    ensures OnePartEach(Flush(p).out)
  {
  }

  lemma SinglesSingle(a: seq<Draft>, b: seq<Draft>)
    requires OnePartEach(a) && OnePartEach(b)
    ensures OnePartEach(a + b)
  {
  }

  lemma AddSingle(p: Packer, s: Section)
    requires OnePartEach(p.out)
    ensures OnePartEach(Add(p, s).out) && OnePartEach(Flush(p).out)
  {
    FlushSingle(p);
    if |Body(s)| > MAX_CHARS {
      SinglesSingle(Flush(p).out, Singles(Heading(s), SplitOversized(Body(s))));
    }
  }

  /** Until the fold, every chunk is one part. */
  lemma {:induction false} AddAllSingle(sections: seq<Section>)
    ensures OnePartEach(Flush(AddAll(sections)).out)
    ensures OnePartEach(AddAll(sections).out)
  {
    if sections != [] {
      AddAllSingle(sections[..|sections| - 1]);
      AddSingle(AddAll(sections[..|sections| - 1]), sections[|sections| - 1]);
    }
    FlushSingle(AddAll(sections));
  }

  method FlushStep(chunks: seq<Chunk>, body: string, heading: string, ghost p: Packer) returns (out: seq<Chunk>)
    requires chunks == Number(p.out) && body == p.body && heading == p.heading
    ensures out == Number(Flush(p).out)
  {
    var stripped := Strip(body);
    out := chunks;
    if stripped != "" {
      assert Content(Draft(heading, [Part(stripped, 0)])) == stripped;
      out := out + [Chunk(|out|, heading, stripped)];
    }
  }

  lemma NumberOneMore(drafts: seq<Draft>, heading: string, part: Part)
    ensures Number(drafts + [Draft(heading, [part])]) == Number(drafts) + [Chunk(|drafts|, heading, part.text)]
  {
    assert Content(Draft(heading, [part])) == part.text;
  }

  method AppendParts(chunks: seq<Chunk>, heading: string, body: string, ghost drafts: seq<Draft>)
    returns (out: seq<Chunk>)
    requires chunks == Number(drafts)
    ensures out == Number(drafts + Singles(heading, SplitOversized(body)))
  {
    out := chunks;
    var parts := SplitOversizedLoop(body);
    ghost var singles := Singles(heading, SplitOversized(body));
    for j := 0 to |parts|
      invariant out == Number(drafts + singles[..j])
    {
      NumberOneMore(drafts + singles[..j], heading, SplitOversized(body)[j]);
      assert drafts + singles[..j + 1] == drafts + singles[..j] + [singles[j]];
      out := out + [Chunk(|out|, heading, parts[j])];
    }
    assert singles[..|parts|] == singles;
  }

  method PackSections(sections: seq<Section>) returns (chunks: seq<Chunk>)
    ensures chunks == Number(Flush(AddAll(sections)).out)
  {
    chunks := [];
    var pendingBody, pendingHeading := "", "";
    ghost var p := AddAll([]);
    for i := 0 to |sections|
      invariant p == AddAll(sections[..i])
      invariant chunks == Number(p.out) && pendingBody == p.body && pendingHeading == p.heading
    {
      assert sections[..i + 1][..i] == sections[..i];
      ghost var was := p;
      p := Add(was, sections[i]);
      var body := Body(sections[i]);
      if body == "" {
        continue;
      }
      var heading := Heading(sections[i]);
      if |body| > MAX_CHARS {
        chunks := FlushStep(chunks, pendingBody, pendingHeading, was);
        chunks := AppendParts(chunks, heading, body, Flush(was).out);
        pendingBody, pendingHeading := "", heading;
        continue;
      }
      if pendingBody != "" && (heading != pendingHeading || |pendingBody| + |body| > TARGET_CHARS) {
        chunks := FlushStep(chunks, pendingBody, pendingHeading, was);
        pendingBody := "";
      }
      pendingHeading := heading;
      pendingBody := if pendingBody != "" then Strip(pendingBody + "\n\n" + body) else body;
    }
    assert sections[..|sections|] == sections;
    chunks := FlushStep(chunks, pendingBody, pendingHeading, p);
  }

  lemma ContentOfFold(a: Draft, b: Draft)
    requires |a.parts| == 1 && |b.parts| == 1
    ensures Content(Draft(a.heading, a.parts + b.parts)) == Content(a) + "\n\n" + Content(b)
  {
    TextsConcat(a.parts, b.parts);
    JoinAppend(Texts(a.parts), Texts(b.parts), "\n\n");
  }

  lemma NumberFolded(drafts: seq<Draft>)
    requires |drafts| > 1
    ensures var n := |drafts|;
      var d := Draft(drafts[n - 2].heading, drafts[n - 2].parts + drafts[n - 1].parts);
      Number(drafts[..n - 2] + [d]) == Number(drafts)[..n - 1][n - 2 := Chunk(n - 2, d.heading, Content(d))]
  {
  }

  method FoldTail(chunks: seq<Chunk>, ghost drafts: seq<Draft>) returns (out: seq<Chunk>)
    requires chunks == Number(drafts) && OnePartEach(drafts)
    ensures out == Number(Fold(drafts))
  {
    out := chunks;
    var n := |chunks|;
    if n > 1 && |chunks[n - 1].content| < MIN_CHARS && chunks[n - 1].heading == chunks[n - 2].heading {
      ContentOfFold(drafts[n - 2], drafts[n - 1]);
      NumberFolded(drafts);
      var tail := chunks[n - 1];
      out := chunks[..n - 1];
      out := out[n - 2 := out[n - 2].(content := out[n - 2].content + "\n\n" + tail.content)];
    }
  }

  /** Whatever ordinals the chunks carry, they leave with dense ones in reading order. */
  method Renumber(chunks: seq<Chunk>) returns (out: seq<Chunk>)
    ensures |out| == |chunks|
    ensures forall i :: 0 <= i < |out| ==>
      out[i].ordinal == i && out[i].heading == chunks[i].heading && out[i].content == chunks[i].content
  {
    out := chunks;
    for i := 0 to |chunks|
      invariant |out| == |chunks|
      invariant forall k :: 0 <= k < i ==> out[k] == chunks[k].(ordinal := k)
      invariant forall k :: i <= k < |out| ==> out[k] == chunks[k]
    {
      out := out[i := out[i].(ordinal := i)];
    }
  }

  lemma Renumbered(drafts: seq<Draft>, out: seq<Chunk>)
    requires |out| == |drafts| && forall i :: 0 <= i < |out| ==>
      out[i].ordinal == i && out[i].heading == Number(drafts)[i].heading && out[i].content == Number(drafts)[i].content
    ensures out == Number(drafts)
  {
  }

  /** chunk_document: pack the sections, fold a trailing scrap into its predecessor, renumber. */
  method ChunkDocumentLoop(text: string) returns (chunks: seq<Chunk>)
    ensures chunks == ChunkDocument(text)
  {
    var sections := SplitSectionsLoop(text);
    chunks := PackSections(sections);
    AddAllSingle(sections);
    chunks := FoldTail(chunks, Unfolded(text));
    chunks := Renumber(chunks);
    Renumbered(Drafts(text), chunks);
  }
}
