/**
 * A forced split in full: every part is a run of sentences behind the last words of the part before, closed only when
 * the next sentence does not fit, or a piece of a sentence that fits into no part.
 */
module ChunkOverlap {
  import opened Text
  import opened Chunking
  import opened ChunkLimits

  // ---------------------------------------------------------------- the words

  /** The longest suffix shorter than the overlap that stands behind a blank; nothing if there is no such blank. */
  predicate IsOverlap(prev: string, words: string) {
    && |words| <= |prev| && |words| < OVERLAP_CHARS && prev[|prev| - |words|..] == words
    && (words != "" ==> |words| < |prev| && prev[|prev| - |words| - 1] == ' ')
    && forall m :: 0 <= m < |prev| && |prev| - OVERLAP_CHARS <= m < |prev| - |words| - 1 ==> prev[m] != ' '
  }

  lemma OverlapUnique(prev: string, a: string, b: string)
    requires IsOverlap(prev, a) && IsOverlap(prev, b)
    ensures a == b
  {
    assert |a| == |b|;
  }

  lemma BehindFirstBlank(buf: string, start: nat, first: nat)
    requires start <= first < |buf| && buf[first] == ' ' && (start == 0 || start == |buf| - OVERLAP_CHARS)
    requires |buf| <= start + OVERLAP_CHARS && forall m :: start <= m < first ==> buf[m] != ' '
    ensures IsOverlap(buf, buf[first + 1..])
  {
  }

  lemma NoBlankBehind(buf: string, start: nat)
    requires start <= |buf| && (start == 0 || start == |buf| - OVERLAP_CHARS) && |buf| <= start + OVERLAP_CHARS
    requires forall m :: start <= m < |buf| ==> buf[m] != ' '
    ensures IsOverlap(buf, "")
  {
  }

  function TailStart(buf: string): (start: nat)
    ensures start <= |buf|
  {
    if |buf| <= OVERLAP_CHARS then 0 else |buf| - OVERLAP_CHARS
  }

  lemma FirstBlankOfTail(buf: string) returns (first: nat)
    ensures TailStart(buf) <= first <= |buf| && (first < |buf| ==> buf[first] == ' ')
    ensures forall m :: TailStart(buf) <= m < first ==> buf[m] != ' '
    ensures Resume(buf) == if first < |buf| then buf[first + 1..] else ""
  {
    var start := TailStart(buf);
    var tail := buf[start..];
    var blank := IndexOfBlank(tail);
    first := start + blank;
    assert start == 0 ==> tail == buf;
    forall m | start <= m < first
      ensures buf[m] != ' '
    {
      assert buf[m] == tail[m - start];
    }
    if blank < |tail| {
      assert tail[blank + 1..] == buf[first + 1..];
    }
  }

  lemma ResumeIsOverlap(buf: string)
    ensures IsOverlap(buf, Resume(buf))
  {
    var first := FirstBlankOfTail(buf);
    if first < |buf| {
      BehindFirstBlank(buf, TailStart(buf), first);
    } else {
      NoBlankBehind(buf, TailStart(buf));
    }
  }

  // ---------------------------------------------------------------- trimming what is glued together

  lemma {:induction false} TrimLeftPasses(a: string, b: string, blank: char -> bool)
    requires a != "" && !blank(a[|a| - 1])
    ensures TrimLeft(a + b, blank) == TrimLeft(a, blank) + b
  {
    DropFirst(a, b);
    if blank(a[0]) {
      TrimLeftPasses(a[1..], b, blank);
    }
  }

  lemma {:induction false} LeftEnds(a: string, blank: char -> bool)
    requires a != "" && !blank(a[|a| - 1])
    ensures var x := TrimLeft(a, blank); x != "" && !blank(x[0]) && !blank(x[|x| - 1])
  {
    if blank(a[0]) {
      LeftEnds(a[1..], blank);
    }
  }

  lemma TrimSolid(x: string, blank: char -> bool)
    requires x != "" && !blank(x[0]) && !blank(x[|x| - 1])
    ensures Trim(x, blank) == x
  {
  }

  lemma EndsLike(a: string, b: string)
    requires b != ""
    ensures a + b != "" && (a + b)[|a + b| - 1] == b[|b| - 1]
    ensures a != "" ==> (a + b)[0] == a[0]
  {
  }

  lemma TrimIs(s: string, x: string, blank: char -> bool)
    requires TrimLeft(s, blank) == x && x != "" && !blank(x[|x| - 1])
    ensures Trim(s, blank) == x
  {
  }

  /** Of texts that end in ink, the first may be trimmed before or after the second is glued on. */
  lemma TrimBefore(a: string, b: string, blank: char -> bool)
    requires a != "" && !blank(a[|a| - 1]) && b != "" && !blank(b[|b| - 1])
    ensures Trim(Trim(a, blank) + b, blank) == Trim(a + b, blank) == TrimLeft(a, blank) + b
  {
    var x := TrimLeft(a, blank);
    LeftEnds(a, blank);
    TrimSolid(x, blank);
    EndsLike(x, b);
    EndsLike(a, b);
    TrimSolid(x + b, blank);
    TrimIs(a, x, blank);
    TrimLeftPasses(a, b, blank);
    TrimIs(a + b, x + b, blank);
  }

  lemma StripBefore(a: string, s: string)
    requires a != "" && !IsSpace(a[|a| - 1]) && Solid(s)
    ensures Strip(Strip(a) + " " + s) == Strip(a + " " + s)
  {
    Assoc(a, " ", s);
    Assoc(Strip(a), " ", s);
    TrimBefore(a, " " + s, IsSpace);
  }

  // ---------------------------------------------------------------- runs of sentences

  predicate IsRun(sentences: seq<string>, words: string, a: nat, b: nat, text: string) {
    a < b <= |sentences| && text == Strip(words + " " + Join(sentences[a..b], " "))
  }

  lemma {:induction false} JoinEndsSolid(ws: seq<string>)
    requires ws != [] && AllSolid(ws)
    ensures Join(ws, " ") != "" && !IsSpace(Join(ws, " ")[|Join(ws, " ")| - 1])
  {
    if |ws| > 1 {
      JoinEndsSolid(ws[1..]);
      EndsLike(ws[0] + " ", Join(ws[1..], " "));
    }
  }

  lemma RunOfOne(sentences: seq<string>, words: string, n: nat)
    requires n < |sentences|
    ensures IsRun(sentences, words, n, n + 1, Strip(words + " " + sentences[n]))
  {
    assert sentences[n..n + 1] == [sentences[n]];
  }

  lemma JoinOneMore(sentences: seq<string>, a: nat, n: nat)
    requires a < n < |sentences|
    ensures Join(sentences[a..n + 1], " ") == Join(sentences[a..n], " ") + " " + sentences[n]
  {
    assert sentences[a..n + 1] == sentences[a..n] + [sentences[n]];
    JoinAppend(sentences[a..n], [sentences[n]], " ");
  }

  lemma Regroup(words: string, run: string, s: string)
    ensures words + " " + run + " " + s == words + " " + (run + " " + s)
  {
  }

  lemma RunGrows(sentences: seq<string>, words: string, a: nat, n: nat, text: string)
    requires IsRun(sentences, words, a, n, text) && n < |sentences| && AllSolid(sentences)
    ensures IsRun(sentences, words, a, n + 1, Strip(text + " " + sentences[n]))
  {
    var run := Join(sentences[a..n], " ");
    JoinEndsSolid(sentences[a..n]);
    EndsLike(words + " ", run);
    StripBefore(words + " " + run, sentences[n]);
    JoinOneMore(sentences, a, n);
    Regroup(words, run, sentences[n]);
  }

  // ---------------------------------------------------------------- one sentence more

  /** A piece of a sentence that was cut by force because it fits into no part. */
  predicate FromLong(sentences: seq<string>, text: string) {
    exists i :: 0 <= i < |sentences| && |sentences[i]| >= MAX_CHARS && text in HardSplit(sentences[i])
  }

  /** Sentences up to b, the first of which does not fit behind `prev`, behind the overlap of `prev`. */
  ghost predicate GoesOnTo(sentences: seq<string>, prev: string, b: nat, text: string) {
    exists words, a: nat :: IsOverlap(prev, words) && IsRun(sentences, words, a, b, text)
      && |prev| + |sentences[a]| + 1 > MAX_CHARS
  }

  /** Sentences up to b and nothing else. */
  ghost predicate StartsTo(sentences: seq<string>, b: nat, text: string) {
    exists a: nat :: IsRun(sentences, "", a, b, text)
  }

  ghost predicate Starts(sentences: seq<string>, text: string) {
    FromLong(sentences, text) || exists b: nat :: StartsTo(sentences, b, text)
  }

  ghost predicate Follows(sentences: seq<string>, prev: string, text: string) {
    || (exists b: nat :: GoesOnTo(sentences, prev, b, text))
    || (FromLong(sentences, prev) && Starts(sentences, text))
  }

  /** The first text starts, every other one follows the one before it. */
  ghost predicate Chained(sentences: seq<string>, texts: seq<string>) {
    && (texts != [] ==> Starts(sentences, texts[0]))
    && forall i :: 0 < i < |texts| ==> Follows(sentences, texts[i - 1], texts[i])
  }

  /** The buffer holds the sentences up to n. */
  ghost predicate BufferTo(sentences: seq<string>, texts: seq<string>, n: nat, buf: string) {
    if texts == [] then StartsTo(sentences, n, buf) else
    var last := texts[|texts| - 1];
    GoesOnTo(sentences, last, n, buf) || (FromLong(sentences, last) && StartsTo(sentences, n, buf))
  }

  ghost predicate Linked(sentences: seq<string>, texts: seq<string>, n: nat, buf: string) {
    && Chained(sentences, texts)
    && (if buf != "" then Solid(buf) && BufferTo(sentences, texts, n, buf)
        else texts == [] || FromLong(sentences, texts[|texts| - 1]))
  }

  lemma GluedIsSolid(words: string, sentence: string)
    requires Solid(sentence)
    ensures Solid(Strip(words + " " + sentence))
  {
    GluedKeepsLength(words, sentence);
    StrippedIsSolid(words + " " + sentence);
  }

  lemma StartsGrow(sentences: seq<string>, n: nat, buf: string)
    requires StartsTo(sentences, n, buf) && n < |sentences| && AllSolid(sentences)
    ensures StartsTo(sentences, n + 1, Strip(buf + " " + sentences[n]))
  {
    var a: nat :| IsRun(sentences, "", a, n, buf);
    RunGrows(sentences, "", a, n, buf);
  }

  lemma GoesOnGrows(sentences: seq<string>, prev: string, n: nat, buf: string)
    requires GoesOnTo(sentences, prev, n, buf) && n < |sentences| && AllSolid(sentences)
    ensures GoesOnTo(sentences, prev, n + 1, Strip(buf + " " + sentences[n]))
  {
    var words, a: nat :| IsOverlap(prev, words) && IsRun(sentences, words, a, n, buf)
      && |prev| + |sentences[a]| + 1 > MAX_CHARS;
    RunGrows(sentences, words, a, n, buf);
  }

  lemma BufferGrows(sentences: seq<string>, texts: seq<string>, n: nat, buf: string)
    requires BufferTo(sentences, texts, n, buf) && n < |sentences| && AllSolid(sentences)
    ensures BufferTo(sentences, texts, n + 1, Strip(buf + " " + sentences[n]))
  {
    if texts == [] || !GoesOnTo(sentences, texts[|texts| - 1], n, buf) {
      StartsGrow(sentences, n, buf);
    } else {
      GoesOnGrows(sentences, texts[|texts| - 1], n, buf);
    }
  }

  lemma GrowsOn(sentences: seq<string>, texts: seq<string>, n: nat, buf: string)
    requires Linked(sentences, texts, n, buf) && n < |sentences| && AllSolid(sentences)
    ensures Linked(sentences, texts, n + 1, Strip(buf + " " + sentences[n]))
  {
    GluedIsSolid(buf, sentences[n]);
    if buf == "" {
      RunOfOne(sentences, "", n);
      assert StartsTo(sentences, n + 1, Strip("" + " " + sentences[n]));
    } else {
      BufferGrows(sentences, texts, n, buf);
    }
  }

  lemma BufferFollows(sentences: seq<string>, texts: seq<string>, n: nat, buf: string)
    requires BufferTo(sentences, texts, n, buf)
    ensures if texts == [] then Starts(sentences, buf) else Follows(sentences, texts[|texts| - 1], buf)
  {
  }

  lemma ChainOneMore(sentences: seq<string>, texts: seq<string>, text: string)
    requires Chained(sentences, texts)
    requires if texts == [] then Starts(sentences, text) else Follows(sentences, texts[|texts| - 1], text)
    ensures Chained(sentences, texts + [text])
  {
  }

  lemma ResumesBehind(sentences: seq<string>, n: nat, buf: string)
    requires n < |sentences| && |buf| + |sentences[n]| + 1 > MAX_CHARS
    ensures GoesOnTo(sentences, buf, n + 1, Strip(Resume(buf) + " " + sentences[n]))
  {
    ResumeIsOverlap(buf);
    RunOfOne(sentences, Resume(buf), n);
  }

  lemma LinkedBehind(sentences: seq<string>, texts: seq<string>, n: nat, last: string, buf: string)
    requires Chained(sentences, texts + [last]) && Solid(buf) && GoesOnTo(sentences, last, n, buf)
    ensures Linked(sentences, texts + [last], n, buf)
  {
    assert BufferTo(sentences, texts + [last], n, buf);
  }

  lemma LinkedCloses(sentences: seq<string>, texts: seq<string>, n: nat, buf: string)
    requires Linked(sentences, texts, n, buf) && buf != ""
    ensures Chained(sentences, texts + [buf])
  {
    BufferFollows(sentences, texts, n, buf);
    ChainOneMore(sentences, texts, buf);
  }

  lemma ClosesAndResumes(sentences: seq<string>, texts: seq<string>, n: nat, buf: string)
    requires Linked(sentences, texts, n, buf) && buf != "" && n < |sentences| && AllSolid(sentences)
    requires |buf| + |sentences[n]| + 1 > MAX_CHARS
    ensures Linked(sentences, texts + [buf], n + 1, Strip(Resume(buf) + " " + sentences[n]))
  {
    LinkedCloses(sentences, texts, n, buf);
    GluedIsSolid(Resume(buf), sentences[n]);
    ResumesBehind(sentences, n, buf);
    LinkedBehind(sentences, texts, n + 1, buf, Strip(Resume(buf) + " " + sentences[n]));
  }

  lemma {:induction false} PiecesChained(sentences: seq<string>, texts: seq<string>, pieces: seq<string>)
    requires Chained(sentences, texts) && (texts != [] ==> FromLong(sentences, texts[|texts| - 1]))
    requires forall i :: 0 <= i < |pieces| ==> FromLong(sentences, pieces[i])
    ensures Chained(sentences, texts + pieces)
    ensures texts + pieces != [] ==> FromLong(sentences, (texts + pieces)[|texts + pieces| - 1])
  {
    forall i | 0 < i < |texts + pieces|
      ensures Follows(sentences, (texts + pieces)[i - 1], (texts + pieces)[i])
    {
      if i >= |texts| {
        assert FromLong(sentences, (texts + pieces)[i - 1]);
        assert Starts(sentences, (texts + pieces)[i]);
      }
    }
  }

  ghost predicate PackedTo(sentences: seq<string>, n: nat, st: Packing) {
    Linked(sentences, Texts(st.parts), n, st.buf.text)
  }

  lemma TextsOfPieces(parts: seq<Part>, pieces: seq<string>)
    ensures Texts(parts + Fresh(pieces)) == Texts(parts) + pieces
  {
    TextsConcat(parts, Fresh(pieces));
    assert Texts(Fresh(pieces)) == pieces;
  }

  lemma PiecesLink(sentences: seq<string>, n: nat, st: Packing)
    requires n < |sentences| && |sentences[n]| >= MAX_CHARS && st.buf.text == "" && PackedTo(sentences, n, st)
    ensures PackedTo(sentences, n + 1, Packing(st.parts + Fresh(HardSplit(sentences[n])), Part("", 0)))
  {
    TextsOfPieces(st.parts, HardSplit(sentences[n]));
    PiecesChained(sentences, Texts(st.parts), HardSplit(sentences[n]));
  }

  lemma PackLinks(sentences: seq<string>, n: nat, st: Packing)
    requires n < |sentences| && AllSolid(sentences) && PackedTo(sentences, n, st)
    ensures PackedTo(sentences, n + 1, Pack(st, sentences[n]))
  {
    if |st.buf.text| + |sentences[n]| + 1 <= MAX_CHARS {
      GrowsOn(sentences, Texts(st.parts), n, st.buf.text);
    } else if st.buf.text != "" {
      LeftoverText(st);
      ClosesAndResumes(sentences, Texts(st.parts), n, st.buf.text);
    } else {
      PiecesLink(sentences, n, st);
    }
  }

  lemma {:induction false} PackAllLinks(sentences: seq<string>, n: nat)
    requires n <= |sentences| && AllSolid(sentences)
    ensures PackedTo(sentences, n, PackAll(sentences[..n]))
  {
    if n == 0 {
      assert sentences[..0] == [];
    } else {
      PackAllLinks(sentences, n - 1);
      PackAllFront(sentences, n - 1);
      PackLinks(sentences, n - 1, PackAll(sentences[..n - 1]));
    }
  }

  /**
   * The parts of a forced split. The first is a run of sentences joined by blanks. Every other one is a run of
   * sentences behind the overlap of the part before, whose first sentence did not fit there. Only where a sentence
   * fits into no part are there pieces of it, and the part behind a piece starts anew.
   */
  lemma SplitChains(body: string)
    requires Solid(body)
    ensures Chained(Sentences(body), Texts(SplitOversized(body)))
  {
    var sentences := Sentences(body);
    var st := PackAll(sentences);
    SentencesFromSolid(body, 0);
    PackAllLinks(sentences, |sentences|);
    TakeAll(sentences);
    if st.buf.text != "" {
      BufferFollows(sentences, Texts(st.parts), |sentences|, st.buf.text);
      ChainOneMore(sentences, Texts(st.parts), st.buf.text);
      LeftoverText(st);
    }
  }

  /** Without such sentences every part but the first carries the overlap of the one before. */
  lemma EveryPartResumes(body: string, i: nat)
    requires Solid(body) && 0 < i < |SplitOversized(body)|
    requires forall k :: 0 <= k < |Sentences(body)| ==> |Sentences(body)[k]| < MAX_CHARS
    ensures var sentences, parts := Sentences(body), SplitOversized(body);
      var prev, next := parts[i - 1].text, parts[i].text;
      exists b: nat :: GoesOnTo(sentences, prev, b, next)
  {
    SplitChains(body);
    var texts := Texts(SplitOversized(body));
    assert Follows(Sentences(body), texts[i - 1], texts[i]);
  }
}
