/** When a document stays within the size budget: the exact condition, and what it means for sentences. */
module ChunkLimits {
  import opened Text
  import opened Chunking
  import opened ChunkConservation
  import opened ChunkShape

  // ---------------------------------------------------------------- the exact condition

  lemma DraftsTogetherFit(a: seq<Draft>, b: seq<Draft>)
    ensures DraftsWithin(a + b, MAX_CHARS) <==> DraftsWithin(a, MAX_CHARS) && DraftsWithin(b, MAX_CHARS)
  {
    if DraftsWithin(a + b, MAX_CHARS) {
      assert forall i :: 0 <= i < |a| ==> a[i] == (a + b)[i];
      assert forall i :: 0 <= i < |b| ==> b[i] == (a + b)[|a| + i];
    }
  }

  lemma FlushFits(p: Packer)
    requires |p.body| <= MAX_CHARS
    ensures DraftsWithin(Flush(p).out, MAX_CHARS) <==> DraftsWithin(p.out, MAX_CHARS)
  {
    if Strip(p.body) != "" {
      var last := Draft(p.heading, [Part(Strip(p.body), 0)]);
      assert Content(last) == Strip(p.body);
      DraftsTogetherFit(p.out, [last]);
    }
  }

  lemma SinglesFit(heading: string, parts: seq<Part>)
    ensures DraftsWithin(Singles(heading, parts), MAX_CHARS) <==> Within(parts, MAX_CHARS)
  {
    forall i | 0 <= i < |parts|
      ensures Content(Singles(heading, parts)[i]) == parts[i].text
    {
      assert Texts([parts[i]]) == [parts[i].text];
    }
  }

  /** The section is not split by force, or no sentence of it overruns the split. */
  predicate SectionFits(s: Section) { |Body(s)| > MAX_CHARS ==> NeverOverruns(Sentences(Body(s))) }

  /** Every section fits. */
  predicate SectionsFit(sections: seq<Section>) {
    sections == [] || (SectionsFit(sections[..|sections| - 1]) && SectionFits(sections[|sections| - 1]))
  }

  lemma AddFits(p: Packer, s: Section)
    requires |p.body| <= MAX_CHARS
    ensures |Add(p, s).body| <= MAX_CHARS
    ensures DraftsWithin(Add(p, s).out, MAX_CHARS) <==> DraftsWithin(p.out, MAX_CHARS) && SectionFits(s)
  {
    FlushFits(p);
    if |Body(s)| > MAX_CHARS {
      var parts := SplitOversized(Body(s));
      SplitWithinBudget(Body(s));
      SinglesFit(Heading(s), parts);
      DraftsTogetherFit(Flush(p).out, Singles(Heading(s), parts));
    } else if Body(s) != "" && p.body != "" && !(Heading(s) != p.heading || |p.body| + |Body(s)| > TARGET_CHARS) {
      StripShortens(p.body + "\n\n" + Body(s), MAX_CHARS);
    }
  }

  lemma {:induction false} AddAllFits(sections: seq<Section>)
    ensures |AddAll(sections).body| <= MAX_CHARS
    ensures DraftsWithin(AddAll(sections).out, MAX_CHARS) <==> SectionsFit(sections)
  {
    if sections != [] {
      AddAllFits(sections[..|sections| - 1]);
      AddFits(AddAll(sections[..|sections| - 1]), sections[|sections| - 1]);
    }
  }

  /** If the last draft is folded into the one before, the two and a blank line fit. */
  predicate FoldFits(drafts: seq<Draft>) {
    var n := |drafts|;
    Folds(drafts) ==> |Content(drafts[n - 2])| + 2 + |Content(drafts[n - 1])| <= MAX_CHARS
  }

  lemma FoldWithin(drafts: seq<Draft>)
    requires OnePartEach(drafts)
    ensures DraftsWithin(Fold(drafts), MAX_CHARS) <==> DraftsWithin(drafts, MAX_CHARS) && FoldFits(drafts)
  {
    if Folds(drafts) {
      var n := |drafts|;
      var a, b := drafts[n - 2], drafts[n - 1];
      var folded := Draft(a.heading, a.parts + b.parts);
      ContentOfFold(a, b);
      DraftsTogetherFit(drafts[..n - 2], [folded]);
      DraftsTogetherFit(drafts[..n - 2], [a, b]);
      assert drafts == drafts[..n - 2] + [a, b];
      assert [folded][0] == folded && [a, b][0] == a && [a, b][1] == b;
    }
  }

  predicate ChunksWithin(chunks: seq<Chunk>, bound: nat) {
    forall i :: 0 <= i < |chunks| ==> |chunks[i].content| <= bound
  }

  lemma NumberWithin(drafts: seq<Draft>)
    ensures ChunksWithin(Number(drafts), MAX_CHARS) <==> DraftsWithin(drafts, MAX_CHARS)
  {
    forall i | 0 <= i < |drafts|
      ensures Number(drafts)[i].content == Content(drafts[i])
    {
    }
  }

  lemma UnfoldedWithin(text: string)
    ensures DraftsWithin(Unfolded(text), MAX_CHARS) <==> SectionsFit(SplitSections(text))
  {
    AddAllFits(SplitSections(text));
    FlushFits(AddAll(SplitSections(text)));
  }

  /**
   * Every chunk of a document is within the budget exactly when no section that is split by force has a sentence
   * that overruns, and the last two chunks fit together if the last one is folded.
   */
  lemma DocumentWithinBudget(text: string)
    ensures ChunksWithin(ChunkDocument(text), MAX_CHARS) <==>
      SectionsFit(SplitSections(text)) && FoldFits(Unfolded(text))
  {
    UnfoldedWithin(text);
    AddAllSingle(SplitSections(text));
    FoldWithin(Unfolded(text));
    NumberWithin(Drafts(text));
  }

  // ---------------------------------------------------------------- what the condition means for sentences

  predicate Solid(s: string) { s != "" && !IsSpace(s[0]) && !IsSpace(s[|s| - 1]) }

  lemma StrippedIsSolid(s: string)
    ensures Strip(s) != "" ==> Solid(Strip(s))
  {
  }

  predicate AllSolid(sentences: seq<string>) { forall i :: 0 <= i < |sentences| ==> Solid(sentences[i]) }

  lemma {:induction false} TrimLeftStops(a: string, b: string)
    requires b != "" && !IsSpace(b[0])
    ensures var t := TrimLeft(a + b, IsSpace); |t| >= |b| && t[|t| - 1] == b[|b| - 1]
  {
    if a == "" {
      assert a + b == b;
    } else {
      assert (a + b)[1..] == a[1..] + b;
      TrimLeftStops(a[1..], b);
    }
  }

  lemma GluedKeepsLength(words: string, s: string)
    requires Solid(s)
    ensures |Strip(words + " " + s)| >= |s|
  {
    TrimLeftStops(words + " ", s);
  }

  lemma FirstSolid(s: string, rest: seq<string>)
    requires Solid(s) && AllSolid(rest)
    ensures AllSolid([s] + rest)
  {
  }

  lemma {:induction false} SentencesFromSolid(body: string, i: nat)
    requires Solid(body) && i < |body| && !IsSpace(body[i])
    ensures AllSolid(SentencesFrom(body, i))
    decreases |body| - i
  {
    var j := SentenceEnd(body, i);
    if j < |body| {
      SentencesFromSolid(body, RunEnd(body, j));
      assert Solid(body[i..j]);
      FirstSolid(body[i..j], SentencesFrom(body, RunEnd(body, j)));
    }
  }

  lemma PackFills(st: Packing, sentence: string)
    requires Solid(sentence) && (st.buf.text != "" || |sentence| < MAX_CHARS)
    ensures Pack(st, sentence).buf.text != ""
  {
    GluedKeepsLength(st.buf.text, sentence);
    GluedKeepsLength(Resume(st.buf.text), sentence);
  }

  lemma PackAllFront(sentences: seq<string>, n: nat)
    requires n < |sentences|
    ensures PackAll(sentences[..n + 1]) == Pack(PackAll(sentences[..n]), sentences[n])
  {
    assert sentences[..n + 1][..n] == sentences[..n];
  }

  /** Once a sentence has fitted into the buffer, the buffer is never empty again. */
  lemma {:induction false} BufferFilled(sentences: seq<string>, i: nat, n: nat)
    requires i < n <= |sentences| && |sentences[i]| < MAX_CHARS && AllSolid(sentences)
    ensures PackAll(sentences[..n]).buf.text != ""
  {
    PackAllFront(sentences, n - 1);
    if i < n - 1 {
      BufferFilled(sentences, i, n - 1);
    }
    PackFills(PackAll(sentences[..n - 1]), sentences[n - 1]);
  }

  lemma BehindTheBuffer(st: Packing, sentence: string)
    requires st.buf.text != "" && Solid(sentence) && !Overruns(st, sentence)
    ensures |sentence| <= MAX_CHARS
  {
    GluedKeepsLength(Resume(st.buf.text), sentence);
  }

  lemma {:induction false} NoOverrunAt(sentences: seq<string>, j: nat)
    requires NeverOverruns(sentences) && j < |sentences|
    ensures !Overruns(PackAll(sentences[..j]), sentences[j])
  {
    if j < |sentences| - 1 {
      var front := sentences[..|sentences| - 1];
      NoOverrunAt(front, j);
      assert front[..j] == sentences[..j] && front[j] == sentences[j];
    }
  }

  /** Without an overrun, a sentence beyond the budget comes only before the first one that fits. */
  lemma LongOnesComeFirst(sentences: seq<string>, i: nat, j: nat)
    requires NeverOverruns(sentences) && AllSolid(sentences) && i < j < |sentences| && |sentences[i]| < MAX_CHARS
    ensures |sentences[j]| <= MAX_CHARS
  {
    BufferFilled(sentences, i, j);
    NoOverrunAt(sentences, j);
    BehindTheBuffer(PackAll(sentences[..j]), sentences[j]);
  }

  lemma {:induction false} EachSectionFits(sections: seq<Section>, k: nat)
    requires SectionsFit(sections) && k < |sections|
    ensures SectionFits(sections[k])
  {
    if k < |sections| - 1 {
      EachSectionFits(sections[..|sections| - 1], k);
    }
  }

  /** No sentence beyond the budget stands behind a shorter one. */
  predicate LongFirst(sentences: seq<string>) {
    forall i, j :: 0 <= i < j < |sentences| && |sentences[i]| < MAX_CHARS ==> |sentences[j]| <= MAX_CHARS
  }

  lemma FittingSplitIsLongFirst(body: string)
    requires Solid(body) && NeverOverruns(Sentences(body))
    ensures LongFirst(Sentences(body))
  {
    var sentences := Sentences(body);
    SentencesFromSolid(body, 0);
    forall i, j | 0 <= i < j < |sentences| && |sentences[i]| < MAX_CHARS
      ensures |sentences[j]| <= MAX_CHARS
    {
      LongOnesComeFirst(sentences, i, j);
    }
  }

  /** What a writer can check: chunks within the budget have no sentence beyond it behind a shorter one. */
  lemma BudgetBoundsSentences(text: string, k: nat)
    requires ChunksWithin(ChunkDocument(text), MAX_CHARS)
    requires k < |SplitSections(text)| && |Body(SplitSections(text)[k])| > MAX_CHARS
    ensures LongFirst(Sentences(Body(SplitSections(text)[k])))
  {
    DocumentWithinBudget(text);
    EachSectionFits(SplitSections(text), k);
    StrippedIsSolid(Join(SplitSections(text)[k].lines, "\n"));
    FittingSplitIsLongFirst(Body(SplitSections(text)[k]));
  }
}
