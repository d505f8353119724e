/** The shape of chunks: what a forced split repeats, how long a chunk can get, when there is none. */
module ChunkShape {
  import opened Text
  import opened Chunking
  import opened ChunkConservation

  // ---------------------------------------------------------------- overlap

  /** The first `next.repeated` non-space characters of `next` are the last ones of `prev`. */
  predicate Repeats(prev: Part, next: Part) {
    var a, b := NonSpace(prev.text), NonSpace(next.text);
    next.repeated <= |a| && next.repeated <= |b| && next.repeated < OVERLAP_CHARS &&
    b[..next.repeated] == a[|a| - next.repeated..]
  }

  predicate RepeatsTold(parts: seq<Part>) {
    forall i :: 0 <= i < |parts| && parts[i].repeated > 0 ==> i > 0 && Repeats(parts[i - 1], parts[i])
  }

  lemma RepeatsAppend(parts: seq<Part>, p: Part)
    requires RepeatsTold(parts)
    requires p.repeated > 0 ==> parts != [] && Repeats(parts[|parts| - 1], p)
    ensures RepeatsTold(parts + [p])
  {
  }

  lemma RepeatsConcat(a: seq<Part>, b: seq<Part>)
    requires RepeatsTold(a) && RepeatsTold(b)
    ensures RepeatsTold(a + b)
  {
    forall i | 0 <= i < |a + b| && (a + b)[i].repeated > 0
      ensures i > 0 && Repeats((a + b)[i - 1], (a + b)[i])
    {
      if i >= |a| {
        assert b[i - |a|].repeated > 0;
      }
    }
  }

  lemma ResumeRepeats(buf: Part, sentence: string)
    ensures var words := Resume(buf.text);
      Repeats(buf, Part(Strip(words + " " + sentence), |NonSpace(words)|))
  {
    var words := Resume(buf.text);
    var front := buf.text[..|buf.text| - |words|];
    assert buf.text == front + words;
    InkConcat(front, words, IsSpace);
    InkOfGlued(words, sentence);
  }

  lemma TakeFromLeft(a: string, b: string, n: nat)
    requires n <= |a|
    ensures |a + b| >= |a| && (a + b)[..n] == a[..n]
  {
  }

  lemma GrownRepeats(prev: Part, buf: Part, sentence: string)
    requires Repeats(prev, buf)
    ensures Repeats(prev, Part(Strip(buf.text + " " + sentence), buf.repeated))
  {
    InkOfGlued(buf.text, sentence);
    TakeFromLeft(NonSpace(buf.text), NonSpace(sentence), buf.repeated);
  }

  lemma LastRepeats(parts: seq<Part>, p: Part)
    requires RepeatsTold(parts + [p])
    ensures RepeatsTold(parts) && (p.repeated > 0 ==> parts != [] && Repeats(parts[|parts| - 1], p))
  {
    var whole := parts + [p];
    assert whole[|parts|] == p;
    assert forall i :: 0 <= i < |parts| ==> parts[i] == whole[i];
  }

  lemma BufferRepeats(st: Packing, sentence: string)
    requires RepeatsTold(st.parts + [st.buf])
    ensures RepeatsTold(st.parts + [Part(Strip(st.buf.text + " " + sentence), st.buf.repeated)])
  {
    LastRepeats(st.parts, st.buf);
    if st.buf.repeated > 0 {
      GrownRepeats(st.parts[|st.parts| - 1], st.buf, sentence);
    }
    RepeatsAppend(st.parts, Part(Strip(st.buf.text + " " + sentence), st.buf.repeated));
  }

  lemma PiecesRepeat(st: Packing, sentence: string)
    requires RepeatsTold(st.parts + [st.buf])
    ensures RepeatsTold(st.parts + Fresh(HardSplit(sentence)) + [Part("", 0)])
  {
    LastRepeats(st.parts, st.buf);
    RepeatsConcat(st.parts, Fresh(HardSplit(sentence)));
    RepeatsAppend(st.parts + Fresh(HardSplit(sentence)), Part("", 0));
  }

  lemma PackRepeats(st: Packing, sentence: string)
    requires WellCounted(st.buf) && RepeatsTold(st.parts + [st.buf])
    ensures RepeatsTold(Pack(st, sentence).parts + [Pack(st, sentence).buf])
  {
    if |st.buf.text| + |sentence| + 1 <= MAX_CHARS {
      BufferRepeats(st, sentence);
    } else if st.buf.text != "" {
      ResumeRepeats(st.buf, sentence);
      RepeatsAppend(st.parts + [st.buf], Pack(st, sentence).buf);
    } else {
      PiecesRepeat(st, sentence);
    }
  }

  lemma {:induction false} PackAllRepeats(sentences: seq<string>)
    ensures RepeatsTold(PackAll(sentences).parts + [PackAll(sentences).buf])
  {
    if sentences != [] {
      var init := sentences[..|sentences| - 1];
      PackAllRepeats(init);
      PackAllKeepsInk(init);
      PackRepeats(PackAll(init), sentences[|sentences| - 1]);
    }
  }

  lemma SplitRepeats(body: string)
    ensures RepeatsTold(SplitOversized(body))
  {
    var st := PackAll(Sentences(body));
    PackAllRepeats(Sentences(body));
    assert st.parts == (st.parts + [st.buf])[..|st.parts|];
  }

  function AllParts(drafts: seq<Draft>): seq<Part> {
    if drafts == [] then [] else AllParts(drafts[..|drafts| - 1]) + drafts[|drafts| - 1].parts
  }

  lemma AllPartsAppend(drafts: seq<Draft>, d: Draft)
    ensures AllParts(drafts + [d]) == AllParts(drafts) + d.parts
  {
    assert (drafts + [d])[..|drafts|] == drafts;
  }

  lemma SinglesLast(drafts: seq<Draft>, heading: string, parts: seq<Part>)
    requires parts != []
    ensures var n := |parts| - 1;
      drafts + Singles(heading, parts) == drafts + Singles(heading, parts[..n]) + [Draft(heading, [parts[n]])]
  {
  }

  lemma {:induction false} AllPartsOfSingles(drafts: seq<Draft>, heading: string, parts: seq<Part>)
    ensures AllParts(drafts + Singles(heading, parts)) == AllParts(drafts) + parts
  {
    if parts == [] {
      assert drafts + Singles(heading, parts) == drafts;
    } else {
      var n := |parts| - 1;
      AllPartsOfSingles(drafts, heading, parts[..n]);
      SinglesLast(drafts, heading, parts);
      AllPartsAppend(drafts + Singles(heading, parts[..n]), Draft(heading, [parts[n]]));
      Assoc(AllParts(drafts), parts[..n], [parts[n]]);
      SplitLast(parts);
    }
  }

  lemma FlushRepeats(p: Packer)
    requires RepeatsTold(AllParts(p.out))
    ensures RepeatsTold(AllParts(Flush(p).out))
  {
    var part := Part(Strip(p.body), 0);
    AllPartsAppend(p.out, Draft(p.heading, [part]));
    RepeatsAppend(AllParts(p.out), part);
  }

  lemma {:induction false} AddAllRepeats(sections: seq<Section>)
    ensures RepeatsTold(AllParts(AddAll(sections).out))
  {
    if sections != [] {
      var p, s := AddAll(sections[..|sections| - 1]), sections[|sections| - 1];
      AddAllRepeats(sections[..|sections| - 1]);
      FlushRepeats(p);
      SplitRepeats(Body(s));
      RepeatsConcat(AllParts(Flush(p).out), SplitOversized(Body(s)));
      AllPartsOfSingles(Flush(p).out, Heading(s), SplitOversized(Body(s)));
    }
  }

  lemma FoldKeepsParts(drafts: seq<Draft>)
    ensures AllParts(Fold(drafts)) == AllParts(drafts)
  {
    if Folds(drafts) {
      var n := |drafts|;
      var a, b := drafts[n - 2], drafts[n - 1];
      AllPartsAppend(drafts[..n - 2], Draft(a.heading, a.parts + b.parts));
      AllPartsAppend(drafts[..n - 2], a);
      AllPartsAppend(drafts[..n - 2] + [a], b);
      assert drafts[..n - 2] + [a] + [b] == drafts;
    }
  }

  /** Every repeated character really is one: it copies the end of the part before, at most 199 of them. */
  lemma OverlapIsRepetition(text: string)
    ensures RepeatsTold(AllParts(Drafts(text)))
  {
    AddAllRepeats(SplitSections(text));
    FlushRepeats(AddAll(SplitSections(text)));
    FoldKeepsParts(Unfolded(text));
  }

  // ---------------------------------------------------------------- size

  predicate Within(parts: seq<Part>, bound: nat) {
    forall i :: 0 <= i < |parts| ==> |parts[i].text| <= bound
  }

  predicate SentencesWithin(sentences: seq<string>, longest: nat) {
    forall i :: 0 <= i < |sentences| ==> |sentences[i]| <= longest
  }

  function PartBound(longest: nat): nat {
    if OVERLAP_CHARS + longest <= MAX_CHARS then MAX_CHARS else OVERLAP_CHARS + longest
  }

  lemma {:induction false} PackAllBound(sentences: seq<string>, longest: nat)
    requires SentencesWithin(sentences, longest)
    ensures Within(PackAll(sentences).parts, PartBound(longest)) && |PackAll(sentences).buf.text| <= PartBound(longest)
  {
    if sentences != [] {
      var init := sentences[..|sentences| - 1];
      PackAllBound(init, longest);
    }
  }

  /** A forced split is bounded by the budget, or by the overlap plus its longest sentence. */
  lemma SplitBound(body: string, longest: nat)
    requires SentencesWithin(Sentences(body), longest)
    ensures Within(SplitOversized(body), PartBound(longest))
  {
    PackAllBound(Sentences(body), longest);
  }

  /** A sentence meets a non-empty buffer it does not fit behind, and stays too long after the overlap. */
  predicate Overruns(st: Packing, sentence: string) {
    var buf := st.buf.text;
    buf != "" && |buf| + |sentence| + 1 > MAX_CHARS && |Strip(Resume(buf) + " " + sentence)| > MAX_CHARS
  }

  predicate NeverOverruns(sentences: seq<string>) {
    sentences == [] ||
    var n := |sentences| - 1;
    NeverOverruns(sentences[..n]) && !Overruns(PackAll(sentences[..n]), sentences[n])
  }

  lemma PackOverrun(st: Packing, sentence: string)
    ensures Within(Pack(st, sentence).parts, MAX_CHARS) && |Pack(st, sentence).buf.text| <= MAX_CHARS <==>
      Within(st.parts, MAX_CHARS) && |st.buf.text| <= MAX_CHARS && !Overruns(st, sentence)
  {
    var next := Pack(st, sentence);
    if st.buf.text != "" && |st.buf.text| + |sentence| + 1 > MAX_CHARS {
      assert next.parts == st.parts + [st.buf];
      assert Within(next.parts, MAX_CHARS) ==> |next.parts[|st.parts|].text| <= MAX_CHARS;
      assert forall i :: 0 <= i < |st.parts| ==> next.parts[i] == st.parts[i];
    } else if st.buf.text == "" {
      assert forall i :: 0 <= i < |st.parts| ==> next.parts[i] == st.parts[i];
    }
  }

  lemma {:induction false} PackAllOverrun(sentences: seq<string>)
    ensures Within(PackAll(sentences).parts, MAX_CHARS) && |PackAll(sentences).buf.text| <= MAX_CHARS <==>
      NeverOverruns(sentences)
  {
    if sentences != [] {
      var n := |sentences| - 1;
      PackAllOverrun(sentences[..n]);
      PackOverrun(PackAll(sentences[..n]), sentences[n]);
    }
  }

  lemma WithinAppend(parts: seq<Part>, p: Part, bound: nat)
    ensures Within(parts + [p], bound) <==> Within(parts, bound) && |p.text| <= bound
  {
    assert (parts + [p])[|parts|] == p;
    assert forall i :: 0 <= i < |parts| ==> (parts + [p])[i] == parts[i];
  }

  /** The budget holds for a forced split exactly when no sentence overruns it. */
  lemma SplitWithinBudget(body: string)
    ensures Within(SplitOversized(body), MAX_CHARS) <==> NeverOverruns(Sentences(body))
  {
    var st := PackAll(Sentences(body));
    PackAllOverrun(Sentences(body));
    WithinAppend(st.parts, st.buf, MAX_CHARS);
  }

  predicate DraftsWithin(drafts: seq<Draft>, bound: nat) {
    forall i :: 0 <= i < |drafts| ==> |Content(drafts[i])| <= bound
  }

  /** The sentences of every section that is split by force have at most `longest` characters. */
  predicate LongestSentence(sections: seq<Section>, longest: nat) {
    forall i :: 0 <= i < |sections| && |Body(sections[i])| > MAX_CHARS ==>
      SentencesWithin(Sentences(Body(sections[i])), longest)
  }

  lemma FlushBound(p: Packer, bound: nat)
    requires DraftsWithin(p.out, bound) && |p.body| <= bound
    ensures DraftsWithin(Flush(p).out, bound)
  {
    assert Content(Draft(p.heading, [Part(Strip(p.body), 0)])) == Strip(p.body);
  }

  lemma SinglesBound(heading: string, parts: seq<Part>, bound: nat)
    requires Within(parts, bound)
    ensures DraftsWithin(Singles(heading, parts), bound)
  {
    forall i | 0 <= i < |parts|
      ensures |Content(Singles(heading, parts)[i])| <= bound
    {
      assert Texts([parts[i]]) == [parts[i].text];
    }
  }

  lemma DraftsTogether(a: seq<Draft>, b: seq<Draft>, bound: nat)
    requires DraftsWithin(a, bound) && DraftsWithin(b, bound)
    ensures DraftsWithin(a + b, bound)
  {
  }

  lemma StripShortens(s: string, bound: nat)
    requires |s| <= bound
    ensures |Strip(s)| <= bound
  {
  }

  lemma AddOversizedBound(p: Packer, s: Section, bound: nat)
    requires DraftsWithin(p.out, bound) && |p.body| <= bound
    requires |Body(s)| > MAX_CHARS && Within(SplitOversized(Body(s)), bound)
    ensures DraftsWithin(Add(p, s).out, bound) && Add(p, s).body == ""
  {
    FlushBound(p, bound);
    SinglesBound(Heading(s), SplitOversized(Body(s)), bound);
    DraftsTogether(Flush(p).out, Singles(Heading(s), SplitOversized(Body(s))), bound);
  }

  lemma AddSmallBound(p: Packer, s: Section, bound: nat)
    requires DraftsWithin(p.out, bound) && |p.body| <= MAX_CHARS <= bound && |Body(s)| <= MAX_CHARS
    ensures DraftsWithin(Add(p, s).out, bound) && |Add(p, s).body| <= MAX_CHARS
  {
    FlushBound(p, bound);
    if Body(s) != "" && p.body != "" && !(Heading(s) != p.heading || |p.body| + |Body(s)| > TARGET_CHARS) {
      StripShortens(p.body + "\n\n" + Body(s), MAX_CHARS);
    }
  }

  lemma AddBound(p: Packer, s: Section, bound: nat)
    requires DraftsWithin(p.out, bound) && |p.body| <= MAX_CHARS <= bound
    requires |Body(s)| > MAX_CHARS ==> Within(SplitOversized(Body(s)), bound)
    ensures DraftsWithin(Add(p, s).out, bound) && |Add(p, s).body| <= MAX_CHARS
  {
    if |Body(s)| > MAX_CHARS {
      AddOversizedBound(p, s, bound);
    } else {
      AddSmallBound(p, s, bound);
    }
  }

  lemma {:induction false} AddAllBound(sections: seq<Section>, longest: nat)
    requires LongestSentence(sections, longest)
    ensures DraftsWithin(AddAll(sections).out, PartBound(longest)) && |AddAll(sections).body| <= MAX_CHARS
  {
    if sections != [] {
      var n := |sections| - 1;
      assert LongestSentence(sections[..n], longest);
      AddAllBound(sections[..n], longest);
      if |Body(sections[n])| > MAX_CHARS {
        SplitBound(Body(sections[n]), longest);
      }
      AddBound(AddAll(sections[..n]), sections[n], PartBound(longest));
    }
  }

  lemma FoldBound(drafts: seq<Draft>, bound: nat)
    requires DraftsWithin(drafts, bound) && OnePartEach(drafts)
    ensures DraftsWithin(Fold(drafts), bound + (if Folds(drafts) then MIN_CHARS + 1 else 0))
  {
    if Folds(drafts) {
      ContentOfFold(drafts[|drafts| - 2], drafts[|drafts| - 1]);
    }
  }

  /** The real size bound: PartBound before the fold; the fold adds a scrap and a blank line. */
  lemma ChunkBound(text: string, longest: nat)
    requires LongestSentence(SplitSections(text), longest)
    ensures forall i :: 0 <= i < |ChunkDocument(text)| ==>
      |ChunkDocument(text)[i].content| <= PartBound(longest) + (if Folds(Unfolded(text)) then MIN_CHARS + 1 else 0)
  {
    var sections := SplitSections(text);
    AddAllBound(sections, longest);
    FlushBound(AddAll(sections), PartBound(longest));
    AddAllSingle(sections);
    FoldBound(Unfolded(text), PartBound(longest));
  }

  /** Sentences that leave room for the overlap keep chunks within MAX_CHARS, or that plus MIN_CHARS + 1 if folded. */
  lemma ChunkBudget(text: string)
    requires LongestSentence(SplitSections(text), MAX_CHARS - OVERLAP_CHARS)
    ensures forall c :: c in ChunkDocument(text) ==> |c.content| <= MAX_CHARS + MIN_CHARS + 1
    ensures !Folds(Unfolded(text)) ==> forall c :: c in ChunkDocument(text) ==> |c.content| <= MAX_CHARS
  {
    ChunkBound(text, MAX_CHARS - OVERLAP_CHARS);
  }

  // ---------------------------------------------------------------- emptiness

  lemma ClosedInkless(st: Splitter)
    requires SectionInk(st.done, AnyHeading) == "" ==> st.done == []
    ensures SectionInk(Closed(st), AnyHeading) == "" ==> Closed(st) == []
  {
    ClosedInk(st, AnyHeading);
    BodyInk(st.current);
  }

  /** A section list without ink is empty: no section is emitted for blank lines. */
  lemma {:induction false} InklessSections(lines: seq<string>)
    ensures SectionInk(FeedAll(lines).done, AnyHeading) == "" ==> FeedAll(lines).done == []
  {
    if lines != [] {
      var before := lines[..|lines| - 1];
      InklessSections(before);
      ClosedInkless(FeedAll(before));
    }
  }

  lemma NoSectionsNoChunks(text: string)
    requires SplitSections(text) == []
    ensures ChunkDocument(text) == []
  {
    assert AddAll([]) == Packer([], "", "");
    assert Strip("") == "";
  }

  /** A document yields no chunks exactly when its non-heading lines are blank. */
  lemma NoChunksIffNoProse(text: string)
    ensures ChunkDocument(text) == [] <==> NonSpace(Concat(ProseUnder(SplitLines(text), AnyHeading))) == ""
  {
    ChunkingConserves(text, AnyHeading);
    InklessSections(SplitLines(text));
    ClosedInkless(FeedAll(SplitLines(text)));
    SectionsKeepProse(SplitLines(text), AnyHeading);
    if SplitSections(text) == [] {
      NoSectionsNoChunks(text);
    }
    assert ChunkDocument(text) == [] ==> Drafts(text) == [];
  }
}
