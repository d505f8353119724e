/**
 * How sections are packed, said without the packer: the sections fall into segments, each a single section too long
 * for a chunk or a longest run of small ones under one heading, and every segment gives its chunks.
 */
module ChunkPacking {
  import opened Wrappers
  import opened Text
  import opened Chunking
  import opened ChunkLimits

  // ---------------------------------------------------------------- segments

  /** What the packer sees of a section. */
  datatype Piece = Piece(heading: string, body: string)

  function Pieces(sections: seq<Section>): (ps: seq<Piece>)
    ensures |ps| == |sections|
    ensures forall i :: 0 <= i < |sections| ==> ps[i] == Piece(Heading(sections[i]), Body(sections[i]))
  {
    seq(|sections|, i requires 0 <= i < |sections| => Piece(Heading(sections[i]), Body(sections[i])))
  }

  /** The pieces from `first` up to `end`. */
  datatype Segment = Segment(first: nat, end: nat)

  predicate Big(x: Piece) { |x.body| > MAX_CHARS }

  /** The bodies with a blank line between them. */
  function Joined(ps: seq<Piece>, a: nat, b: nat): string
    requires a < b <= |ps|
    decreases b
  {
    if b == a + 1 then ps[a].body else Joined(ps, a, b - 1) + "\n\n" + ps[b - 1].body
  }

  predicate SmallUnder(x: Piece, heading: string) { !Big(x) && x.heading == heading }

  /** The pieces from a on leave room for piece k. */
  predicate RoomFor(ps: seq<Piece>, a: nat, k: nat)
    requires a < k < |ps|
  {
    |Joined(ps, a, k)| + |ps[k].body| <= TARGET_CHARS
  }

  /** A run of small pieces under one heading, each of which found the ones before it short enough to join. */
  predicate IsRun(ps: seq<Piece>, a: nat, b: nat) {
    && a < b <= |ps|
    && (forall k :: a <= k < b ==> SmallUnder(ps[k], ps[a].heading))
    && (forall k :: a < k < b ==> RoomFor(ps, a, k))
  }

  predicate IsSegment(ps: seq<Piece>, g: Segment) {
    IsRun(ps, g.first, g.end) || (g.first < |ps| && Big(ps[g.first]) && g.end == g.first + 1)
  }

  /** What keeps two neighbouring runs apart: another heading, or too much text. */
  predicate Apart(ps: seq<Piece>, g: Segment, next: Piece)
    requires IsSegment(ps, g)
  {
    Big(ps[g.first]) || Big(next) || ps[g.first].heading != next.heading
    || |Joined(ps, g.first, g.end)| + |next.body| > TARGET_CHARS
  }

  /** The first n pieces, one segment after the other. */
  predicate Tiles(ps: seq<Piece>, segs: seq<Segment>, n: nat)
    decreases |segs|
  {
    if segs == [] then n == 0 else
    var before, last := segs[..|segs| - 1], segs[|segs| - 1];
    && IsSegment(ps, last) && last.end == n && Tiles(ps, before, last.first)
    && (before != [] ==> Apart(ps, before[|before| - 1], ps[last.first]))
  }

  function DraftsOf(ps: seq<Piece>, g: Segment): seq<Draft>
    requires IsSegment(ps, g)
  {
    var x := ps[g.first];
    if Big(x) then Singles(x.heading, SplitOversized(x.body))
    else [Draft(x.heading, [Part(Joined(ps, g.first, g.end), 0)])]
  }

  function AllDrafts(ps: seq<Piece>, segs: seq<Segment>, n: nat): seq<Draft>
    requires Tiles(ps, segs, n)
    decreases |segs|
  {
    if segs == [] then [] else
    var last := segs[|segs| - 1];
    AllDrafts(ps, segs[..|segs| - 1], last.first) + DraftsOf(ps, last)
  }

  // ---------------------------------------------------------------- the packer

  function AddPiece(p: Packer, x: Piece): Packer {
    if x.body == "" then p
    else if Big(x) then Packer(Flush(p).out + Singles(x.heading, SplitOversized(x.body)), "", x.heading)
    else
      var q := if p.body != "" && (x.heading != p.heading || |p.body| + |x.body| > TARGET_CHARS) then Flush(p) else p;
      Packer(q.out, if q.body != "" then Strip(q.body + "\n\n" + x.body) else x.body, x.heading)
  }

  lemma AddIsPiece(p: Packer, s: Section)
    ensures Add(p, s) == AddPiece(p, Piece(Heading(s), Body(s)))
  {
  }

  predicate HasBodies(ps: seq<Piece>) { forall i :: 0 <= i < |ps| ==> Solid(ps[i].body) }

  /** The segments that are closed, and where the run that is still open begins, if there is one. */
  datatype Layout = Layout(closed: seq<Segment>, run: Option<nat>)

  function All(lay: Layout, n: nat): seq<Segment> {
    if lay.run.None? then lay.closed else lay.closed + [Segment(lay.run.value, n)]
  }

  /** The packer holds the open run, and the segments before it are out. */
  predicate Holds(ps: seq<Piece>, lay: Layout, n: nat, p: Packer) {
    match lay.run
    case None =>
      && Tiles(ps, lay.closed, n) && p.out == AllDrafts(ps, lay.closed, n) && p.body == ""
      && (lay.closed != [] ==> Big(ps[lay.closed[|lay.closed| - 1].first]))
    case Some(a) =>
      && Tiles(ps, lay.closed, a) && p.out == AllDrafts(ps, lay.closed, a)
      && IsRun(ps, a, n) && p.heading == ps[a].heading && p.body == Joined(ps, a, n) && Solid(p.body)
      && (lay.closed != [] ==> Apart(ps, lay.closed[|lay.closed| - 1], ps[a]))
  }

  lemma TilesOneMore(ps: seq<Piece>, segs: seq<Segment>, g: Segment)
    requires Tiles(ps, segs, g.first) && IsSegment(ps, g)
    requires segs != [] ==> Apart(ps, segs[|segs| - 1], ps[g.first])
    ensures Tiles(ps, segs + [g], g.end)
    ensures AllDrafts(ps, segs + [g], g.end) == AllDrafts(ps, segs, g.first) + DraftsOf(ps, g)
  {
    assert (segs + [g])[..|segs|] == segs;
  }

  lemma StripSolid(s: string)
    requires Solid(s)
    ensures Strip(s) == s
  {
  }

  lemma FlushEmpty(p: Packer)
    requires p.body == ""
    ensures Flush(p).out == p.out
  {
    assert Strip("") == "";
  }

  lemma FlushSolid(p: Packer)
    requires Solid(p.body)
    ensures Flush(p).out == p.out + [Draft(p.heading, [Part(p.body, 0)])]
  {
    StripSolid(p.body);
  }

  lemma FlushGivesAll(ps: seq<Piece>, lay: Layout, n: nat, p: Packer)
    requires Holds(ps, lay, n, p)
    ensures Tiles(ps, All(lay, n), n) && Flush(p).out == AllDrafts(ps, All(lay, n), n)
  {
    if lay.run.Some? {
      FlushSolid(p);
      TilesOneMore(ps, lay.closed, Segment(lay.run.value, n));
    } else {
      FlushEmpty(p);
    }
  }

  lemma GluedSolid(a: string, b: string)
    requires Solid(a) && Solid(b)
    ensures Solid(a + "\n\n" + b) && Strip(a + "\n\n" + b) == a + "\n\n" + b
  {
    StripSolid(a + "\n\n" + b);
  }

  lemma BigStandsAlone(ps: seq<Piece>, lay: Layout, n: nat, p: Packer)
    requires n < |ps| && HasBodies(ps) && Holds(ps, lay, n, p) && Big(ps[n])
    ensures Holds(ps, Layout(All(lay, n) + [Segment(n, n + 1)], None), n + 1, AddPiece(p, ps[n]))
  {
    FlushGivesAll(ps, lay, n, p);
    TilesOneMore(ps, All(lay, n), Segment(n, n + 1));
  }

  lemma RunExtends(ps: seq<Piece>, a: nat, n: nat)
    requires n < |ps| && IsRun(ps, a, n) && SmallUnder(ps[n], ps[a].heading) && RoomFor(ps, a, n)
    ensures IsRun(ps, a, n + 1) && Joined(ps, a, n + 1) == Joined(ps, a, n) + "\n\n" + ps[n].body
  {
  }

  lemma SmallJoins(ps: seq<Piece>, lay: Layout, n: nat, p: Packer)
    requires n < |ps| && HasBodies(ps) && Holds(ps, lay, n, p) && !Big(ps[n])
    requires lay.run.Some? && ps[n].heading == p.heading && |p.body| + |ps[n].body| <= TARGET_CHARS
    ensures Holds(ps, lay, n + 1, AddPiece(p, ps[n]))
  {
    RunExtends(ps, lay.run.value, n);
    GluedSolid(p.body, ps[n].body);
  }

  lemma RunOfOne(ps: seq<Piece>, n: nat)
    requires n < |ps| && !Big(ps[n])
    ensures IsRun(ps, n, n + 1) && Joined(ps, n, n + 1) == ps[n].body
  {
  }

  lemma NewRun(ps: seq<Piece>, segs: seq<Segment>, n: nat, p: Packer)
    requires n < |ps| && HasBodies(ps) && !Big(ps[n])
    requires Tiles(ps, segs, n) && p.out == AllDrafts(ps, segs, n)
    requires segs != [] ==> Apart(ps, segs[|segs| - 1], ps[n])
    ensures Holds(ps, Layout(segs, Some(n)), n + 1, Packer(p.out, ps[n].body, ps[n].heading))
  {
    RunOfOne(ps, n);
  }

  lemma SmallStarts(ps: seq<Piece>, lay: Layout, n: nat, p: Packer)
    requires n < |ps| && HasBodies(ps) && Holds(ps, lay, n, p) && !Big(ps[n])
    requires lay.run.None? || ps[n].heading != p.heading || |p.body| + |ps[n].body| > TARGET_CHARS
    ensures Holds(ps, Layout(All(lay, n), Some(n)), n + 1, AddPiece(p, ps[n]))
  {
    FlushGivesAll(ps, lay, n, p);
    if lay.run.None? {
      NewRun(ps, lay.closed, n, p);
    } else {
      NewRun(ps, All(lay, n), n, Flush(p));
    }
  }

  ghost predicate Held(ps: seq<Piece>, n: nat, p: Packer) { exists lay :: Holds(ps, lay, n, p) }

  lemma SmallHeld(ps: seq<Piece>, lay: Layout, n: nat, p: Packer)
    requires n < |ps| && HasBodies(ps) && Holds(ps, lay, n, p) && !Big(ps[n])
    ensures Held(ps, n + 1, AddPiece(p, ps[n]))
  {
    if lay.run.Some? && ps[n].heading == p.heading && |p.body| + |ps[n].body| <= TARGET_CHARS {
      SmallJoins(ps, lay, n, p);
    } else {
      SmallStarts(ps, lay, n, p);
    }
  }

  lemma PieceHeld(ps: seq<Piece>, n: nat, p: Packer)
    requires n < |ps| && HasBodies(ps) && Held(ps, n, p)
    ensures Held(ps, n + 1, AddPiece(p, ps[n]))
  {
    var lay :| Holds(ps, lay, n, p);
    if Big(ps[n]) {
      BigStandsAlone(ps, lay, n, p);
    } else {
      SmallHeld(ps, lay, n, p);
    }
  }

  lemma AddAllFront(sections: seq<Section>, n: nat)
    requires n < |sections|
    ensures AddAll(sections[..n + 1]) == Add(AddAll(sections[..n]), sections[n])
  {
    assert sections[..n + 1][..n] == sections[..n];
  }

  /** What the packer holds after n sections. */
  ghost predicate PackedBy(sections: seq<Section>, n: nat, p: Packer)
    requires n <= |sections|
  {
    p == AddAll(sections[..n]) && Held(Pieces(sections), n, p)
  }

  lemma PackedOneMore(sections: seq<Section>, n: nat, p: Packer) returns (next: Packer)
    requires n < |sections| && HasBodies(Pieces(sections)) && PackedBy(sections, n, p)
    ensures PackedBy(sections, n + 1, next)
  {
    PieceHeld(Pieces(sections), n, p);
    AddIsPiece(p, sections[n]);
    AddAllFront(sections, n);
    next := Add(p, sections[n]);
  }

  lemma NothingPacked(sections: seq<Section>) returns (p: Packer)
    ensures PackedBy(sections, 0, p)
  {
    p := AddAll([]);
    assert Holds(Pieces(sections), Layout([], None), 0, p);
    assert sections[..0] == [];
  }

  lemma PackedTo(sections: seq<Section>) returns (p: Packer)
    requires HasBodies(Pieces(sections))
    ensures PackedBy(sections, |sections|, p)
  {
    p := NothingPacked(sections);
    for n := 0 to |sections|
      invariant PackedBy(sections, n, p)
    {
      p := PackedOneMore(sections, n, p);
    }
  }

  predicate SolidBody(s: Section) { Solid(Body(s)) }

  predicate AllSolid(sections: seq<Section>) {
    sections == [] || (SolidBody(sections[|sections| - 1]) && AllSolid(sections[..|sections| - 1]))
  }

  lemma {:induction false} EachSolid(sections: seq<Section>, i: nat)
    requires AllSolid(sections) && i < |sections|
    ensures SolidBody(sections[i])
  {
    if i < |sections| - 1 {
      EachSolid(sections[..|sections| - 1], i);
    }
  }

  lemma BodyIsSolid(s: Section)
    ensures Body(s) != "" ==> SolidBody(s)
  {
    StrippedIsSolid(Join(s.lines, "\n"));
  }

  lemma SolidOneMore(sections: seq<Section>, s: Section)
    requires AllSolid(sections) && SolidBody(s)
    ensures AllSolid(sections + [s])
  {
    assert (sections + [s])[..|sections|] == sections;
  }

  lemma ClosedSolid(st: Splitter)
    requires AllSolid(st.done)
    ensures AllSolid(Closed(st))
  {
    BodyIsSolid(st.current);
    if Body(st.current) != "" {
      SolidOneMore(st.done, st.current);
    }
  }

  lemma {:induction false} FeedAllSolid(lines: seq<string>)
    ensures AllSolid(FeedAll(lines).done)
  {
    if lines != [] {
      FeedAllSolid(lines[..|lines| - 1]);
      ClosedSolid(FeedAll(lines[..|lines| - 1]));
    }
  }

  lemma SectionsHaveBodies(text: string)
    ensures HasBodies(Pieces(SplitSections(text)))
  {
    FeedAllSolid(SplitLines(text));
    ClosedSolid(FeedAll(SplitLines(text)));
    var sections := SplitSections(text);
    forall i | 0 <= i < |sections|
      ensures Solid(Pieces(sections)[i].body)
    {
      EachSolid(sections, i);
    }
  }

  /**
   * The chunks of a document before the last one is folded: sections stay together exactly as long as the heading
   * stays the same and the text within the target, joined by blank lines; a section too long for a chunk stands alone.
   */
  lemma SectionsPackInSegments(text: string) returns (segs: seq<Segment>)
    ensures var ps := Pieces(SplitSections(text));
      Tiles(ps, segs, |ps|) && Unfolded(text) == AllDrafts(ps, segs, |ps|)
  {
    var sections := SplitSections(text);
    SectionsHaveBodies(text);
    var p := PackedTo(sections);
    TakeAll(sections);
    var lay :| Holds(Pieces(sections), lay, |sections|, p);
    FlushGivesAll(Pieces(sections), lay, |sections|, p);
    segs := All(lay, |sections|);
  }
}
