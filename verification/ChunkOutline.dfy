/** Heading paths against the outline of the document. */
module ChunkOutline {
  import opened Text
  import opened Chunking
  import opened ChunkConservation
  import opened ChunkShape

  // ---------------------------------------------------------------- outline

  const DEEPEST := 7

  /** The nearest earlier headings of ever lower level, outermost first: what stands above `level` at `n`. */
  function Above(heads: seq<Head>, n: nat, level: nat): (chain: seq<nat>)
    requires n <= |heads|
    ensures forall k :: 0 <= k < |chain| ==> chain[k] < n
    ensures forall k :: 0 <= k < |chain| ==> heads[chain[k]].level < level
  {
    if n == 0 then []
    else if heads[n - 1].level < level then Above(heads, n - 1, heads[n - 1].level) + [n - 1]
    else Above(heads, n - 1, level)
  }

  /** Heading `i` below all its ancestors. */
  function Ancestry(heads: seq<Head>, i: nat): seq<nat>
    requires i < |heads|
  {
    Above(heads, i, heads[i].level) + [i]
  }

  function BelowLevel(heads: seq<Head>, stack: seq<nat>, level: nat): (kept: seq<nat>)
    requires forall k :: 0 <= k < |stack| ==> stack[k] < |heads|
    ensures kept <= stack
    ensures kept != [] ==> heads[kept[|kept| - 1]].level < level
    ensures |kept| < |stack| ==> heads[stack[|kept|]].level >= level
  {
    if stack == [] || heads[stack[|stack| - 1]].level < level then stack
    else BelowLevel(heads, stack[..|stack| - 1], level)
  }

  lemma PopsLast(heads: seq<Head>, chain: seq<nat>, i: nat, level: nat)
    requires i < |heads| && heads[i].level >= level && forall k :: 0 <= k < |chain| ==> chain[k] < |heads|
    ensures BelowLevel(heads, chain + [i], level) == BelowLevel(heads, chain, level)
  {
    assert (chain + [i])[..|chain|] == chain;
  }

  lemma NarrowsStays(heads: seq<Head>, chain: seq<nat>, i: nat, level: nat)
    requires i < |heads| && heads[i].level < level && forall k :: 0 <= k < |chain| ==> chain[k] < |heads|
    ensures BelowLevel(heads, chain + [i], level) == chain + [i]
  {
  }

  lemma {:induction false} AboveNarrows(heads: seq<Head>, n: nat, level: nat, wider: nat)
    requires n <= |heads| && level <= wider
    ensures Above(heads, n, level) == BelowLevel(heads, Above(heads, n, wider), level)
    decreases n
  {
    if n > 0 {
      var last := heads[n - 1].level;
      if last < level {
        NarrowsStays(heads, Above(heads, n - 1, last), n - 1, level);
      } else if last < wider {
        AboveNarrows(heads, n - 1, level, last);
        PopsLast(heads, Above(heads, n - 1, last), n - 1, level);
      } else {
        AboveNarrows(heads, n - 1, level, wider);
      }
    }
  }

  predicate Levels(heads: seq<Head>) {
    forall i :: 0 <= i < |heads| ==> 1 <= heads[i].level < DEEPEST
  }

  predicate Rising(heads: seq<Head>, stack: seq<nat>) {
    && (forall k :: 0 <= k < |stack| ==> stack[k] < |heads|)
    && (forall j, k :: 0 <= j < k < |stack| ==> heads[stack[j]].level < heads[stack[k]].level)
  }

  lemma RisesByOne(heads: seq<Head>, stack: seq<nat>, i: nat)
    requires i < |heads| && Rising(heads, stack)
    requires forall k :: 0 <= k < |stack| ==> heads[stack[k]].level < heads[i].level
    ensures Rising(heads, stack + [i])
  {
  }

  lemma {:induction false} AboveRises(heads: seq<Head>, n: nat, level: nat)
    requires n <= |heads| && Levels(heads)
    ensures Rising(heads, Above(heads, n, level))
    ensures level >= 1 ==> |Above(heads, n, level)| <= level - 1
  {
    if n > 0 {
      var last := heads[n - 1].level;
      if last < level {
        AboveRises(heads, n - 1, last);
        RisesByOne(heads, Above(heads, n - 1, last), n - 1);
      } else {
        AboveRises(heads, n - 1, level);
      }
    }
  }

  /** The heading is deeper than the one before it, or has an ancestor on every level above its own. */
  predicate WellPlaced(heads: seq<Head>, i: nat)
    requires i < |heads|
  {
    i == 0 || heads[i - 1].level < heads[i].level || |Above(heads, i, heads[i].level)| == heads[i].level - 1
  }

  predicate PathIsAncestry(heads: seq<Head>, i: nat)
    requires i < |heads|
  {
    Open(heads[..i + 1]) == Ancestry(heads, i)
  }

  predicate AncestralUpTo(heads: seq<Head>, n: nat)
    requires n <= |heads|
  {
    forall i :: 0 <= i < n ==> PathIsAncestry(heads, i)
  }

  predicate PlacedUpTo(heads: seq<Head>, n: nat)
    requires n <= |heads|
  {
    forall i :: 0 <= i < n ==> WellPlaced(heads, i)
  }

  lemma OpenStep(heads: seq<Head>, i: nat)
    requires i < |heads|
    ensures var stack, level := Open(heads[..i]), heads[i].level;
      Open(heads[..i + 1]) == (if 1 <= level <= |stack| then stack[..level - 1] else stack) + [i]
  {
    assert heads[..i + 1][..i] == heads[..i] && heads[..i + 1][i] == heads[i];
  }

  lemma SameFront(a: seq<nat>, b: seq<nat>, x: nat)
    ensures a + [x] == b + [x] <==> a == b
  {
    if a + [x] == b + [x] {
      assert a == (a + [x])[..|a|] && b == (b + [x])[..|b|] && |a| + 1 == |a + [x]| == |b + [x]|;
    }
  }

  /** The chain above the deepest level ends with the heading just read. */
  lemma ChainEnds(heads: seq<Head>, i: nat)
    requires i < |heads| && Levels(heads)
    ensures var chain := Above(heads, i, DEEPEST);
      if i == 0 then chain == [] else chain != [] && chain[|chain| - 1] == i - 1
  {
  }

  /** Cutting the open headings by depth agrees with cutting them by level exactly at a well placed heading. */
  lemma CutByDepthOrByLevel(heads: seq<Head>, i: nat)
    requires i < |heads| && Levels(heads)
    ensures var stack, kept, level := Above(heads, i, DEEPEST), Above(heads, i, heads[i].level), heads[i].level;
      kept <= stack && (WellPlaced(heads, i) <==> |kept| == if level <= |stack| then level - 1 else |stack|)
  {
    var level := heads[i].level;
    ChainEnds(heads, i);
    AboveNarrows(heads, i, level, DEEPEST);
    AboveRises(heads, i, level);
  }

  lemma PrefixLength(kept: seq<nat>, stack: seq<nat>, cut: nat)
    requires kept <= stack && cut <= |stack|
    ensures stack[..cut] == kept <==> |kept| == cut
  {
  }

  lemma PushKeepsAncestry(heads: seq<Head>, i: nat)
    requires i < |heads| && Levels(heads)
    requires Open(heads[..i]) == Above(heads, i, DEEPEST)
    ensures PathIsAncestry(heads, i) <==> WellPlaced(heads, i)
  {
    var stack, kept, level := Open(heads[..i]), Above(heads, i, heads[i].level), heads[i].level;
    var cut := if level <= |stack| then level - 1 else |stack|;
    CutByDepthOrByLevel(heads, i);
    OpenStep(heads, i);
    TakeAll(stack);
    PrefixLength(kept, stack, cut);
    SameFront(stack[..cut], kept, i);
  }

  lemma OpenIsAbove(heads: seq<Head>, i: nat)
    requires i < |heads| && Levels(heads) && PathIsAncestry(heads, i)
    ensures Open(heads[..i + 1]) == Above(heads, i + 1, DEEPEST)
  {
  }

  lemma NextPathIffPlaced(heads: seq<Head>, i: nat)
    requires i < |heads| && Levels(heads) && AncestralUpTo(heads, i)
    ensures PathIsAncestry(heads, i) <==> WellPlaced(heads, i)
  {
    if i > 0 {
      OpenIsAbove(heads, i - 1);
    } else {
      assert heads[..0] == [];
    }
    PushKeepsAncestry(heads, i);
  }

  lemma OneMorePath(heads: seq<Head>, n: nat)
    requires n < |heads|
    ensures AncestralUpTo(heads, n + 1) <==> AncestralUpTo(heads, n) && PathIsAncestry(heads, n)
    ensures PlacedUpTo(heads, n + 1) <==> PlacedUpTo(heads, n) && WellPlaced(heads, n)
  {
  }

  /**
   * All heading paths are the true ancestor chains exactly when each heading is deeper than the one before it or has
   * an ancestor on every level above its own.
   */
  lemma {:induction false} PathsAreAncestryIffPlaced(heads: seq<Head>, n: nat)
    requires n <= |heads| && Levels(heads)
    ensures AncestralUpTo(heads, n) <==> PlacedUpTo(heads, n)
  {
    if n > 0 {
      PathsAreAncestryIffPlaced(heads, n - 1);
      OneMorePath(heads, n - 1);
      if AncestralUpTo(heads, n - 1) {
        NextPathIffPlaced(heads, n - 1);
      }
    }
  }

  /** A path never holds more titles than the level of its heading. */
  lemma PathWithinLevel(heads: seq<Head>)
    requires heads != [] && Levels(heads)
    ensures |Open(heads)| <= heads[|heads| - 1].level
  {
  }

  /** The outline starts at level 1 and no heading is more than one level below the one before it. */
  predicate NoLevelSkipped(heads: seq<Head>) {
    && (heads != [] ==> heads[0].level <= 1)
    && forall i :: 0 < i < |heads| ==> heads[i].level <= heads[i - 1].level + 1
  }

  /** Where no level is skipped, every level above has its ancestor. */
  lemma {:induction false} UnskippedAbove(heads: seq<Head>, n: nat, level: nat)
    requires 0 < n <= |heads| && Levels(heads) && NoLevelSkipped(heads)
    requires 1 <= level <= heads[n - 1].level + 1
    ensures |Above(heads, n, level)| == level - 1
  {
    if n > 1 {
      var last := heads[n - 1].level;
      UnskippedAbove(heads, n - 1, if last < level then last else level);
    }
  }

  /** In a document that skips no level, each heading path is its ancestor chain. */
  lemma UnskippedPathsAreAncestry(heads: seq<Head>, i: nat)
    requires i < |heads| && Levels(heads) && NoLevelSkipped(heads)
    ensures PathIsAncestry(heads, i)
  {
    forall j | 0 <= j < |heads|
      ensures WellPlaced(heads, j)
    {
      if j > 0 && heads[j - 1].level >= heads[j].level {
        UnskippedAbove(heads, j, heads[j].level);
      }
    }
    PathsAreAncestryIffPlaced(heads, |heads|);
  }

  /** After any lines that skip no level, the open section is filed under the last heading and all its ancestors. */
  lemma SectionPathIsAncestry(lines: seq<string>)
    requires Heads(lines) != [] && NoLevelSkipped(Heads(lines))
    ensures FeedAll(lines).current.path == Titles(Heads(lines), Ancestry(Heads(lines), |Heads(lines)| - 1))
  {
    var heads := Heads(lines);
    FeedTracksFence(lines);
    FeedTracksOutline(lines);
    UnskippedPathsAreAncestry(heads, |heads| - 1);
    TakeAll(heads);
  }
}
