/** BM25 scoring (the keyword arm of internal/store/store.go) over the index, against BM25 over the chunks. */
module Bm25Query {
  import opened Totals
  import opened Bm25Index
  import opened Ranking
  import opened Bm25Score
  import Fusion

  function Greatest(a: int, b: int): int { if a >= b then a else b }

  /** SUM over the matching terms; the term set fixes the order of summation. */
  ghost function Sum(m: map<Term, real>): real
    decreases |m|
  {
    if m == map[] then 0.0 else
    var t := Pick(m);
    Shrinks(m, t);
    m[t] + Sum(m - {t})
  }

  // ---------------------------------------------------------------- over the index

  /** What keeps the scoring query from dividing by zero. */
  predicate Scorable(s: Stats) {
    && (forall t :: t in s.corpusTerms ==> s.corpusTerms[t] > 0)
    && (forall id :: id in s.chunkTerms ==> forall t :: t in s.chunkTerms[id] ==> s.chunkTerms[id][t] > 0)
  }

  function CorpusSize(s: Stats): int { Greatest(s.chunkCount, 1) }

  function AvgDl(s: Stats): (avg: real)
    ensures avg > 0.0
  {
    Greatest(s.totalLen, 1) as real / CorpusSize(s) as real
  }

  /** The joined rows of one chunk: query_terms, corpus_terms, chunk_terms and chunk_stats. */
  function IndexedTerms(s: Stats, query: set<Term>, id: int, ln: real -> real): map<Term, real>
    requires Scorable(s)
  {
    map t | t in query && t in s.corpusTerms && id in s.chunkTerms && t in s.chunkTerms[id] && id in s.chunkStats ::
      Contribution(ln, CorpusSize(s) as real, AvgDl(s), s.corpusTerms[t], s.chunkTerms[id][t], s.chunkStats[id])
  }

  ghost function IndexedScores(s: Stats, query: set<Term>, ln: real -> real): Scores
    requires Scorable(s)
  {
    map id | id in s.chunkTerms && IndexedTerms(s, query, id, ln) != map[] :: Sum(IndexedTerms(s, query, id, ln))
  }

  /** keyword_hits of the hybrid query, and with the caller's limit the rows of KeywordSearch. */
  ghost function KeywordHits(s: Stats, query: set<Term>, ln: real -> real, limit: nat): seq<int>
    requires Scorable(s)
  {
    Limit(Rank(IndexedScores(s, query, ln)), limit)
  }

  // ---------------------------------------------------------------- over the chunks

  ghost function NaiveAvgDl(chunks: Chunks): real
    requires chunks != map[]
  {
    Total(Lengths(chunks)) as real / |chunks| as real
  }

  lemma AvgDlPositive(chunks: Chunks, id: int)
    requires id in chunks && chunks[id].tsv != map[]
    ensures Total(Lengths(chunks)) > 0 && |chunks| > 0 && NaiveAvgDl(chunks) > 0.0
  {
    TermlessIffZero(chunks[id]);
    TotalWithout(Lengths(chunks), id);
    Shrinks(chunks, id);
    PositiveQuotient(Total(Lengths(chunks)) as real, |chunks| as real);
  }

  lemma HolderCount(chunks: Chunks, id: int, t: Term)
    requires id in chunks && t in chunks[id].tsv
    ensures 1 <= |Holders(chunks, t)| <= |chunks|
  {
    assert id in Holders(chunks, t);
    assert chunks.Keys == Holders(chunks, t) + (chunks.Keys - Holders(chunks, t));
  }

  /** The BM25 contribution of one term to one chunk, counted from the chunks alone. */
  ghost function NaiveTerm(chunks: Chunks, id: int, t: Term, ln: real -> real): real
    requires id in chunks && t in chunks[id].tsv
  {
    AvgDlPositive(chunks, id);
    QuotientNonNegative(Length(chunks[id]) as real, NaiveAvgDl(chunks));
    Textbook(ln, |chunks|, |Holders(chunks, t)|, Tf(chunks[id].tsv[t]),
      Length(chunks[id]) as real / NaiveAvgDl(chunks))
  }

  ghost function NaiveTerms(chunks: Chunks, query: set<Term>, id: int, ln: real -> real): map<Term, real>
    requires id in chunks
  {
    map t | t in query && t in chunks[id].tsv :: NaiveTerm(chunks, id, t, ln)
  }

  predicate Answers(c: Chunk, query: set<Term>) { exists t :: t in query && t in c.tsv }

  /** Exactly the chunks that hold a query term, each with its BM25 score. */
  ghost function NaiveScores(chunks: Chunks, query: set<Term>, ln: real -> real): Scores {
    map id | id in chunks && Answers(chunks[id], query) :: Sum(NaiveTerms(chunks, query, id, ln))
  }

  // ---------------------------------------------------------------- the two agree

  lemma ConsistentIsScorable(chunks: Chunks, s: Stats)
    requires Consistent(chunks, s)
    ensures Scorable(s)
  {
    forall id | id in s.chunkTerms
      ensures forall t :: t in s.chunkTerms[id] ==> s.chunkTerms[id][t] > 0
    {
      assert s.chunkTerms[id] == TermRows(chunks[id].tsv);
    }
  }

  /** No clamp of the query changes a value once some chunk has a term. */
  lemma ScalarsAgree(chunks: Chunks, s: Stats, id: int)
    requires Consistent(chunks, s) && id in chunks && chunks[id].tsv != map[]
    ensures CorpusSize(s) == |chunks| && AvgDl(s) == NaiveAvgDl(chunks)
  {
    AvgDlPositive(chunks, id);
  }

  lemma TermAgrees(chunks: Chunks, s: Stats, query: set<Term>, id: int, t: Term, ln: real -> real)
    requires Consistent(chunks, s) && Scorable(s)
    ensures var m := IndexedTerms(s, query, id, ln);
      && (t in m <==> t in query && id in chunks && t in chunks[id].tsv)
      && (t in m ==> m[t] == NaiveTerm(chunks, id, t, ln))
  {
    if id in chunks && t in chunks[id].tsv {
      ScalarsAgree(chunks, s, id);
      HolderCount(chunks, id, t);
      QuotientNonNegative(Length(chunks[id]) as real, NaiveAvgDl(chunks));
      ContributionIsTextbook(ln, |chunks|, NaiveAvgDl(chunks), |Holders(chunks, t)|,
        Tf(chunks[id].tsv[t]), Length(chunks[id]));
      assert s.chunkTerms[id] == TermRows(chunks[id].tsv);
      assert t in s.corpusTerms && s.corpusTerms[t] == |Holders(chunks, t)|;
    }
  }

  lemma TermsAgreeAll(chunks: Chunks, s: Stats, query: set<Term>, id: int, ln: real -> real)
    requires Consistent(chunks, s) && Scorable(s) && id in chunks
    ensures IndexedTerms(s, query, id, ln) == NaiveTerms(chunks, query, id, ln)
    ensures IndexedTerms(s, query, id, ln) != map[] <==> Answers(chunks[id], query)
  {
    var m, n := IndexedTerms(s, query, id, ln), NaiveTerms(chunks, query, id, ln);
    forall t
      ensures (t in m <==> t in n) && (t in m ==> m[t] == n[t])
    {
      TermAgrees(chunks, s, query, id, t, ln);
    }
    if m != map[] {
      assert Pick(m) in n;
    }
    if Answers(chunks[id], query) {
      var t :| t in query && t in chunks[id].tsv;
      assert t in n;
    }
  }

  lemma ScoreAgrees(chunks: Chunks, s: Stats, query: set<Term>, id: int, ln: real -> real)
    requires Consistent(chunks, s) && Scorable(s)
    ensures var m, n := IndexedScores(s, query, ln), NaiveScores(chunks, query, ln);
      (id in m <==> id in n) && (id in m ==> m[id] == n[id])
  {
    if id in chunks {
      TermsAgreeAll(chunks, s, query, id, ln);
      if Answers(chunks[id], query) {
        var t :| t in query && t in chunks[id].tsv;
        assert chunks[id].tsv != map[];
      }
    }
  }

  /** The indexed query scores exactly the chunks with a query term, with their BM25 scores over the chunks. */
  lemma IndexedIsNaive(chunks: Chunks, s: Stats, query: set<Term>, ln: real -> real)
    requires Consistent(chunks, s)
    ensures Scorable(s) && IndexedScores(s, query, ln) == NaiveScores(chunks, query, ln)
  {
    ConsistentIsScorable(chunks, s);
    var m, n := IndexedScores(s, query, ln), NaiveScores(chunks, query, ln);
    forall id
      ensures (id in m <==> id in n) && (id in m ==> m[id] == n[id])
    {
      ScoreAgrees(chunks, s, query, id, ln);
    }
    SameMaps(m, n);
  }

  /** So the hits are the naive ranking. */
  lemma HitsAreNaive(chunks: Chunks, s: Stats, query: set<Term>, ln: real -> real, limit: nat)
    requires Consistent(chunks, s)
    ensures Scorable(s)
    ensures KeywordHits(s, query, ln, limit) == Limit(Rank(NaiveScores(chunks, query, ln)), limit)
  {
    IndexedIsNaive(chunks, s, query, ln);
  }

  // ---------------------------------------------------------------- the joins

  /** Every chunk belongs to a document: chunks.document_id REFERENCES documents. */
  predicate References(chunks: Chunks, documents: set<int>) {
    forall id :: id in chunks ==> chunks[id].doc in documents
  }

  /** JOIN chunks ON id JOIN documents ON document_id. */
  function Joined(scores: Scores, chunks: Chunks, documents: set<int>): Scores {
    map id | id in scores && id in chunks && chunks[id].doc in documents :: scores[id]
  }

  lemma JoinKeepsAll(scores: Scores, chunks: Chunks, documents: set<int>)
    ensures Joined(scores, chunks, documents) == scores <==>
      forall id :: id in scores ==> id in chunks && chunks[id].doc in documents
  {
    var joined := Joined(scores, chunks, documents);
    if forall id :: id in scores ==> id in chunks && chunks[id].doc in documents {
      assert joined.Keys == scores.Keys;
    } else {
      var id :| id in scores && !(id in chunks && chunks[id].doc in documents);
      assert id !in joined;
    }
  }

  /** KeywordSearch: the scored rows are joined with their chunk and document before they are ordered and limited. */
  ghost function KeywordSearch(s: Stats, chunks: Chunks, documents: set<int>, query: set<Term>, ln: real -> real,
                               limit: nat): seq<int>
    requires Scorable(s)
  {
    Limit(Rank(Joined(IndexedScores(s, query, ln), chunks, documents)), limit)
  }

  /** HybridSearch: the keyword arm is limited on its own, and the fused rows are joined. */
  ghost function HybridSearch(s: Stats, chunks: Chunks, documents: set<int>, vector: seq<int>, query: set<Term>,
                              ln: real -> real, k: nat, keywordK: nat, limit: nat): seq<int>
    requires Scorable(s)
  {
    Limit(Rank(Joined(Fusion.Fused(vector, KeywordHits(s, query, ln, keywordK), k), chunks, documents)), limit)
  }

  lemma ScoredRowsJoin(chunks: Chunks, s: Stats, documents: set<int>, query: set<Term>, ln: real -> real)
    requires Consistent(chunks, s) && References(chunks, documents)
    ensures Scorable(s) && Joined(IndexedScores(s, query, ln), chunks, documents) == IndexedScores(s, query, ln)
  {
    IndexedIsNaive(chunks, s, query, ln);
    JoinKeepsAll(IndexedScores(s, query, ln), chunks, documents);
  }

  /**
   * The degraded mode ranks like the keyword arm, though one joins before it limits and the other after: over
   * consistent statistics one is a prefix of the other, whatever the limits.
   */
  lemma FallbackRanksAlike(chunks: Chunks, s: Stats, documents: set<int>, query: set<Term>, ln: real -> real,
                           fallback: nat, keywordK: nat)
    requires Consistent(chunks, s) && References(chunks, documents)
    ensures Scorable(s)
    ensures KeywordSearch(s, chunks, documents, query, ln, fallback) <= KeywordHits(s, query, ln, keywordK)
      || KeywordHits(s, query, ln, keywordK) <= KeywordSearch(s, chunks, documents, query, ln, fallback)
  {
    ScoredRowsJoin(chunks, s, documents, query, ln);
    var ranked := Rank(IndexedScores(s, query, ln));
    if fallback <= keywordK {
      LimitsAgree(ranked, fallback, keywordK);
    } else {
      LimitsAgree(ranked, keywordK, fallback);
    }
  }

  /** The hybrid query returns the fusion of the vector hits with the naive BM25 ranking: its joins drop no row. */
  lemma HybridIsNaive(chunks: Chunks, s: Stats, documents: set<int>, vector: seq<int>, query: set<Term>,
                      ln: real -> real, k: nat, keywordK: nat, limit: nat)
    requires Consistent(chunks, s) && References(chunks, documents) && forall id :: id in vector ==> id in chunks
    ensures Scorable(s)
    ensures HybridSearch(s, chunks, documents, vector, query, ln, k, keywordK, limit) ==
      Fusion.HybridRows(vector, Limit(Rank(NaiveScores(chunks, query, ln)), keywordK), k, limit)
  {
    HitsAreNaive(chunks, s, query, ln, keywordK);
    LimitKeepsRows(NaiveScores(chunks, query, ln), keywordK);
    JoinKeepsAll(Fusion.Fused(vector, KeywordHits(s, query, ln, keywordK), k), chunks, documents);
  }

  /** Statistics that differ only in zero-length rows answer every query alike: a backfill is not observable. */
  lemma ZeroRowsUnobservable(chunks: Chunks, s: Stats, t: Stats, query: set<Term>, ln: real -> real)
    requires Consistent(chunks, s) && Consistent(chunks, t)
    ensures Scorable(s) && Scorable(t) && IndexedScores(s, query, ln) == IndexedScores(t, query, ln)
  {
    IndexedIsNaive(chunks, s, query, ln);
    IndexedIsNaive(chunks, t, query, ln);
  }

  // ---------------------------------------------------------------- sums

  /** The sum does not depend on the order of its terms. */
  lemma {:induction false} SumWithout(m: map<Term, real>, t: Term)
    requires t in m
    ensures Sum(m) == m[t] + Sum(m - {t})
    decreases |m|
  {
    var p := Pick(m);
    if p != t {
      Shrinks(m, p);
      Shrinks(m, t);
      SumWithout(m - {p}, t);
      SumWithout(m - {t}, p);
      assert m - {p} - {t} == m - {t} - {p};
    }
  }

  lemma SumOfOne(t: Term, x: real)
    ensures Sum(map[t := x]) == x
  {
    var m := map[t := x];
    SumWithout(m, t);
    assert m - {t} == map[];
  }

  // ---------------------------------------------------------------- rare terms

  /** The only term of the query that the chunk holds. */
  predicate HoldsOnly(c: Chunk, query: set<Term>, t: Term) {
    t in query && t in c.tsv && forall u :: u in query && u in c.tsv ==> u == t
  }

  lemma ScoreOfOne(chunks: Chunks, query: set<Term>, id: int, t: Term, ln: real -> real)
    requires id in chunks && HoldsOnly(chunks[id], query, t)
    ensures id in NaiveScores(chunks, query, ln)
    ensures NaiveScores(chunks, query, ln)[id] == NaiveTerm(chunks, id, t, ln)
  {
    assert NaiveTerms(chunks, query, id, ln) == map[t := NaiveTerm(chunks, id, t, ln)];
    SumOfOne(t, NaiveTerm(chunks, id, t, ln));
  }

  /** Of two terms, weighed alike in chunks of one length, the rarer one scores more. */
  lemma RarerTermScoresMore(chunks: Chunks, a: int, t: Term, b: int, u: Term, ln: real -> real)
    requires a in chunks && t in chunks[a].tsv && b in chunks && u in chunks[b].tsv && RisingAboveOne(ln)
    requires Tf(chunks[a].tsv[t]) == Tf(chunks[b].tsv[u]) && Length(chunks[a]) == Length(chunks[b])
    requires |Holders(chunks, t)| < |Holders(chunks, u)|
    ensures NaiveTerm(chunks, a, t, ln) > NaiveTerm(chunks, b, u, ln)
  {
    AvgDlPositive(chunks, a);
    HolderCount(chunks, a, t);
    HolderCount(chunks, b, u);
    var n, avgdl, df, more := |chunks|, NaiveAvgDl(chunks), |Holders(chunks, t)|, |Holders(chunks, u)|;
    var tf, len := Tf(chunks[a].tsv[t]), Length(chunks[a]);
    QuotientNonNegative(len as real, avgdl);
    ContributionIsTextbook(ln, n, avgdl, df, tf, len);
    ContributionIsTextbook(ln, n, avgdl, more, tf, len);
    CommonerScoresLess(ln, n, avgdl, df, more, tf, len);
  }

  /** A chunk with the rarer of two query terms stands before one, of the same length, with the commoner. */
  lemma RarerTermFirst(chunks: Chunks, s: Stats, query: set<Term>, a: int, t: Term, b: int, u: Term, ln: real -> real,
                       limit: nat)
    requires Consistent(chunks, s) && RisingAboveOne(ln)
    requires a in chunks && HoldsOnly(chunks[a], query, t) && b in chunks && HoldsOnly(chunks[b], query, u)
    requires Tf(chunks[a].tsv[t]) == Tf(chunks[b].tsv[u]) && Length(chunks[a]) == Length(chunks[b])
    requires |Holders(chunks, t)| < |Holders(chunks, u)|
    ensures Scorable(s)
    ensures var hits := KeywordHits(s, query, ln, limit);
      b in hits ==> exists i, j :: 0 <= i < j < |hits| && hits[i] == a && hits[j] == b
  {
    HitsAreNaive(chunks, s, query, ln, limit);
    ScoreOfOne(chunks, query, a, t, ln);
    ScoreOfOne(chunks, query, b, u, ln);
    RarerTermScoresMore(chunks, a, t, b, u, ln);
    if b in KeywordHits(s, query, ln, limit) {
      EarlierIsKept(NaiveScores(chunks, query, ln), limit, a, b);
    }
  }

  // ---------------------------------------------------------------- positivity

  lemma NaiveTermPositive(chunks: Chunks, id: int, t: Term, ln: real -> real)
    requires id in chunks && t in chunks[id].tsv
    requires PositiveAboveOne(ln)
    ensures NaiveTerm(chunks, id, t, ln) > 0.0
  {
    AvgDlPositive(chunks, id);
    HolderCount(chunks, id, t);
    QuotientNonNegative(Length(chunks[id]) as real, NaiveAvgDl(chunks));
    TextbookPositive(ln, |chunks|, |Holders(chunks, t)|, Tf(chunks[id].tsv[t]),
      Length(chunks[id]) as real / NaiveAvgDl(chunks));
  }

  lemma {:induction false} SumPositive(m: map<Term, real>)
    requires forall t :: t in m ==> m[t] > 0.0
    ensures m != map[] ==> Sum(m) > 0.0
    decreases |m|
  {
    if m != map[] {
      var t := Pick(m);
      Shrinks(m, t);
      SumPositive(m - {t});
      assert m - {t} == map[] ==> Sum(m - {t}) == 0.0;
    }
  }

  /** Every hit has a positive score, even for a term in every chunk. */
  lemma ScoresPositive(chunks: Chunks, query: set<Term>, id: int, ln: real -> real)
    requires id in chunks && Answers(chunks[id], query)
    requires PositiveAboveOne(ln)
    ensures NaiveScores(chunks, query, ln)[id] > 0.0
  {
    var terms := NaiveTerms(chunks, query, id, ln);
    forall t | t in terms
      ensures terms[t] > 0.0
    {
      NaiveTermPositive(chunks, id, t, ln);
    }
    var t :| t in query && t in chunks[id].tsv;
    assert t in terms;
    SumPositive(terms);
  }
}
