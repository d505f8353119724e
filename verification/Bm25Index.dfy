/** The BM25 statistics of internal/store/schema.sql: four tables kept by trigger, and their backfill. */
module Bm25Index {
  import opened Totals

  type Term = string

  datatype Weight = A | B | C | D

  /** A tsvector: the weights of the positions of each lexeme; a stripped lexeme has none. */
  type Tsv = map<Term, seq<Weight>>

  datatype Chunk = Chunk(doc: int, tsv: Tsv)

  type Chunks = map<int, Chunk>

  /** chunk_terms: its rows (chunk_id, term, tf), grouped by chunk; no group is empty. */
  type TermTable = map<int, map<Term, nat>>

  datatype Stats = Stats(
    chunkTerms: TermTable,
    chunkStats: map<int, nat>,
    corpusTerms: map<Term, int>,
    chunkCount: int,
    totalLen: int)

  // ---------------------------------------------------------------- recomputation

  function WeightSum(weights: seq<Weight>): (sum: nat)
    ensures sum == |weights| + multiset(weights)[A]
  {
    if weights == [] then 0 else
    assert weights == weights[..|weights| - 1] + [weights[|weights| - 1]];
    WeightSum(weights[..|weights| - 1]) + (if weights[|weights| - 1] == A then 2 else 1)
  }

  /** A heading ('A') position counts twice; a lexeme without positions counts once. */
  function Tf(weights: seq<Weight>): (tf: nat)
    ensures tf > 0
    ensures tf == if weights == [] then 1 else |weights| + multiset(weights)[A]
  {
    if weights == [] then 1 else WeightSum(weights)
  }

  /** chunk_term_rows. */
  function TermRows(tsv: Tsv): map<Term, nat> { map t | t in tsv :: Tf(tsv[t]) }

  ghost function Length(c: Chunk): nat { Total(TermRows(c.tsv)) }

  ghost function Lengths(chunks: Chunks): map<int, nat> { map id | id in chunks :: Length(chunks[id]) }

  /** The chunks that hold a term. */
  function Holders(chunks: Chunks, t: Term): set<int> { set id | id in chunks && t in chunks[id].tsv }

  ghost predicate TermsAgree(chunks: Chunks, chunkTerms: TermTable) {
    && (forall id :: id in chunkTerms <==> id in chunks && chunks[id].tsv != map[])
    && (forall id :: id in chunkTerms ==> chunkTerms[id] == TermRows(chunks[id].tsv))
  }

  /** No row for a term no chunk holds: df has no zero rows. */
  ghost predicate DfAgrees(chunks: Chunks, corpusTerms: map<Term, int>) {
    forall t ::
      && (t in corpusTerms <==> |Holders(chunks, t)| > 0)
      && (t in corpusTerms ==> corpusTerms[t] == |Holders(chunks, t)|)
  }

  /** The lengths table agrees; a chunk without terms may be missing from it. */
  ghost predicate LengthsAgree(chunks: Chunks, chunkStats: map<int, nat>) {
    && (forall id :: id in chunkStats ==> id in chunks && chunkStats[id] == Length(chunks[id]))
    && (forall id :: id in chunks && chunks[id].tsv != map[] ==> id in chunkStats)
  }

  ghost predicate CountsAgree(chunks: Chunks, chunkCount: int, totalLen: int) {
    chunkCount == |chunks| && totalLen == Total(Lengths(chunks))
  }

  /** The statistics are what recomputing them from the chunks would give. */
  ghost predicate Consistent(chunks: Chunks, s: Stats) {
    && TermsAgree(chunks, s.chunkTerms)
    && LengthsAgree(chunks, s.chunkStats)
    && DfAgrees(chunks, s.corpusTerms)
    && CountsAgree(chunks, s.chunkCount, s.totalLen)
  }

  // ---------------------------------------------------------------- the trigger statements

  function RowsOf(chunkTerms: TermTable, id: int): map<Term, nat> {
    if id in chunkTerms then chunkTerms[id] else map[]
  }

  /** INSERT INTO chunk_terms ... ON CONFLICT DO UPDATE. */
  function PutRows(chunkTerms: TermTable, id: int, rows: map<Term, nat>): TermTable {
    if rows == map[] then chunkTerms else chunkTerms[id := RowsOf(chunkTerms, id) + rows]
  }

  function RaiseDf(corpusTerms: map<Term, int>, rows: map<Term, nat>): map<Term, int> {
    corpusTerms + map t | t in rows :: if t in corpusTerms then corpusTerms[t] + 1 else 1
  }

  function LowerDf(corpusTerms: map<Term, int>, rows: map<Term, nat>): map<Term, int> {
    map t | t in corpusTerms :: if t in rows then corpusTerms[t] - 1 else corpusTerms[t]
  }

  /** DELETE FROM corpus_terms WHERE df <= 0. */
  function PositiveDf(corpusTerms: map<Term, int>): map<Term, int> {
    map t | t in corpusTerms && corpusTerms[t] > 0 :: corpusTerms[t]
  }

  // ---------------------------------------------------------------- what one more or one less chunk changes

  lemma NoRowsIffTermless(tsv: Tsv)
    ensures TermRows(tsv) == map[] <==> tsv == map[]
  {
    assert TermRows(tsv).Keys == tsv.Keys;
  }

  lemma RowsPut(chunks: Chunks, chunkTerms: TermTable, id: int, c: Chunk)
    requires id !in chunks && TermsAgree(chunks, chunkTerms)
    ensures TermsAgree(chunks[id := c], PutRows(chunkTerms, id, TermRows(c.tsv)))
    ensures RowsOf(PutRows(chunkTerms, id, TermRows(c.tsv)), id) == TermRows(c.tsv)
  {
    NoRowsIffTermless(c.tsv);
    assert map[] + TermRows(c.tsv) == TermRows(c.tsv);
  }

  lemma RowsCascaded(chunks: Chunks, chunkTerms: TermTable, id: int, c: Chunk)
    requires id !in chunks && TermsAgree(chunks[id := c], chunkTerms)
    ensures TermsAgree(chunks, chunkTerms - {id})
  {
  }

  lemma HoldersWith(chunks: Chunks, id: int, c: Chunk, t: Term)
    requires id !in chunks
    ensures |Holders(chunks[id := c], t)| == |Holders(chunks, t)| + (if t in c.tsv then 1 else 0)
  {
    assert Holders(chunks[id := c], t) == Holders(chunks, t) + (if t in c.tsv then {id} else {});
  }

  lemma DfRaised(chunks: Chunks, corpusTerms: map<Term, int>, id: int, c: Chunk)
    requires id !in chunks && DfAgrees(chunks, corpusTerms)
    ensures DfAgrees(chunks[id := c], RaiseDf(corpusTerms, TermRows(c.tsv)))
  {
    var after := RaiseDf(corpusTerms, TermRows(c.tsv));
    forall t
      ensures t in after <==> |Holders(chunks[id := c], t)| > 0
      ensures t in after ==> after[t] == |Holders(chunks[id := c], t)|
    {
      HoldersWith(chunks, id, c, t);
      assert t in corpusTerms <==> |Holders(chunks, t)| > 0;
    }
  }

  lemma DfLowered(chunks: Chunks, corpusTerms: map<Term, int>, id: int, c: Chunk)
    requires id !in chunks && DfAgrees(chunks[id := c], corpusTerms)
    ensures DfAgrees(chunks, PositiveDf(LowerDf(corpusTerms, TermRows(c.tsv))))
  {
    var after := PositiveDf(LowerDf(corpusTerms, TermRows(c.tsv)));
    forall t
      ensures t in after <==> |Holders(chunks, t)| > 0
      ensures t in after ==> after[t] == |Holders(chunks, t)|
    {
      HoldersWith(chunks, id, c, t);
      assert t in corpusTerms <==> |Holders(chunks[id := c], t)| > 0;
    }
  }

  lemma LengthsWith(chunks: Chunks, id: int, c: Chunk)
    requires id !in chunks
    ensures Total(Lengths(chunks[id := c])) == Total(Lengths(chunks)) + Length(c)
    ensures |chunks[id := c]| == |chunks| + 1
  {
    TotalInsert(Lengths(chunks), id, Length(c));
    assert Lengths(chunks[id := c]) == Lengths(chunks)[id := Length(c)];
  }

  lemma {:induction false} LengthZero(rows: map<Term, nat>)
    requires forall t :: t in rows ==> rows[t] > 0
    ensures Total(rows) == 0 <==> rows == map[]
  {
    if rows != map[] {
      TotalWithout(rows, Pick(rows));
    }
  }

  lemma TermlessIffZero(c: Chunk)
    ensures Length(c) == 0 <==> c.tsv == map[]
  {
    LengthZero(TermRows(c.tsv));
    if c.tsv != map[] {
      assert Pick(c.tsv) in TermRows(c.tsv);
    }
  }

  lemma LengthPut(chunks: Chunks, chunkStats: map<int, nat>, id: int, c: Chunk)
    requires id !in chunks && LengthsAgree(chunks, chunkStats)
    ensures LengthsAgree(chunks[id := c], chunkStats[id := Length(c)])
  {
  }

  lemma LengthCascaded(chunks: Chunks, chunkStats: map<int, nat>, id: int, c: Chunk)
    requires id !in chunks && LengthsAgree(chunks[id := c], chunkStats)
    ensures LengthsAgree(chunks, chunkStats - {id})
    ensures Get(chunkStats, id) == Length(c)
  {
    TermlessIffZero(c);
    assert chunks[id := c][id] == c;
    forall x | x in chunks
      ensures chunks[id := c][x] == chunks[x]
    {
    }
  }

  ghost function Inserted(s: Stats, id: int, c: Chunk): Stats {
    Stats(PutRows(s.chunkTerms, id, TermRows(c.tsv)), s.chunkStats[id := Length(c)],
          RaiseDf(s.corpusTerms, TermRows(c.tsv)), s.chunkCount + 1, s.totalLen + Length(c))
  }

  /** One more chunk: every table, changed by its trigger statement, stays what recomputation gives. */
  lemma InsertConsistent(chunks: Chunks, s: Stats, id: int, c: Chunk)
    requires Consistent(chunks, s) && id !in chunks
    ensures Consistent(chunks[id := c], Inserted(s, id, c))
  {
    RowsPut(chunks, s.chunkTerms, id, c);
    LengthPut(chunks, s.chunkStats, id, c);
    DfRaised(chunks, s.corpusTerms, id, c);
    LengthsWith(chunks, id, c);
  }

  ghost function Deleted(s: Stats, id: int, c: Chunk): Stats {
    Stats(s.chunkTerms - {id}, s.chunkStats - {id},
          PositiveDf(LowerDf(s.corpusTerms, TermRows(c.tsv))), s.chunkCount - 1, s.totalLen - Length(c))
  }

  /** One chunk less; neither count can go below 0. */
  lemma DeleteConsistent(chunks: Chunks, s: Stats, id: int, c: Chunk)
    requires id !in chunks && Consistent(chunks[id := c], s)
    ensures Consistent(chunks, Deleted(s, id, c))
    ensures s.chunkCount - 1 >= 0 && s.totalLen - Length(c) >= 0
    ensures Get(s.chunkStats, id) == Length(c)
  {
    RowsCascaded(chunks, s.chunkTerms, id, c);
    LengthCascaded(chunks, s.chunkStats, id, c);
    DfLowered(chunks, s.corpusTerms, id, c);
    LengthsWith(chunks, id, c);
  }

  lemma TakeOut(chunks: Chunks, id: int)
    requires id in chunks
    ensures (chunks - {id})[id := chunks[id]] == chunks
  {
  }

  // ---------------------------------------------------------------- backfill

  function AllRows(chunks: Chunks): TermTable {
    map id | id in chunks && chunks[id].tsv != map[] :: TermRows(chunks[id].tsv)
  }

  function TermIds(chunkTerms: TermTable, t: Term): set<int> { set id | id in chunkTerms && t in chunkTerms[id] }

  /** SELECT term, COUNT(DISTINCT chunk_id) ... GROUP BY term. */
  function CountDf(chunkTerms: TermTable): map<Term, int> {
    map t | t in (set id, u | id in chunkTerms && u in chunkTerms[id] :: u) :: |TermIds(chunkTerms, t)|
  }

  lemma CountsHolders(chunks: Chunks, chunkTerms: TermTable, t: Term)
    requires TermsAgree(chunks, chunkTerms)
    ensures t in CountDf(chunkTerms) <==> |Holders(chunks, t)| > 0
    ensures t in CountDf(chunkTerms) ==> CountDf(chunkTerms)[t] == |Holders(chunks, t)|
  {
    forall id
      ensures id in TermIds(chunkTerms, t) <==> id in Holders(chunks, t)
    {
      if id in chunks && t in chunks[id].tsv {
        assert chunks[id].tsv != map[];
      }
    }
    assert TermIds(chunkTerms, t) == Holders(chunks, t);
    if t in CountDf(chunkTerms) {
      var id :| id in chunkTerms && t in chunkTerms[id];
      assert id in Holders(chunks, t);
    } else {
      assert forall id :: id in chunkTerms ==> t !in chunkTerms[id];
      assert TermIds(chunkTerms, t) == {};
    }
  }

  lemma CountDfAgrees(chunks: Chunks, chunkTerms: TermTable)
    requires TermsAgree(chunks, chunkTerms)
    ensures DfAgrees(chunks, CountDf(chunkTerms))
  {
    forall t
      ensures t in CountDf(chunkTerms) <==> |Holders(chunks, t)| > 0
      ensures t in CountDf(chunkTerms) ==> CountDf(chunkTerms)[t] == |Holders(chunks, t)|
    {
      CountsHolders(chunks, chunkTerms, t);
    }
  }

  ghost function Sums(chunkTerms: TermTable): map<int, nat> { map id | id in chunkTerms :: Total(chunkTerms[id]) }

  lemma SumsPinned(chunkTerms: TermTable, sums: map<int, nat>)
    requires sums.Keys == chunkTerms.Keys
    requires forall id :: id in sums ==> sums[id] == Total(chunkTerms[id])
    ensures sums == Sums(chunkTerms)
  {
    forall id | id in sums
      ensures sums[id] == Sums(chunkTerms)[id]
    {
    }
  }

  /** SELECT chunk_id, SUM(tf) FROM chunk_terms GROUP BY chunk_id. */
  method LengthSums(chunkTerms: TermTable) returns (sums: map<int, nat>)
    ensures sums == Sums(chunkTerms)
  {
    sums := map[];
    var ids := chunkTerms.Keys;
    while ids != {}
      invariant ids <= chunkTerms.Keys
      invariant sums.Keys == chunkTerms.Keys - ids
      invariant forall id :: id in sums ==> sums[id] == Total(chunkTerms[id])
      decreases ids
    {
      ghost var some := SomeOf(ids);
      var id :| id in ids;
      var sum := SumOf(chunkTerms[id]);
      sums := sums[id := sum];
      ids := ids - {id};
    }
    SumsPinned(chunkTerms, sums);
  }

  ghost predicate NoStrayTerms(chunks: Chunks, corpusTerms: map<Term, int>) {
    forall t :: t in corpusTerms ==> |Holders(chunks, t)| > 0
  }

  ghost predicate NoStrayLengths(chunks: Chunks, chunkStats: map<int, nat>) {
    forall id :: id in chunkStats ==> id in chunks && (chunks[id].tsv == map[] ==> chunkStats[id] == 0)
  }

  /** Every other row the tables hold is one the recomputation would hold, or a zero for a chunk without terms. */
  ghost predicate NoStrays(chunks: Chunks, chunkStats: map<int, nat>, corpusTerms: map<Term, int>) {
    NoStrayTerms(chunks, corpusTerms) && NoStrayLengths(chunks, chunkStats)
  }

  lemma BackfilledLengths(chunks: Chunks, chunkStats: map<int, nat>, sums: map<int, nat>)
    requires forall id :: id in sums <==> id in chunks && chunks[id].tsv != map[]
    requires forall id :: id in sums ==> sums[id] == Length(chunks[id])
    ensures LengthsAgree(chunks, chunkStats + sums) <==> NoStrayLengths(chunks, chunkStats)
    ensures LengthsAgree(chunks, chunkStats + sums) ==> Total(chunkStats + sums) == Total(Lengths(chunks))
  {
    var stats := chunkStats + sums;
    forall id | id in chunks
      ensures Length(chunks[id]) == 0 <==> chunks[id].tsv == map[]
    {
      TermlessIffZero(chunks[id]);
    }
    if LengthsAgree(chunks, stats) {
      forall id | id in chunkStats
        ensures id in chunks && (chunks[id].tsv == map[] ==> chunkStats[id] == 0)
      {
        assert id in stats;
      }
      forall id
        ensures Get(stats, id) == Get(Lengths(chunks), id)
      {
      }
      TotalIgnoresZeros(stats, Lengths(chunks));
    }
  }

  lemma BackfilledTerms(chunks: Chunks, chunkTerms: TermTable, corpusTerms: map<Term, int>)
    requires TermsAgree(chunks, chunkTerms)
    ensures DfAgrees(chunks, corpusTerms + CountDf(chunkTerms)) <==> NoStrayTerms(chunks, corpusTerms)
  {
    CountDfAgrees(chunks, chunkTerms);
    var after := corpusTerms + CountDf(chunkTerms);
    if DfAgrees(chunks, after) {
      forall t | t in corpusTerms
        ensures |Holders(chunks, t)| > 0
      {
        assert t in after;
      }
    }
  }

  /** Consistent statistics with an empty chunk_terms: no chunk has a term, and the backfill adds nothing. */
  lemma NothingToBackfill(chunks: Chunks, s: Stats)
    requires Consistent(chunks, s) && s.chunkTerms == map[]
    ensures AllRows(chunks) == map[] && Total(s.chunkStats) == s.totalLen
  {
    forall id | id in chunks
      ensures chunks[id].tsv == map[] && Length(chunks[id]) == 0
    {
      TermlessIffZero(chunks[id]);
    }
    forall id
      ensures Get(s.chunkStats, id) == Get(Lengths(chunks), id)
    {
    }
    TotalIgnoresZeros(s.chunkStats, Lengths(chunks));
  }

  ghost function Backfilled(chunks: Chunks, s: Stats): Stats {
    var lengths := s.chunkStats + Sums(AllRows(chunks));
    Stats(AllRows(chunks), lengths, s.corpusTerms + CountDf(AllRows(chunks)), |chunks|, Total(lengths))
  }

  lemma Assemble(chunks: Chunks, s: Stats, lengths: bool, terms: bool)
    requires TermsAgree(chunks, s.chunkTerms)
    requires LengthsAgree(chunks, s.chunkStats) <==> lengths
    requires DfAgrees(chunks, s.corpusTerms) <==> terms
    requires LengthsAgree(chunks, s.chunkStats) ==> CountsAgree(chunks, s.chunkCount, s.totalLen)
    ensures Consistent(chunks, s) <==> lengths && terms
  {
  }

  lemma BackfillRestores(chunks: Chunks, s: Stats)
    requires s.chunkTerms == map[]
    ensures Consistent(chunks, Backfilled(chunks, s)) <==> NoStrays(chunks, s.chunkStats, s.corpusTerms)
  {
    BackfilledLengths(chunks, s.chunkStats, Sums(AllRows(chunks)));
    BackfilledTerms(chunks, AllRows(chunks), s.corpusTerms);
    Assemble(chunks, Backfilled(chunks, s), NoStrayLengths(chunks, s.chunkStats), NoStrayTerms(chunks, s.corpusTerms));
  }

  lemma NothingAdded(s: Stats, rows: TermTable)
    requires rows == map[]
    ensures s.chunkStats + Sums(rows) == s.chunkStats && s.corpusTerms + CountDf(rows) == s.corpusTerms
  {
  }

  lemma BackfillIdempotent(chunks: Chunks, s: Stats)
    requires s.chunkTerms == map[] && Consistent(chunks, s)
    ensures Backfilled(chunks, s) == s
  {
    NothingToBackfill(chunks, s);
    NothingAdded(s, AllRows(chunks));
  }

  // ---------------------------------------------------------------- deleting and replacing a document

  function Without(chunks: Chunks, doc: int): Chunks { map id | id in chunks && chunks[id].doc != doc :: chunks[id] }

  /** The chunks while `ids` of the document's rows are still to go. */
  function Dropped(chunks: Chunks, doc: int, ids: set<int>): Chunks {
    map id | id in chunks && (chunks[id].doc != doc || id in ids) :: chunks[id]
  }

  lemma DropOne(chunks: Chunks, doc: int, ids: set<int>, id: int)
    requires id in ids && id in chunks && chunks[id].doc == doc
    ensures id in Dropped(chunks, doc, ids)
    ensures Dropped(chunks, doc, ids) - {id} == Dropped(chunks, doc, ids - {id})
  {
  }

  lemma DropAll(chunks: Chunks, doc: int)
    ensures Dropped(chunks, doc, {}) == Without(chunks, doc)
    ensures Dropped(chunks, doc, set id | id in chunks && chunks[id].doc == doc) == chunks
  {
  }

  /** `kept` and the first n rows of a new generation. */
  function WithRows(kept: Chunks, doc: int, ids: seq<int>, generation: seq<Tsv>, n: nat): (rows: Chunks)
    requires |ids| == |generation| && n <= |ids|
    ensures forall id :: id in rows <==> id in kept || id in ids[..n]
  {
    if n == 0 then kept else WithRows(kept, doc, ids, generation, n - 1)[ids[n - 1] := Chunk(doc, generation[n - 1])]
  }

  lemma NewRow(kept: Chunks, doc: int, ids: seq<int>, generation: seq<Tsv>, n: nat)
    requires |ids| == |generation| && n < |ids|
    requires forall i, j :: 0 <= i < j < |ids| ==> ids[i] != ids[j]
    requires ids[n] !in kept
    ensures ids[n] !in WithRows(kept, doc, ids, generation, n)
  {
    assert forall i :: 0 <= i < n ==> ids[..n][i] == ids[i];
  }

  // ---------------------------------------------------------------- the tables

  /** The chunks table and the statistics its triggers maintain. */
  class Tables {
    var chunks: Chunks
    var chunkTerms: TermTable
    var chunkStats: map<int, nat>
    var corpusTerms: map<Term, int>
    var chunkCount: int
    var totalLen: int

    function Snapshot(): Stats
      reads this
    {
      Stats(chunkTerms, chunkStats, corpusTerms, chunkCount, totalLen)
    }

    ghost predicate Valid()
      reads this
    {
      Consistent(chunks, Snapshot())
    }

    constructor ()
      ensures Valid() && chunks == map[]
    {
      chunks, chunkTerms, chunkStats, corpusTerms := map[], map[], map[], map[];
      chunkCount, totalLen := 0, 0;
      new;
      assert forall t :: Holders(chunks, t) == {};
    }

    /** chunks_bm25_insert, statement by statement. */
    method InsertTrigger(id: int, c: Chunk)
      requires RowsOf(PutRows(chunkTerms, id, TermRows(c.tsv)), id) == TermRows(c.tsv)
      modifies this
      ensures chunks == old(chunks)
      ensures Snapshot() == Inserted(old(Snapshot()), id, c)
    {
      var rows := TermRows(c.tsv);
      chunkTerms := PutRows(chunkTerms, id, rows);
      var total := SumOf(RowsOf(chunkTerms, id));
      chunkStats := chunkStats[id := total];
      corpusTerms := RaiseDf(corpusTerms, rows);
      chunkCount := chunkCount + 1;
      totalLen := totalLen + total;
    }

    /** INSERT INTO chunks, with its AFTER INSERT trigger. */
    method Insert(id: int, c: Chunk)
      requires Valid() && id !in chunks
      modifies this
      ensures Valid() && chunks == old(chunks)[id := c]
      ensures chunkStats == old(chunkStats)[id := Length(c)]
    {
      InsertConsistent(chunks, Snapshot(), id, c);
      RowsPut(chunks, chunkTerms, id, c);
      chunks := chunks[id := c];
      InsertTrigger(id, c);
    }

    /** chunks_bm25_delete, statement by statement. */
    method DeleteTrigger(id: int)
      requires id in chunks
      requires chunkCount - 1 >= 0 && totalLen - Get(chunkStats, id) >= 0
      modifies this
      ensures chunks == old(chunks) && chunkTerms == old(chunkTerms) && chunkStats == old(chunkStats)
      ensures corpusTerms == PositiveDf(LowerDf(old(corpusTerms), TermRows(chunks[id].tsv)))
      // The GREATEST(..., 0) clamps never bite.
      ensures chunkCount == old(chunkCount) - 1 && totalLen == old(totalLen) - Get(chunkStats, id)
    {
      var total := Get(chunkStats, id);
      corpusTerms := LowerDf(corpusTerms, TermRows(chunks[id].tsv));
      corpusTerms := PositiveDf(corpusTerms);
      chunkCount := if chunkCount - 1 >= 0 then chunkCount - 1 else 0;
      totalLen := if totalLen - total >= 0 then totalLen - total else 0;
    }

    /** The row goes, and its rows in chunk_terms and chunk_stats with it (ON DELETE CASCADE). */
    method Cascade(id: int)
      modifies this
      ensures chunks == old(chunks) - {id}
      ensures Snapshot() == old(Snapshot()).(chunkTerms := old(chunkTerms) - {id}, chunkStats := old(chunkStats) - {id})
    {
      chunkTerms := chunkTerms - {id};
      chunkStats := chunkStats - {id};
      chunks := chunks - {id};
    }

    /** DELETE FROM chunks for one row, with its BEFORE DELETE trigger and the cascade. */
    method Delete(id: int)
      requires Valid() && id in chunks
      modifies this
      ensures Valid() && chunks == old(chunks) - {id} && chunkStats == old(chunkStats) - {id}
      ensures chunkCount == old(chunkCount) - 1 && totalLen == old(totalLen) - Length(old(chunks)[id])
    {
      TakeOut(chunks, id);
      DeleteConsistent(chunks - {id}, Snapshot(), id, chunks[id]);
      ghost var after := Deleted(Snapshot(), id, chunks[id]);
      DeleteTrigger(id);
      Cascade(id);
      assert Snapshot() == after;
    }

    /** DELETE FROM chunks WHERE document_id = doc: one row at a time, in any order. Deleting the document cascades. */
    method DeleteDocument(doc: int)
      requires Valid()
      modifies this
      ensures Valid() && chunks == Without(old(chunks), doc)
    {
      var ids := set id | id in chunks && chunks[id].doc == doc;
      ghost var before := chunks;
      while ids != {}
        invariant Valid() && chunks == Dropped(before, doc, ids)
        invariant forall id :: id in ids ==> id in before && before[id].doc == doc
        decreases ids
      {
        ghost var some := SomeOf(ids);
        var id :| id in ids;
        DropOne(before, doc, ids, id);
        Delete(id);
        ids := ids - {id};
      }
      DropAll(before, doc);
    }

    /** The transaction of a re-ingest: the old generation goes, the new one comes, row by row. */
    method Reingest(doc: int, ids: seq<int>, generation: seq<Tsv>)
      requires Valid() && |ids| == |generation|
      requires forall i, j :: 0 <= i < j < |ids| ==> ids[i] != ids[j]
      requires forall i :: 0 <= i < |ids| ==> ids[i] !in chunks
      modifies this
      ensures Valid() && chunks == WithRows(Without(old(chunks), doc), doc, ids, generation, |ids|)
    {
      ghost var kept := Without(chunks, doc);
      DeleteDocument(doc);
      for i := 0 to |ids|
        invariant Valid() && chunks == WithRows(kept, doc, ids, generation, i)
      {
        NewRow(kept, doc, ids, generation, i);
        Insert(ids[i], Chunk(doc, generation[i]));
      }
    }

    /** The statements of the backfill block. */
    method Populate()
      requires chunkTerms == map[]
      modifies this
      ensures chunks == old(chunks) && Snapshot() == Backfilled(chunks, old(Snapshot()))
    {
      chunkTerms := AllRows(chunks);
      var sums := LengthSums(chunkTerms);
      chunkStats := chunkStats + sums;
      corpusTerms := corpusTerms + CountDf(chunkTerms);
      chunkCount := |chunks|;
      totalLen := SumOf(chunkStats);
    }

    /** The backfill block, run at every migration. */
    method Backfill()
      modifies this
      ensures chunks == old(chunks)
      // Populated statistics stay as they are.
      ensures old(Valid()) ==> Snapshot() == old(Snapshot())
      // Over an empty chunk_terms it restores consistency exactly when no other table holds a stray row.
      ensures chunks != map[] && old(chunkTerms) == map[] ==>
        (Valid() <==> NoStrays(chunks, old(chunkStats), old(corpusTerms)))
    {
      if chunks == map[] || chunkTerms != map[] {
        return;
      }
      BackfillRestores(chunks, Snapshot());
      if Valid() {
        BackfillIdempotent(chunks, Snapshot());
      }
      Populate();
    }
  }

  // ---------------------------------------------------------------- consistency pins the tables

  /** Equal but for rows of length 0. */
  ghost predicate SameButZeroRows(s: Stats, t: Stats) {
    && s.chunkTerms == t.chunkTerms && s.corpusTerms == t.corpusTerms
    && s.chunkCount == t.chunkCount && s.totalLen == t.totalLen
    && forall id :: Get(s.chunkStats, id) == Get(t.chunkStats, id)
  }

  lemma RowsPinned(chunks: Chunks, m: TermTable, n: TermTable)
    requires TermsAgree(chunks, m) && TermsAgree(chunks, n)
    ensures m == n
  {
    assert forall id :: id in m <==> id in n;
    forall id | id in m
      ensures m[id] == n[id]
    {
      assert m[id] == TermRows(chunks[id].tsv) && n[id] == TermRows(chunks[id].tsv);
    }
  }

  lemma DfPinned(chunks: Chunks, m: map<Term, int>, n: map<Term, int>)
    requires DfAgrees(chunks, m) && DfAgrees(chunks, n)
    ensures m == n
  {
    assert forall t :: t in m <==> t in n;
    assert m.Keys == n.Keys;
  }

  /**
   * Whatever inserts, deletes, re-ingests and backfills led to them, the statistics of one set of
   * chunks are the same, up to zero-length rows. In particular a backfill equals a replay.
   */
  lemma ConsistentStatsAgree(chunks: Chunks, s: Stats, t: Stats)
    requires Consistent(chunks, s) && Consistent(chunks, t)
    ensures SameButZeroRows(s, t)
  {
    RowsPinned(chunks, s.chunkTerms, t.chunkTerms);
    DfPinned(chunks, s.corpusTerms, t.corpusTerms);
    forall id
      ensures Get(s.chunkStats, id) == Get(t.chunkStats, id)
    {
      if id in chunks {
        TermlessIffZero(chunks[id]);
      }
    }
  }

  lemma PutBack(chunks: Chunks, ids: set<int>, id: int)
    requires id in ids && ids <= chunks.Keys
    ensures (chunks - ids)[id := chunks[id]] == chunks - (ids - {id}) && id !in chunks - ids
  {
  }

  lemma PutBackAll(chunks: Chunks)
    ensures chunks - {} == chunks && chunks - chunks.Keys == map[]
  {
  }

  /** Replays the insert trigger over a set of chunks, in any order, into empty tables. */
  method Replay(chunks: Chunks) returns (tables: Tables)
    ensures fresh(tables) && tables.Valid() && tables.chunks == chunks
  {
    tables := new Tables();
    PutBackAll(chunks);
    var ids := chunks.Keys;
    while ids != {}
      invariant fresh(tables) && tables.Valid() && ids <= chunks.Keys
      invariant tables.chunks == chunks - ids
      decreases ids
    {
      ghost var some := SomeOf(ids);
      var id :| id in ids;
      PutBack(chunks, ids, id);
      tables.Insert(id, chunks[id]);
      ids := ids - {id};
    }
    PutBackAll(chunks);
  }
}
