# A verified model of ragline

ragline ingests documents through Kafka workers, indexes their chunks in Postgres, retrieves by BM25 and
vectors, reranks with a model, answers with citations and caches answers in Redis. This project models the
parts of it that hold state, branch or do arithmetic, and proves what they promise. Each file states which
part of the repository it follows; a member with a loop or with fields it updates is a `method`, proved
equal to a specification function about which the lemmas speak.

The story in the order of a document's life:

- **Ingest** (`IngestProtocol`, `IngestSafety`, `IngestSettling`, `IngestExclusive`, `IngestBudget`,
  `IngestWorker`). A transition system of documents, chunk table, topic partitions with committed offsets,
  dead-letter topic and one phase per worker. Steps are single statements; workers interleave freely, jobs are
  redelivered while an earlier holder still runs, retries go to any partition, workers die anywhere. The class
  `Pipeline` runs the worker statement by statement and records each statement as a step of that system.
- **Chunking** (`Chunking`, `ChunkText`, `ChunkPacking`, `ChunkOverlap`, `ChunkConservation`, `ChunkShape`,
  `ChunkLimits`, `ChunkOutline`, `ChunkDocuments`). The imperative chunker is proved equal to recursive functions, and
  these to what they mean for the text: where lines and sentences are cut, which sections share a chunk, what a forced
  split repeats. They conserve text per heading, keep the size budget under an exact condition and follow the outline
  under another. `ChunkDocuments` holds the documents that do not.
- **Index and retrieval** (`Totals`, `Bm25Index`, `Bm25Score`, `Bm25Query`, `Ranking`, `Fusion`). The trigger-maintained
  tables against recomputation; the scoring query against BM25 over the chunks; reciprocal rank fusion.
- **Reranking** (`Json`, `ExtractJson`, `JsonRoundTrip`, `Rerank`), **citations** (`Citations`,
  `CitationStripping`), **answer cache** (`AnswerKeys`, `AnswerCache`, `AnswerStaleness`, `AnswerService`) and
  **rate limiting** (`TokenBucket`).

## Where the code and its documentation disagree

The model follows the code in each case.

- *Every chunk stays within MAX_CHARS* (`eval/test_chunking.py:40-43`) is not true of every document: a long
  sentence that meets a non-empty buffer is not hard-split, and the final fold adds up to MIN_CHARS + 1
  characters. `DocumentWithinBudget` says exactly when a document keeps the budget, `ChunkBound` gives the real
  bound; `LongSentenceEscapesBudget` and `FoldEscapesBudget` are families of documents on each way past it.
- *Pop to the parent level* (`workers/ingest/chunking.py:92`) cuts the stack by depth, not by level, so a skipped
  level files a heading under its sibling (`SkippedLevelMisfilesSibling`); `PathsAreAncestryIffPlaced` says, in
  heading levels alone, exactly which outlines come out right.
- A document can stay `chunking` for ever: a worker whose job was taken over and finished by another may
  mark the document and die (`ZombieLeavesChunking`). No document is lost in any run (`PublishedNeverLost`), and a
  document at rest is unsettled exactly when the last writer of its row died in that way (`QuietIsSettled`); if no
  job is handed to a second worker while the first still holds it, nobody does (`ExclusiveRunsSettle`).
- *A unique-ish value makes the lookup miss* (`internal/chat/chat.go:379-381`): the value names the second, so two
  requests within one second that both fail to read the fingerprint share a key and the later one may be served
  a stale answer (`UnknownMayBeStale`).
- Deleting an unknown marker can complete a new one when brackets nest (`NestedMarkerReappears`);
  `StrippedParse` says exactly when stripping leaves a clean answer.
- A cache hit renumbers citations from 1 (`internal/chat/chat.go:386-392`); it shows the original pairs exactly when
  the used markers were 1..k (`HitKeepsPairsIffDense`).

## Model

| member | source | states |
|---|---|---|
| IngestProtocol.StepStaysGood | workers/ingest/worker.py:107-239 | every step of every worker keeps states well formed: committed offsets within logs, attempts within 1..max_attempts, every stored generation exactly the chunks of its document, a ready document stored, every busy worker on a real job with the document's own content |
| IngestProtocol.StepGrows | workers/ingest/worker.py:156-231 | messages, dead letters, contents and chunk generations are never taken back, and offsets never go back |
| IngestSafety.StepKeepsNoLoss | workers/ingest/worker.py:107-231 | no step loses a published document, redeliveries, unnoticed commits and crashes included: what a committed job leaves behind is stored, dead-lettered or a job of a later attempt |
| IngestSafety.PublishedNeverLost | internal/api/server.go:120-129 | at every moment of every run a published document has its whole generation stored, or an uncommitted job, or a dead letter |
| IngestSafety.AttemptsBounded | workers/ingest/worker.py:216-229 | every message of a run has an attempt within 1..max_attempts |
| IngestSafety.ContentsStayDistinct | internal/store/store.go:97-115 | in every run no two documents hold the same content |
| IngestSettling.RunKeepsTold | workers/ingest/worker.py:154-231 | at every moment of every run the status of a published document is accounted for: ready, failed and dead-lettered, a job still to give its verdict, the last writer of the row still at it, or that writer orphaned and dead |
| IngestSettling.QuietIsSettled | workers/ingest/worker.py:107-231 | in every run, a published document with no job left and no worker on it is ready with exactly its chunks or failed with a dead letter if and only if it is not abandoned: the worker that wrote its row last was orphaned (another had carried its job past the verdict) and died before its own, and nobody else sent the dead letter if that was all that was missing |
| IngestSettling.BarrenDocumentsAreBuried | workers/ingest/worker.py:156-158 | in every run, a document that chunks to nothing comes to rest without chunks, failed and dead-lettered exactly when it is not abandoned |
| IngestExclusive.StepStaysExclusive | workers/ingest/worker.py:107-119 | if no job is delivered while a live worker holds it, every busy worker holds the due job of a partition of its own |
| IngestExclusive.NobodyAbandoned | workers/ingest/worker.py:107-119 | in such runs, crashes included, no document is ever abandoned |
| IngestExclusive.ExclusiveRunsSettle | workers/ingest/worker.py:92-119 | so once every message is committed all published documents are settled and all workers idle |
| IngestExclusive.RestIsFinal | workers/ingest/worker.py:112-119 | at rest no step but a publish changes a document |
| IngestExclusive.ZombieLeavesChunking | workers/ingest/worker.py:154-156 | for every document and limit, a run with one redelivery to a second worker that comes to rest with the document chunking |
| IngestExclusive.SettlesIffExclusive | workers/ingest/worker.py:107-239 | the theorem for exclusive delivery together with one failing run under free delivery; which single runs settle is QuietIsSettled |
| IngestBudget.StepSpends | workers/ingest/worker.py:201-231 | every delivery uses up one of the runs that uncommitted jobs and their holders are owed; only a publish, a crash or the delivery of a job another live worker holds (max_attempts each) and a malformed entry (1) add any |
| IngestBudget.RunsAreBounded | workers/ingest/worker.py:122-134 | over every run, jobs are delivered at most max_attempts times per publish, once per malformed entry and max_attempts times more per crash and per delivery of a job that is still held |
| IngestWorker.Pipeline.Upload | internal/api/server.go:107-129 | a document is created unless its content is known, and published unless the broker fails; nothing else changes |
| IngestWorker.ProseIsIngested | workers/ingest/worker.py:150-158 | content is not blank and has chunks exactly when some line that is not a heading holds a character other than white space |
| IngestWorker.Pipeline.Ingest | workers/ingest/worker.py:141-199 | succeeds exactly when the document is there, holds such prose and nothing outside fails; the chunk table is replaced exactly when the transaction took effect, and a failure changes the document's status at most |
| IngestWorker.Pipeline.NoteFailure | workers/ingest/worker.py:201-214 | the row after a failure: pending while attempts are left, failed after the last, attempts one more |
| IngestWorker.Pipeline.SendOn | workers/ingest/worker.py:216-231 | a job with the next attempt on one partition, or a dead letter; nothing else changes |
| IngestWorker.Pipeline.Fail | workers/ingest/worker.py:201-231 | the row and the topics after a failure: pending and a job with the next attempt, or failed and a dead letter |
| IngestWorker.Pipeline.Handle | workers/ingest/worker.py:122-139 | the document ends ready with exactly its chunks stored and nothing sent if and only if it is there, holds some prose and nothing outside fails; in every case tables and topics equal a closed form in which the passage through chunking leaves no trace |
| IngestWorker.Pipeline.RunAt | workers/ingest/worker.py:112-119 | one poll, handle and commit: the closed form with the offset advanced by one, and fewer runs owed |
| IngestWorker.Pipeline.Run | workers/ingest/worker.py:107-120 | the loop ends, handles at most as many jobs as runs were owed, and unless a signal stopped it leaves every published document settled |
| IngestWorker.FailForgetsStatus | workers/ingest/worker.py:205-214 | the failure update is the same whether or not the document had been marked chunking |
| Chunking.SplitSectionsLoop | workers/ingest/chunking.py:68-101 | the section loop computes the recursive specification of fences, headings and the title stack |
| Chunking.SplitOversizedLoop | workers/ingest/chunking.py:104-137 | the forced-split loop computes the specification, hard splits and overlap included |
| Chunking.ChunkDocumentLoop | workers/ingest/chunking.py:140-194 | packing, fold and renumbering compute the specification |
| Chunking.Renumber | workers/ingest/chunking.py:192-194 | whatever ordinals the chunks carry, they leave with dense ones in reading order, heading and content untouched |
| ChunkConservation.SectionsKeepProse | workers/ingest/chunking.py:68-101 | for any choice of headings, the sections under them hold exactly the ink of the non-heading lines filed under them, fences and outline read independently of the chunker |
| ChunkConservation.SplitKeepsInk | workers/ingest/chunking.py:104-137 | a forced split without its repeated characters is its section, non-space character by character |
| ChunkConservation.ChunkingConserves | workers/ingest/chunking.py:140-194 | for every document and any choice of headings, the chunks under them hold in order exactly the non-space characters of the non-heading lines under them |
| ChunkConservation.TextConserved | workers/ingest/chunking.py:140-194 | of any text, the chunks without repeats and the heading lines hold between them exactly its non-space characters, and without headings the chunks spell them in order |
| ChunkShape.OverlapIsRepetition | workers/ingest/chunking.py:120-127 | every character counted as repeated copies the end of the part before, fewer than OVERLAP_CHARS of them |
| ChunkOverlap.ResumeIsOverlap | workers/ingest/chunking.py:121-126 | a part is resumed with the longest suffix shorter than OVERLAP_CHARS that stands behind a blank |
| ChunkOverlap.OverlapUnique | workers/ingest/chunking.py:121-126 | that description fixes the words |
| ChunkOverlap.SplitChains | workers/ingest/chunking.py:112-137 | the parts of a forced split in full: each is a run of sentences joined by blanks, behind that suffix of the part before, whose first sentence did not fit there; only a sentence too long for any part is cut into pieces, and the part behind a piece starts anew |
| ChunkOverlap.EveryPartResumes | workers/ingest/chunking.py:120-127 | without such sentences every part but the first carries the overlap |
| ChunkPacking.SectionsPackInSegments | workers/ingest/chunking.py:153-177 | the chunks before the fold in full: consecutive sections stay together, blank lines between them, exactly as long as the heading stays the same and the text within TARGET_CHARS; a section beyond MAX_CHARS stands alone |
| ChunkText.LineBreaksAre | workers/ingest/chunking.py:80 | the line breaks of splitlines, by code point, all of them white space |
| ChunkText.SpacesDiffer | workers/ingest/chunking.py:31-33 | white space to Python is white space to Go (internal/llm/gemini.go:375) and the four separator characters |
| ChunkText.LinesAreCut | workers/ingest/chunking.py:80 | the lines and the breaks between them are the text, cut at every line break and nowhere else, a carriage return and its line feed being one break |
| ChunkText.FenceIs | workers/ingest/chunking.py:32 | a fence line is three back-ticks behind white space |
| ChunkText.HeadingIs | workers/ingest/chunking.py:31 | a heading line of level n is n hashes, one to six, and white space |
| ChunkText.SentencesAreCut | workers/ingest/chunking.py:33 | the sentences are the body cut at every white-space run between one of . ! ? and an upper-case letter or digit, and nowhere else |
| ChunkText.BodyIsVerbatim | workers/ingest/chunking.py:64-101 | where the line breaks are line feeds, every section body stands in the document word for word |
| ChunkShape.SplitBound | workers/ingest/chunking.py:112-137 | each forced-split part is at most max(MAX_CHARS, OVERLAP_CHARS + longest sentence) |
| ChunkShape.SplitWithinBudget | workers/ingest/chunking.py:116-133 | one forced split keeps MAX_CHARS exactly when no sentence overruns the buffer it meets |
| ChunkLimits.DocumentWithinBudget | workers/ingest/chunking.py:140-194 | every chunk of a document is within MAX_CHARS if and only if no sentence overruns in a section longer than MAX_CHARS and, if the last chunk is folded, the last two and a blank line fit together |
| ChunkLimits.BudgetBoundsSentences | workers/ingest/chunking.py:112-133 | then no section longer than MAX_CHARS has a sentence beyond MAX_CHARS behind one shorter than MAX_CHARS |
| ChunkDocuments.LongSentenceEscapesBudget | workers/ingest/chunking.py:116-127 | for every n from MAX_CHARS on, a document of two sentences one of whose two chunks has n + 1 characters |
| ChunkDocuments.FoldEscapesBudget | workers/ingest/chunking.py:179-190 | two sections x and y under one heading, both within the budget and y below MIN_CHARS, are one chunk of their two lengths and 2 characters more, whenever that is beyond MAX_CHARS |
| ChunkDocuments.FoldedDocument | workers/ingest/chunking.py:179-190 | sections of 3600 and 9 characters: one chunk of 3611 |
| ChunkShape.ChunkBound | workers/ingest/chunking.py:140-194 | the bound of every final chunk, plus MIN_CHARS + 1 exactly in the case of a fold |
| ChunkShape.ChunkBudget | workers/ingest/chunking.py:26-29 | sentences that leave room for the overlap keep every chunk within MAX_CHARS, or MAX_CHARS + MIN_CHARS + 1 after a fold |
| ChunkShape.NoChunksIffNoProse | workers/ingest/chunking.py:153-177 | a document has no chunks exactly when its non-heading lines are blank |
| ChunkOutline.PathsAreAncestryIffPlaced | workers/ingest/chunking.py:92-95 | the heading paths are the true ancestor chains if and only if each heading is deeper than the one before it or has an ancestor on every level above its own |
| ChunkOutline.UnskippedPathsAreAncestry | workers/ingest/chunking.py:92-95 | with no heading level skipped each path is the ancestor chain of the outline |
| ChunkOutline.SectionPathIsAncestry | workers/ingest/chunking.py:80-97 | the section open after any such lines is filed under the last heading and all its ancestors |
| ChunkOutline.PathWithinLevel | workers/ingest/chunking.py:93-94 | a path holds at most as many titles as the heading's level |
| ChunkDocuments.SkippedLevelMisfilesSibling | workers/ingest/chunking.py:92-94 | a document with headings of levels 1, 3, 3 and any titles: the section under the third is filed under the second too |
| Bm25Index.Tf | internal/store/schema.sql:166-177 | a lexeme counts once for every position and once more for every heading position, and once without positions |
| Bm25Index.InsertConsistent | internal/store/schema.sql:179-202 | the insert trigger keeps all four tables equal to recomputation |
| Bm25Index.DeleteConsistent | internal/store/schema.sql:204-223 | the delete trigger and the cascade keep them equal to recomputation, and neither clamp changes a value |
| Bm25Index.Tables.InsertTrigger | internal/store/schema.sql:179-202 | the tables after the trigger's statements |
| Bm25Index.Tables.Insert | internal/store/schema.sql:225-227 | an inserted row leaves the statistics consistent |
| Bm25Index.Tables.DeleteTrigger | internal/store/schema.sql:204-223 | the tables after the trigger's statements, unclamped |
| Bm25Index.Tables.Delete | internal/store/schema.sql:204-231 | a deleted row leaves the statistics consistent and takes exactly its length away |
| Bm25Index.Tables.DeleteDocument | workers/ingest/worker.py:170 | deleting a document's chunks row by row, in any order, leaves consistent statistics of the other chunks |
| Bm25Index.Tables.Reingest | workers/ingest/worker.py:168-188 | a re-ingest leaves consistent statistics of exactly the other documents' chunks and the new generation |
| Bm25Index.Tables.Backfill | internal/store/schema.sql:239-261 | changes nothing over populated statistics; over an empty chunk_terms it restores consistency exactly when no other table holds a stray row |
| Bm25Index.BackfillRestores | internal/store/schema.sql:241-257 | the backfilled tables equal recomputation if and only if there was no stray row |
| Bm25Index.ConsistentStatsAgree | internal/store/schema.sql:166-261 | however two sets of statistics of the same chunks came about, they agree up to zero-length rows |
| Bm25Index.Replay | internal/store/schema.sql:233-238 | running the insert trigger over all chunks in any order reaches consistent tables, so a backfill equals a replay |
| Bm25Query.IndexedIsNaive | internal/store/store.go:272-292 | the indexed query scores exactly the chunks holding a query term, with textbook BM25, a formula of its own, counted from the raw chunks |
| Bm25Query.ScalarsAgree | internal/store/store.go:272-276 | the clamps of N and the average length change nothing once a chunk has a term |
| Bm25Query.HitsAreNaive | internal/store/store.go:277-295 | keyword hits are the naive ranking, cut at the limit |
| Bm25Query.JoinKeepsAll | internal/store/store.go:308-309 | the joins with chunks and documents keep every row exactly when each row has its chunk and that chunk its document |
| Bm25Query.HybridIsNaive | internal/store/store.go:296-311 | over consistent statistics and kept foreign keys the hybrid query returns the fusion of the vector hits with the naive ranking: its joins drop no row |
| Bm25Query.FallbackRanksAlike | internal/store/store.go:362-397 | over consistent statistics the fallback, which joins before it orders and limits, and the keyword arm, which limits before it joins, return prefixes of one order |
| Bm25Query.ZeroRowsUnobservable | internal/store/schema.sql:190-191 | statistics that differ in zero-length rows answer every query alike |
| Bm25Score.ContributionIsTextbook | internal/store/store.go:281-285 | the expression of the query equals ln((N + 1) / (df + 0.5)) * 2.2 tf / (tf + 0.3 + 0.9 len / avgdl) |
| Bm25Score.IdfEquation | internal/store/store.go:282 | the argument of ln less 1, times df + 0.5, is N - df + 0.5 |
| Bm25Score.CommonerIdf | internal/store/store.go:282 | one more chunk that holds the term lowers that argument |
| Bm25Score.IdfAboveOne | internal/store/store.go:256-257 | with 1 <= df <= N every logarithm is taken above 1 |
| Bm25Score.OftenerScoresMore | internal/store/store.go:239-240 | a term scores strictly more the oftener it stands in a chunk, and always less than k1 + 1 times its logarithm |
| Bm25Score.LongerScoresLess | internal/store/store.go:240-241 | the same term scores strictly less in a longer chunk |
| Bm25Score.CommonerScoresLess | internal/store/store.go:252 | for a rising logarithm, a term held by more chunks scores strictly less |
| Bm25Query.RarerTermFirst | internal/store/store.go:272-295 | of two chunks of one length, the one with the rarer of two query terms stands before the one with the commoner among the hits |
| Bm25Query.SumWithout | internal/store/store.go:280-286 | the score is the sum over the matching terms, in whatever order |
| Bm25Query.ScoresPositive | internal/store/store.go:281-285 | every hit has a positive score for any ln positive above 1 |
| Ranking.RankingUnique | internal/store/store.go:310-311 | score descending then id determines one order |
| Ranking.RankedByScore | internal/store/store.go:310-311 | every row is ranked once, before each row of a lower score and each of the same score and a greater id |
| Ranking.LimitKeepsTop | internal/store/store.go:310-311 | LIMIT keeps exactly the top of that order |
| Fusion.FusedFormula | internal/store/store.go:298-302 | the nth row of a list gets 1 / (k + n), a row of both lists the sum |
| Fusion.OneListKeepsOrder | internal/store/store.go:298-302 | rows found by one retriever only keep its order |
| Fusion.AgreementExact | internal/store/store.go:208-214 | for all hit lists within the limits, rows found by both precede rows found by one exactly when the two last ranks together outweigh one first rank |
| Fusion.AgreementThreshold | internal/config/config.go:78-80 | limits up to k + 1 suffice (the defaults are 30, 30, 60) and k + 2 does not |
| Fusion.AgreedRowsAreKept | internal/store/store.go:303-311 | no row found by both retrievers is cut while a row found by one is kept |
| ExtractJson.ExtractJSON | internal/llm/gemini.go:373-414 | returns the shortest string-aware balanced span from the first opener of the unwrapped text, or nothing exactly when there is none |
| ExtractJson.ScanText | internal/llm/gemini.go:393-413 | the scan loop finds that span |
| ExtractJson.ExtractionUnique | internal/llm/gemini.go:384-413 | that description fixes the result |
| JsonRoundTrip.ValueNeutral | internal/llm/gemini.go:393-412 | whichever bracket is counted, a printed JSON value leaves the scan where it was |
| JsonRoundTrip.ContainerSpan | internal/llm/gemini.go:388-410 | the scan of a printed object or array closes at its last character and not before |
| JsonRoundTrip.PlainRoundTrip | internal/llm/gemini.go:384-413 | for every valid object or array, prose prefix without openers and suffix, extraction recovers the printed text |
| JsonRoundTrip.FencedRoundTrip | internal/llm/gemini.go:374-383 | the same inside the first code fence, whatever text without a fence precedes it and whatever follows |
| JsonRoundTrip.UnclosedRoundTrip | internal/llm/gemini.go:374-383 | a fence that is never closed hides nothing: the container behind it is recovered all the same |
| Rerank.FlattenScoreItems | internal/rerank/rerank.go:264-291 | of any JSON value, the items of the first shape it decodes to (null counts as zero or empty), or an error exactly when it fits none |
| Rerank.ParseScores | internal/rerank/rerank.go:226-261 | an error exactly when no item names a passage; otherwise each passage gets its last item's score, or 0 |
| Rerank.NestingIrrelevant | internal/rerank/rerank.go:270-277 | a list of lists of items and the flat list of the same items decode to the same items |
| Rerank.BareIsPositional | internal/rerank/rerank.go:279-289 | a bare list of numbers gives the nth passage its nth number and the rest 0 |
| Rerank.NullIsZero | internal/rerank/rerank.go:264-291 | null stands for an item or number of zeros, or for an empty list |
| Rerank.MisfitFails | internal/rerank/rerank.go:290 | a response that is no list, or holds one element of no fitting type, is an error |
| Rerank.SortStable | internal/rerank/rerank.go:168-172 | sorting the copy in place yields the stable descending order |
| Rerank.StableSortKeeps | internal/rerank/rerank.go:168-172 | that order is a descending permutation that keeps equal scores in fusion order |
| Rerank.StableOrderUnique | internal/rerank/rerank.go:168-172 | there is only one such order, so every stable sort returns it |
| Rerank.SortedIsBestFirst | internal/rerank/rerank.go:168-172 | every prefix of the sorted pool goes ahead of what it leaves out: a higher score, or the same and an earlier place |
| Rerank.Rerank | internal/rerank/rerank.go:120-189 | for every response: skipped or unusable, the first topN candidates as they were; otherwise the best topN of the first maxCandidates, scored and in descending order, each ahead of all that come later or are left out, ties in fusion order; and the count of moved candidates |
| Rerank.RerankReturnsDistinct | internal/rerank/rerank.go:66-71 | no candidate is returned twice |
| Rerank.NeverMovesOne | internal/rerank/rerank.go:174-182 | Reordered is never 1 |
| Rerank.ReorderedZeroIffDescending | internal/rerank/rerank.go:174-182 | Reordered is 0 exactly when the scores already descend in fusion order |
| Citations.TokensPartition | internal/chat/chat.go:461-463 | cutting an answer into markers and characters loses nothing |
| Citations.SpacesAre | internal/chat/chat.go:453-461 | white space to the expression is that of ASCII without the vertical tab |
| CitationStripping.MarkerIsExpression | internal/chat/chat.go:453-463 | the marker scan accepts exactly what the expression describes |
| CitationStripping.MarkersFromTheLeft | internal/chat/chat.go:461-463 | reading from the left, where the last token ended the next is a marker exactly when the expression matches there, and otherwise one character |
| Citations.ParseCitations | internal/chat/chat.go:467-493 | used is strictly sorted and holds exactly the marker numbers within 1..n, unknown the others |
| Citations.ParsedUnique | internal/chat/chat.go:467-493 | that description fixes both lists |
| Citations.StripUnknownMarkers | internal/chat/chat.go:498-517 | rewriting group by group computes the specification that keeps every character outside markers |
| Citations.KeepInOrder | internal/chat/chat.go:504-515 | the numbers kept in a marker are those at the kept positions |
| Citations.KeptAtIff | internal/chat/chat.go:504-515 | a position is kept exactly when its number is not unknown |
| CitationStripping.RewrittenSays | internal/chat/chat.go:504-515 | a rewritten marker says exactly the numbers kept, and goes exactly when all are unknown |
| CitationStripping.StrippedCites | internal/chat/chat.go:498-517 | the markers of a stripped answer: the known numbers it had and those of markers a deletion completes |
| CitationStripping.StrippedParse | internal/chat/chat.go:289-296 | the stripped answer parses to (used, none) exactly when every completed marker cites used numbers only |
| CitationStripping.StrippedIsClean | internal/chat/chat.go:289-296 | without nested brackets it always does |
| CitationStripping.NestedMarkerReappears | internal/chat/chat.go:495-517 | however [1[9]0] parses against fewer than 9 sources, stripping its unknown marker leaves [10], which does not parse clean |
| Citations.HitKeepsPairsIffDense | internal/chat/chat.go:386-392 | a cache hit shows the original marker and chunk pairs exactly when the used markers were 1..k |
| Citations.HydrateCitations | internal/chat/chat.go:386-392 | the nth stored chunk comes back under marker n |
| AnswerKeys.RenderInjective | internal/chat/chat.go:376-384 | different fingerprints are written differently |
| AnswerKeys.KeyInjective | internal/cache/cache.go:134-140 | two requests share a key if and only if their fingerprints are equal and their lower-cased questions, up to a trailing run of punctuation and space, hold the same characters in the same words |
| AnswerKeys.FormatIntRoundTrip | internal/chat/chat.go:381 | the text of a number reads back as the number |
| AnswerKeys.NormalizeKeepsInk | internal/cache/cache.go:147-153 | a normal form keeps every character of the lower-cased question but white space and the trailing run of punctuation and space, in the same words |
| AnswerKeys.WordsDecide | internal/cache/cache.go:147-153 | two questions share a normal form if and only if they read alike in that sense |
| AnswerKeys.TidyingHits | internal/cache/cache.go:142-153 | case, surrounding space and trailing punctuation never change the normal form |
| AnswerCache.ChunksStay | workers/ingest/worker.py:166-197 | a stored generation is there, unchanged, at every later point of a run |
| AnswerCache.EqualCountsSameCorpus | internal/store/store.go:151-164 | equal chunk counts at two points of a run mean the same documents with the same chunks |
| AnswerCache.HitsAreFresh | internal/chat/chat.go:179-196 | in every interleaving of requests with ingest, a hit serves an answer to a question that reads alike, given without history, and under a readable fingerprint searched for in a corpus holding everything the request observed |
| AnswerStaleness.UnknownMayBeStale | internal/chat/chat.go:378-382 | for any two documents and question, a run in which a request that cannot read the fingerprint is served an answer that misses a document it observed |
| AnswerStaleness.FreshIffReadable | internal/chat/chat.go:376-384 | ReadableIsFresh, every hit under a readable fingerprint in every run, together with one stale run under an unreadable one |
| AnswerService.Service.CorpusVersion | internal/chat/chat.go:376-384 | the fingerprint counts the chunks and ready documents of that moment, row by row |
| AnswerService.Service.GetAnswer | internal/chat/chat.go:185-196 | the lookup statement is the protocol's step |
| AnswerService.Service.PutAnswer | internal/chat/chat.go:314-321 | the put statement is the protocol's step; only cacheable answers are stored |
| AnswerService.Service.GenerateAndPut | internal/chat/chat.go:264-321 | a generated cacheable answer is stored under the key of the fingerprint read before the search |
| AnswerService.Service.Answer | internal/chat/chat.go:146-334 | a cached reply was given without history to a question that reads alike, case, spacing and trailing punctuation aside, and, if this call read the fingerprint, was searched for in a corpus holding everything stored when this call began; left alone, a call is served from the cache exactly when its key is there, it has no history and may use the cache; a miss returns what retrieval and generation gave, refusing only if nothing is found or stored, and a cacheable fresh answer is in the cache under its own question and the fingerprint read; empty and limited requests change nothing |
| TokenBucket.BucketStore.RunScript | internal/cache/cache.go:47-82 | the script's verdict and the key it writes, for any clock reading; the key is seen until its expiry and not after |
| TokenBucket.BucketStore.Allow | internal/cache/cache.go:87-110 | no limit and an unreachable Redis admit without touching a key; otherwise one token, and other clients' keys stay |
| TokenBucket.TokensInRange | internal/cache/cache.go:62-70 | tokens stay within [0, capacity] |
| TokenBucket.RateBound | internal/cache/cache.go:47-82 | any run of calls on any clock is granted at most the capacity plus rate times the sum of its forward clock steps |
| TokenBucket.MonotoneRateBound | internal/cache/cache.go:62-70 | on a monotone clock: the capacity plus rate times the elapsed time |
| TokenBucket.MinutesBound | internal/cache/cache.go:87-97 | over so many minutes at most the burst, or the per-minute budget if there is none, and the per-minute budget for each minute |
| TokenBucket.DropUnobservable | internal/cache/cache.go:73-75 | forgetting a bucket goes unnoticed whatever it held exactly when the idle time refills it whole |
| TokenBucket.ExpiryUnobservable | internal/cache/cache.go:73-75 | the expiry changes no verdict, token count or retry time over any calls on one monotone clock |
| TokenBucket.RetryAfterExact | internal/cache/cache.go:77-80 | after a denial a later call is admitted exactly from now + retry_after on |
| TokenBucket.PollingKeepsDeadline | internal/cache/cache.go:62-81 | any number of denied polls leaves that time unchanged and exact |
| TokenBucket.HeaderIsLongEnough | internal/api/server.go:357-361 | the Retry-After header waits longer than retry_after by at most a second, and a client that obeys it is admitted |

## Left out

- HTTP handlers, SSE, logging, configuration, Gemini, Kafka, Redis and Postgres clients: every outcome of a call is a step or a parameter, also the failures.
- Run: one worker that finds the queues as they are and ends at the first empty poll, where the original waits for the next message; many workers, their interleavings and crashes are the subject of the lemmas about runs.
- The producer's `send` and `flush` are taken to succeed unless the worker dies; the backoff before a retry is not timed.
- Kafka group membership: any worker may be handed any due message, and a commit is taken only for the due offset; otherwise the worker dies on the error. `PublishMalformed` stands for entries without a document id put there by others.
- SQL isolation: each statement, and the ingest transaction as a whole, is one atomic step that may abort, or commit and still raise.
- `internal/store/schema.sql` rows of `chunk_terms` are grouped by chunk; tsvector construction, stemming and its positions cap are not part of this model, a chunk comes with its terms and weights.
- Integer widths of counters and of `tf`: counts are unbounded.
- The value of ln, floating-point rounding and the cost of a NaN score: reals, with ln any function positive above 1 where that matters.
- The embedding model, the vector ranking (any list), HNSW, the `ts_rank` control arm and the prompt texts.
- Parsing text into JSON values and unwrapping the "scores" envelope: `Rerank` starts from the value, and extraction is modelled on text. A nested `Json` object is what it gives as an item, duplicate and unknown fields included.
- Strings are sequences of characters where Go scans bytes; every bracket, quote and back-tick is one byte, so the scans agree.
- `sort.SliceStable` and `sort.Ints` are modelled as insertion sorts; uniqueness of the order makes any other algorithm equal.
- SHA-256 collisions and truncation: a key is the hashed text itself. Redis eviction and expiry of answers are `Evict` steps; the time to live is not counted.
- Unicode tables: lower-casing and punctuation of a question are parameters of `AnswerKeys.Alphabet`; a lower-cased character is one character.
- Conversation storage, usage accounting, query logging, the embedding cache and `InvalidateAnswers` beyond single evictions.
- Rerank: takes a topN of at least 0, since `internal/chat/chat.go:162-165` replaces smaller ones, and candidates with distinct ids, since the fused query groups by id.
- HybridIsNaive: the vector hits are any list of stored chunks; how they were found is not modelled.
- SettlesIffExclusive: compares delivery policies, so its converse is one run; for single runs the exact condition is `QuietIsSettled`.
- FreshIffReadable: its converse is one run likewise; an unreadable fingerprint may also serve a fresh answer.
- HitsAreFresh: says nothing for a request that could not read the fingerprint; `UnknownMayBeStale` shows why.
- Chunker rates and bounds are in characters; `estimate_tokens` is only reported.
