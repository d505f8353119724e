/**
 * The upload handler and a worker as they run: database rows and topic messages updated one statement after
 * the other. Every statement is recorded as a step of the protocol, so the results about runs apply.
 */
module IngestWorker {
  import opened Wrappers
  import opened Chunking
  import ChunkConservation
  import ChunkShape
  import Text
  import opened IngestProtocol
  import opened IngestSafety
  import opened IngestSettling
  import opened IngestExclusive
  import opened IngestBudget
  import opened Totals

  /** not (raw or "").strip() */
  predicate Blank(raw: string) { Strip(raw) == "" }

  /** Blank content is content without a single character that is not white space. */
  lemma BlankIffInkless(raw: string)
    ensures Blank(raw) <==> NonSpace(raw) == ""
  {
    Text.InkOfTrimmed(raw, IsSpace);
  }

  /** The non-space characters of the lines that are not headings. */
  function ProseInk(raw: string): string {
    NonSpace(Text.Concat(ChunkConservation.ProseUnder(SplitLines(raw), ChunkConservation.AnyHeading)))
  }

  /** A document can be ingested exactly when it holds some prose: blank content has none, and prose has chunks. */
  lemma ProseIsIngested(raw: string)
    ensures !Blank(raw) && ChunkDocument(raw) != [] <==> ProseInk(raw) != ""
  {
    BlankIffInkless(raw);
    ChunkShape.NoChunksIffNoProse(raw);
    ChunkConservation.TextConserved(raw);
    ChunkConservation.ChunkingConserves(raw, ChunkConservation.AnyHeading);
    if NonSpace(raw) == "" {
      assert |multiset(ProseInk(raw))| == |ProseInk(raw)|;
    }
  }

  /** What the outside answers while one job is handled; the producer picks the partition of a retry. */
  datatype Luck = Luck(readable: bool, markable: bool, embedded: bool, outcome: Outcome, partition: nat)

  // ---------------------------------------------------------------- what handling a job comes to

  /** The statements before the transaction all succeed. */
  predicate Prepared(env: Env, s: State, d: DocId, luck: Luck) {
    luck.readable && d in s.docs && !env.blank(s.docs[d].raw) && luck.markable
    && env.chunk(s.docs[d].raw) != [] && luck.embedded
  }

  predicate Succeeds(env: Env, s: State, d: DocId, luck: Luck) {
    Prepared(env, s, d, luck) && luck.outcome == Committed
  }

  predicate Writes(env: Env, s: State, d: DocId, luck: Luck) { Prepared(env, s, d, luck) && luck.outcome != Aborted }

  function AfterIngest(env: Env, s: State, d: DocId, luck: Luck): State {
    if Writes(env, s, d, luck) then Replaced(s, d, env.chunk(s.docs[d].raw)) else s
  }

  function AfterSend(env: Env, s: State, job: Job, luck: Luck): State
    requires |s.parts| > 0
  {
    if job.attempt < env.maxAttempts then Append(s, luck.partition % |s.parts|, job.(attempt := job.attempt + 1))
    else s.(dlq := s.dlq + [job])
  }

  function AfterFail(env: Env, s: State, job: Job, luck: Luck): State
    requires |s.parts| > 0
  {
    AfterSend(env, FailedDoc(env, s, job), job, luck)
  }

  /** The whole effect of handling a job on the tables and the topics: the passage through chunking leaves no trace. */
  function AfterHandle(env: Env, s: State, job: Job, luck: Luck): State
    requires |s.parts| > 0
  {
    match job.doc
    case None => s
    case Some(d) =>
      var t := AfterIngest(env, s, d, luck);
      if Succeeds(env, s, d, luck) then t else AfterFail(env, t, job, luck)
  }

  /** Nothing outside fails. */
  predicate AllWell(luck: Luck) { luck.readable && luck.markable && luck.embedded && luck.outcome == Committed }

  /** The environment of the pipeline: the chunker and the blank test of the worker. */
  ghost predicate IsPipelines(env: Env) { env.chunk == ChunkDocument && env.blank == Blank }

  /** The document is ready, and exactly its chunks are stored. */
  predicate Finished(docs: map<DocId, Document>, chunks: map<DocId, seq<Chunk>>, d: DocId) {
    d in docs && docs[d].status == StatusReady && d in chunks && chunks[d] == ChunkDocument(docs[d].raw)
  }

  lemma SucceedsIff(env: Env, s: State, d: DocId, luck: Luck)
    requires IsPipelines(env)
    ensures Succeeds(env, s, d, luck) <==> d in s.docs && ProseInk(s.docs[d].raw) != "" && AllWell(luck)
  {
    if d in s.docs {
      ProseIsIngested(s.docs[d].raw);
    }
  }

  lemma FailureSends(env: Env, s: State, job: Job, luck: Luck)
    requires |s.parts| > 0
    ensures var t := AfterFail(env, s, job, luck); |t.dlq| > |s.dlq| || t.parts != s.parts
  {
    var p := luck.partition % |s.parts|;
    assert |AfterFail(env, s, job, luck).parts[p].log| > |s.parts[p].log| || job.attempt >= env.maxAttempts;
  }

  lemma FinishedIsReady(env: Env, s: State, d: DocId, job: Job, luck: Luck)
    requires |s.parts| > 0 && IsPipelines(env) && job.doc == Some(d) && Succeeds(env, s, d, luck)
    ensures var t := AfterHandle(env, s, job, luck);
      Finished(t.docs, t.chunks, d) && t.parts == s.parts && t.dlq == s.dlq
  {
  }

  /** The job ends well exactly when the document is there, holds some prose, and nothing outside fails. */
  lemma HandleSucceedsIff(env: Env, s: State, d: DocId, job: Job, luck: Luck)
    requires |s.parts| > 0 && IsPipelines(env) && job.doc == Some(d)
    ensures var t := AfterHandle(env, s, job, luck);
      (Finished(t.docs, t.chunks, d) && t.parts == s.parts && t.dlq == s.dlq)
      <==> d in s.docs && ProseInk(s.docs[d].raw) != "" && AllWell(luck)
  {
    SucceedsIff(env, s, d, luck);
    if Succeeds(env, s, d, luck) {
      FinishedIsReady(env, s, d, job, luck);
    } else {
      FailureSends(env, AfterIngest(env, s, d, luck), job, luck);
    }
  }

  // ---------------------------------------------------------------- the record

  ghost predicate IsHistory(env: Env, states: seq<State>, steps: seq<Step>) {
    IsRun(env, states, steps) && AllSole(states, steps)
  }

  lemma HistoryGoesOn(env: Env, states: seq<State>, steps: seq<Step>, step: Step)
    requires IsHistory(env, states, steps) && Enabled(states[|steps|], step) && Sole(states[|steps|], step)
    ensures IsHistory(env, states + [Next(env, states[|steps|], step)], steps + [step])
  {
    RunGoesOn(env, states, steps, step);
  }

  ghost predicate Fine(env: Env, s: State) { Good(env, s) && Exclusive(s) }

  lemma StepStaysFine(env: Env, s: State, step: Step)
    requires Fine(env, s) && Enabled(s, step) && Sole(s, step)
    ensures Fine(env, Next(env, s, step))
  {
    StepStaysGood(env, s, step);
    StepStaysExclusive(env, s, step);
  }

  /** Everything but the workers. */
  predicate SameTables(s: State, t: State) {
    s.docs == t.docs && s.chunks == t.chunks && s.parts == t.parts && s.dlq == t.dlq && s.published == t.published
  }

  predicate SameButStatus(a: map<DocId, Document>, b: map<DocId, Document>, d: DocId) {
    a.Keys == b.Keys && forall e :: e in a ==> a[e].(status := b[e].status) == b[e] && (e != d ==> a[e] == b[e])
  }

  /** fail writes the status anew, so it forgets whether the document was marked chunking. */
  lemma FailForgetsStatus(env: Env, s: State, t: State, job: Job)
    requires job.doc.Some? && SameButStatus(s.docs, t.docs, job.doc.value)
    ensures FailedDoc(env, s, job).docs == FailedDoc(env, t, job).docs
  {
    var a, b, d := FailedDoc(env, s, job).docs, FailedDoc(env, t, job).docs, job.doc.value;
    forall e
      ensures (e in a <==> e in b) && (e in a ==> a[e] == b[e])
    {
      assert e in s.docs <==> e in t.docs;
      if e in s.docs {
        assert s.docs[e].(status := t.docs[e].status) == t.docs[e];
      }
    }
    SameMaps(a, b);
  }

  lemma FailIgnoresWorkers(env: Env, s: State, t: State, job: Job, luck: Luck)
    requires |s.parts| > 0 && SameTables(s, t)
    ensures SameTables(AfterFail(env, t, job, luck), AfterFail(env, s, job, luck))
  {
  }

  lemma HandleIgnoresWorkers(env: Env, s: State, t: State, job: Job, luck: Luck)
    requires |s.parts| > 0 && SameTables(s, t)
    ensures SameTables(AfterHandle(env, t, job, luck), AfterHandle(env, s, job, luck))
  {
    if job.doc.Some? {
      FailIgnoresWorkers(env, AfterIngest(env, s, job.doc.value, luck),
        AfterIngest(env, t, job.doc.value, luck), job, luck);
    }
  }

  /** What ingest leaves behind; if it fails, the status of the document is whatever the statements before made it. */
  ghost predicate Ingested(env: Env, s: State, t: State, w: WorkerId, d: DocId, luck: Luck, ok: bool) {
    var ph, u := PhaseOf(s, w), AfterIngest(env, s, d, luck);
    && ph != Idle && ok == Succeeds(env, s, d, luck)
    && PhaseOf(t, w) == (if ok then Handled(ph.at, ph.job) else Failing(ph.at, ph.job))
    && t.chunks == u.chunks && SameButStatus(t.docs, u.docs, d) && (ok ==> t.docs == u.docs)
    && t.parts == s.parts && t.dlq == s.dlq && t.published == s.published
  }

  lemma HandleEnds(env: Env, s: State, t: State, w: WorkerId, job: Job, luck: Luck)
    requires |s.parts| > 0 && job.doc.Some? && PhaseOf(s, w) != Idle
    requires Ingested(env, s, t, w, job.doc.value, luck, false)
    ensures SameTables(AfterFail(env, t, job, luck), AfterHandle(env, s, job, luck))
  {
    FailForgetsStatus(env, t, AfterIngest(env, s, job.doc.value, luck), job);
  }

  /** The others do nothing. */
  ghost predicate OnlyBusy(s: State, w: WorkerId) { forall v :: v != w ==> PhaseOf(s, v) == Idle }

  /** A step of the upload handler, or of this worker. */
  predicate StepOf(step: Step, w: WorkerId) { step.Create? || step.Publish? || step.PublishMalformed? || step.w == w }

  lemma StaysOnlyBusy(env: Env, s: State, step: Step, w: WorkerId)
    requires Enabled(s, step) && OnlyBusy(s, w) && StepOf(step, w)
    ensures OnlyBusy(Next(env, s, step), w)
  {
    forall v | v != w
      ensures PhaseOf(Next(env, s, step), v) == Idle
    {
      assert PhaseOf(s, v) == Idle;
    }
  }

  /** What a step of a lone worker keeps. */
  lemma StepTaken(env: Env, states: seq<State>, steps: seq<Step>, step: Step, w: WorkerId)
    requires IsHistory(env, states, steps) && Fine(env, states[|steps|])
    requires Enabled(states[|steps|], step) && Sole(states[|steps|], step)
    requires OnlyBusy(states[|steps|], w) && StepOf(step, w)
    ensures var next := Next(env, states[|steps|], step);
      IsHistory(env, states + [next], steps + [step]) && Fine(env, next) && OnlyBusy(next, w)
    ensures TotalBacklog(env, Next(env, states[|steps|], step)) + (if step.Deliver? then 1 else 0)
              <= TotalBacklog(env, states[|steps|]) + Allowance(env, states[|steps|], step)
  {
    var s := states[|steps|];
    StepStaysFine(env, s, step);
    StepSpends(env, s, step);
    HistoryGoesOn(env, states, steps, step);
    StaysOnlyBusy(env, s, step, w);
  }

  // ---------------------------------------------------------------- the ways out of ingest

  predicate Readable(env: Env, s: State, d: DocId) { d in s.docs && !env.blank(s.docs[d].raw) }

  ghost predicate Delivers(s: State, w: WorkerId, d: DocId) {
    PhaseOf(s, w).Delivered? && PhaseOf(s, w).job.doc == Some(d)
  }

  function Marked(env: Env, s: State, w: WorkerId, d: DocId): State
    requires Delivers(s, w, d) && Readable(env, s, d)
  {
    var ph := PhaseOf(s, w);
    At(WithStatus(s, d, StatusChunking), w, Splitting(ph.at, ph.job, s.docs[d].raw))
  }

  lemma ReadFails(env: Env, s: State, w: WorkerId, d: DocId, luck: Luck)
    requires Delivers(s, w, d) && (!luck.readable || !Readable(env, s, d))
    ensures Ingested(env, s, LoadStep(env, s, w, luck.readable), w, d, luck, false)
  {
  }

  lemma MarkFails(env: Env, s: State, t: State, w: WorkerId, d: DocId, luck: Luck)
    requires Delivers(s, w, d) && luck.readable && Readable(env, s, d) && !luck.markable
    requires t == LoadStep(env, s, w, true)
    ensures Ingested(env, s, Next(env, t, SetStatus(w, false)), w, d, luck, false)
  {
  }

  lemma MarkWorks(env: Env, s: State, t: State, w: WorkerId, d: DocId)
    requires Delivers(s, w, d) && Readable(env, s, d) && t == LoadStep(env, s, w, true)
    ensures SameTables(Next(env, t, SetStatus(w, true)), Marked(env, s, w, d))
    ensures PhaseOf(Next(env, t, SetStatus(w, true)), w) == PhaseOf(Marked(env, s, w, d), w)
  {
  }

  lemma ChunkFails(env: Env, s: State, t: State, w: WorkerId, d: DocId, luck: Luck)
    requires Delivers(s, w, d) && luck.readable && Readable(env, s, d) && luck.markable
    requires SameTables(t, Marked(env, s, w, d)) && PhaseOf(t, w) == PhaseOf(Marked(env, s, w, d), w)
    requires env.chunk(s.docs[d].raw) == [] || !luck.embedded
    ensures Ingested(env, s, SplitStep(env, t, w, luck.embedded), w, d, luck, false)
  {
  }

  lemma ReplaceEnds(env: Env, s: State, t: State, w: WorkerId, d: DocId, luck: Luck)
    requires Delivers(s, w, d) && Prepared(env, s, d, luck)
    requires SameTables(t, Marked(env, s, w, d))
    requires PhaseOf(t, w) == Writing(PhaseOf(s, w).at, PhaseOf(s, w).job, env.chunk(s.docs[d].raw))
    ensures Ingested(env, s, WriteStep(t, w, luck.outcome), w, d, luck, luck.outcome == Committed)
  {
    var u := WriteStep(t, w, luck.outcome);
    SameMaps(u.docs, if luck.outcome == Aborted then t.docs else AfterIngest(env, s, d, luck).docs);
  }

  class Pipeline {
    const env: Env
    const me: WorkerId := 1
    var docs: map<DocId, Document>
    var chunks: map<DocId, seq<Chunk>>
    var parts: seq<Partition>
    var dlq: seq<Job>
    var running: bool
    ghost var published: set<DocId>
    ghost var workers: map<WorkerId, Phase>
    ghost var states: seq<State>
    ghost var steps: seq<Step>

    ghost function Snapshot(): State
      reads this
    {
      State(docs, chunks, parts, dlq, workers, published)
    }

    ghost function Phase(): Phase
      reads this
    {
      PhaseOf(Snapshot(), me)
    }

    ghost predicate Valid()
      reads this
    {
      && IsHistory(env, states, steps)
      && states[|steps|] == Snapshot()
      && Fine(env, Snapshot())
      && |parts| > 0
      && OnlyBusy(Snapshot(), me)
      && IsPipelines(env)
    }

    ghost function Owes(): nat
      requires Valid()
      reads this
    {
      TotalBacklog(env, Snapshot())
    }

    constructor (partitions: nat, maxAttempts: int)
      requires partitions > 0
      ensures Valid() && fresh(this) && running && docs == map[] && Phase() == Idle
      ensures env == Env(maxAttempts, ChunkDocument, Blank)
    {
      env := Env(maxAttempts, ChunkDocument, Blank);
      docs, chunks, parts, dlq, running := map[], map[], seq(partitions, i => Partition([], 0)), [], true;
      published, workers, steps := {}, map[], [];
      states := [State(map[], map[], seq(partitions, i => Partition([], 0)), [], map[], {})];
      new;
      InitGood(env, Snapshot());
    }

    /** The statement just executed was this step. */
    ghost method Record(step: Step)
      requires IsHistory(env, states, steps) && Fine(env, states[|steps|]) && |parts| > 0 && IsPipelines(env)
      requires Enabled(states[|steps|], step) && Sole(states[|steps|], step)
      requires var t := Next(env, states[|steps|], step);
        docs == t.docs && chunks == t.chunks && parts == t.parts && dlq == t.dlq && published == t.published
      requires OnlyBusy(states[|steps|], me) && StepOf(step, me)
      modifies `workers, `states, `steps
      ensures Valid() && Snapshot() == Next(env, old(states[|steps|]), step)
      ensures Owes() + (if step.Deliver? then 1 else 0)
                <= TotalBacklog(env, old(states[|steps|])) + Allowance(env, old(states[|steps|]), step)
    {
      var next := Next(env, states[|steps|], step);
      StepTaken(env, states, steps, step, me);
      workers := next.workers;
      states, steps := states + [next], steps + [step];
    }

    // ---------------------------------------------------------------- the upload

    /** CreateDocument, then the publish that may fail. */
    method Upload(d: DocId, raw: string, p: nat, queued: bool) returns (created: bool)
      requires Valid() && d !in docs && p < |parts|
      modifies this`docs, this`parts, this`published, this`workers, this`states, this`steps
      ensures Valid() && Phase() == old(Phase())
      ensures created <==> forall e :: e in old(docs) ==> old(docs)[e].raw != raw
      ensures docs == if created then old(docs)[d := Document(raw, StatusPending, 0, 0)] else old(docs)
      ensures parts == if created && queued then Append(old(Snapshot()), p, Job(Some(d), 1)).parts else old(parts)
      ensures published == if created && queued then old(published) + {d} else old(published)
    {
      created := !exists e :: e in docs && docs[e].raw == raw;
      if created {
        docs := docs[d := Document(raw, StatusPending, 0, 0)];
      }
      Record(Create(d, raw));
      if created && queued {
        parts := parts[p := parts[p].(log := parts[p].log + [Job(Some(d), 1)])];
        published := published + {d};
        Record(Publish(d, p));
      }
    }

    // ---------------------------------------------------------------- ingest, statement by statement

    method SetStatus(d: DocId, status: Status)
      modifies `docs
      ensures docs == WithStatus(old(Snapshot()), d, status).docs
    {
      if d in docs {
        docs := docs[d := docs[d].(status := status)];
      }
    }

    /** SELECT raw_content, and the two checks on the row. */
    method Read(d: DocId, readable: bool) returns (raw: Option<string>)
      requires Valid() && Phase().Delivered? && Phase().job.doc == Some(d)
      modifies `workers, `states, `steps
      ensures Valid() && Snapshot() == LoadStep(env, old(Snapshot()), me, readable) && Owes() <= old(Owes())
      ensures raw == if readable && d in docs && !env.blank(docs[d].raw) then Some(docs[d].raw) else None
    {
      raw := None;
      if readable && d in docs && !env.blank(docs[d].raw) {
        raw := Some(docs[d].raw);
      }
      Record(Load(me, readable));
    }

    method Mark(d: DocId, markable: bool)
      requires Valid() && Phase().Loaded? && Phase().job.doc == Some(d)
      modifies `docs, `workers, `states, `steps
      ensures Valid() && Snapshot() == Next(env, old(Snapshot()), Step.SetStatus(me, markable)) && Owes() <= old(Owes())
    {
      if markable {
        SetStatus(d, StatusChunking);
      }
      Record(Step.SetStatus(me, markable));
    }

    method Chunk(raw: string, embedded: bool) returns (generation: Option<seq<Chunk>>)
      requires Valid() && Phase().Splitting? && Phase().raw == raw
      modifies `workers, `states, `steps
      ensures Valid() && Snapshot() == SplitStep(env, old(Snapshot()), me, embedded) && Owes() <= old(Owes())
      ensures generation == if env.chunk(raw) != [] && embedded then Some(env.chunk(raw)) else None
    {
      var cut := env.chunk(raw);
      generation := if cut != [] && embedded then Some(cut) else None;
      Record(Split(me, embedded));
    }

    /** DELETE, INSERT and UPDATE of the transaction. */
    method ReplaceRows(d: DocId, generation: seq<Chunk>)
      modifies `docs, `chunks
      ensures docs == Replaced(old(Snapshot()), d, generation).docs
      ensures chunks == Replaced(old(Snapshot()), d, generation).chunks
    {
      chunks := chunks[d := generation];
      if d in docs {
        docs := docs[d := docs[d].(status := StatusReady, chunkCount := |generation|)];
      }
    }

    /** The transaction: all of it, or nothing; a commit may succeed and still be reported as an error. */
    method Replace(d: DocId, generation: seq<Chunk>, outcome: Outcome)
      requires Valid() && Phase().Writing? && Phase().job.doc == Some(d) && Phase().generation == generation
      modifies `docs, `chunks, `workers, `states, `steps
      ensures Valid() && Snapshot() == WriteStep(old(Snapshot()), me, outcome) && Owes() <= old(Owes())
    {
      if outcome != Aborted {
        ReplaceRows(d, generation);
      }
      Record(Write(me, outcome));
    }

    /** The second half of ingest, from chunk_document on. */
    method Store(d: DocId, raw: string, ghost s: State, luck: Luck) returns (ok: bool)
      requires Valid() && Delivers(s, me, d) && luck.readable && Readable(env, s, d)
      requires luck.markable && raw == s.docs[d].raw
      requires SameTables(Snapshot(), Marked(env, s, me, d)) && Phase() == PhaseOf(Marked(env, s, me, d), me)
      modifies `docs, `chunks, `workers, `states, `steps
      ensures Valid() && Owes() <= old(Owes())
      ensures Ingested(env, s, Snapshot(), me, d, luck, ok)
    {
      ghost var t := Snapshot();
      var generation := Chunk(raw, luck.embedded);
      if generation.None? {
        ChunkFails(env, s, t, me, d, luck);
        return false;
      }
      ReplaceEnds(env, s, Snapshot(), me, d, luck);
      Replace(d, generation.value, luck.outcome);
      ok := luck.outcome == Committed;
    }

    /** The first half of ingest, up to the status update: the content to chunk, or nothing. */
    method ReadAndMark(d: DocId, luck: Luck) returns (raw: Option<string>)
      requires Valid() && Delivers(Snapshot(), me, d)
      modifies `docs, `workers, `states, `steps
      ensures Valid() && Owes() <= old(Owes())
      ensures raw.None? ==> Ingested(env, old(Snapshot()), Snapshot(), me, d, luck, false)
      ensures raw.Some? ==>
        && luck.readable && Readable(env, old(Snapshot()), d) && luck.markable && raw.value == old(docs)[d].raw
        && SameTables(Snapshot(), Marked(env, old(Snapshot()), me, d))
        && Phase() == PhaseOf(Marked(env, old(Snapshot()), me, d), me)
    {
      ghost var s := Snapshot();
      raw := Read(d, luck.readable);
      if raw.None? {
        ReadFails(env, s, me, d, luck);
        return;
      }
      ghost var loaded := Snapshot();
      Mark(d, luck.markable);
      if luck.markable {
        MarkWorks(env, s, loaded, me, d);
      } else {
        MarkFails(env, s, loaded, me, d, luck);
        raw := None;
      }
    }

    /** Whether the document was ingested; if not, only its status may have moved, unless the commit went unnoticed. */
    method Ingest(d: DocId, luck: Luck) returns (ok: bool)
      requires Valid() && Delivers(Snapshot(), me, d)
      modifies `docs, `chunks, `workers, `states, `steps
      ensures Valid() && Owes() <= old(Owes())
      ensures Ingested(env, old(Snapshot()), Snapshot(), me, d, luck, ok)
      ensures ok <==> d in old(docs) && ProseInk(old(docs)[d].raw) != "" && AllWell(luck)
    {
      ghost var s := Snapshot();
      SucceedsIff(env, s, d, luck);
      ok := false;
      var raw := ReadAndMark(d, luck);
      if raw.Some? {
        ok := Store(d, raw.value, s, luck);
      }
    }

    // ---------------------------------------------------------------- handle and fail

    /** UPDATE documents: pending while attempts are left, failed after the last one. */
    method NoteFailure(job: Job)
      requires Valid() && Phase().Failing? && Phase().job == job
      modifies `docs, `workers, `states, `steps
      ensures Valid() && Owes() <= old(Owes())
      ensures docs == FailedDoc(env, old(Snapshot()), job).docs && Phase() == Sending(old(Phase()).at, job)
    {
      if job.doc.Some? && job.doc.value in docs {
        var doc := docs[job.doc.value];
        docs := docs[job.doc.value := doc.(
          status := if job.attempt < env.maxAttempts then StatusPending else StatusFailed,
          attempts := doc.attempts + 1)];
      }
      Record(RecordFailure(me));
    }

    /** The job goes round again with the next attempt, or to the dead letters. */
    method SendOn(job: Job, luck: Luck)
      requires Valid() && Phase().Sending? && Phase().job == job
      modifies `parts, `dlq, `workers, `states, `steps
      ensures Valid() && Owes() <= old(Owes()) && Phase() == Handled(old(Phase()).at, job)
      ensures SameTables(Snapshot(), AfterSend(env, old(Snapshot()), job, luck))
    {
      var p := luck.partition % |parts|;
      if job.attempt < env.maxAttempts {
        parts := parts[p := parts[p].(log := parts[p].log + [job.(attempt := job.attempt + 1)])];
      } else {
        dlq := dlq + [job];
      }
      Record(Send(me, p));
    }

    /** Notes the failure on the document, then sends the job round again or to the dead letters. */
    method Fail(job: Job, luck: Luck)
      requires Valid() && Phase().Failing? && Phase().job == job
      modifies `docs, `parts, `dlq, `workers, `states, `steps
      ensures Valid() && Owes() <= old(Owes())
      ensures SameTables(Snapshot(), AfterFail(env, old(Snapshot()), job, luck))
      ensures Phase() == Handled(old(Phase()).at, job)
    {
      NoteFailure(job);
      SendOn(job, luck);
    }

    method Handle(job: Job, luck: Luck)
      requires Valid() && Phase().Delivered? && Phase().job == job
      modifies `docs, `chunks, `parts, `dlq, `workers, `states, `steps
      ensures Valid() && Owes() <= old(Owes())
      ensures SameTables(Snapshot(), AfterHandle(env, old(Snapshot()), job, luck))
      ensures Phase() == Handled(old(Phase()).at, job)
      ensures job.doc.Some? ==>
        var d := job.doc.value;
        (Finished(docs, chunks, d) && parts == old(parts) && dlq == old(dlq))
        <==> d in old(docs) && ProseInk(old(docs)[d].raw) != "" && AllWell(luck)
    {
      if job.doc.Some? {
        HandleSucceedsIff(env, Snapshot(), job.doc.value, job, luck);
      }
      if job.doc.None? {
        Record(Load(me, luck.readable));
        return;
      }
      ghost var s := Snapshot();
      var ok := Ingest(job.doc.value, luck);
      if !ok {
        HandleEnds(env, s, Snapshot(), me, job, luck);
        Fail(job, luck);
      }
    }

    // ---------------------------------------------------------------- run

    method Poll(p: nat) returns (job: Job)
      requires Valid() && Phase() == Idle && p < |parts| && parts[p].committed < |parts[p].log|
      modifies `workers, `states, `steps
      ensures Valid() && Owes() < old(Owes())
      ensures Snapshot() == Next(env, old(Snapshot()), Deliver(me, p)) && job == parts[p].log[parts[p].committed]
    {
      job := parts[p].log[parts[p].committed];
      Record(Deliver(me, p));
    }

    method Commit(p: nat)
      requires Valid() && Phase().Handled? && Phase().at.partition == p
      modifies `parts, `workers, `states, `steps
      ensures Valid() && Owes() <= old(Owes())
      ensures Phase() == Idle && parts == old(parts)[p := old(parts)[p].(committed := old(parts)[p].committed + 1)]
    {
      parts := parts[p := parts[p].(committed := parts[p].committed + 1)];
      Record(CommitOffset(me));
    }

    method PollAndHandle(p: nat, luck: Luck)
      requires Valid() && Phase() == Idle && p < |parts| && parts[p].committed < |parts[p].log|
      modifies `docs, `chunks, `parts, `dlq, `workers, `states, `steps
      ensures Valid() && Owes() < old(Owes()) && Phase().Handled? && Phase().at.partition == p
      ensures SameTables(Snapshot(),
        AfterHandle(env, old(Snapshot()), old(parts)[p].log[old(parts)[p].committed], luck))
    {
      ghost var s := Snapshot();
      var job := Poll(p);
      HandleIgnoresWorkers(env, s, Snapshot(), job, luck);
      Handle(job, luck);
    }

    /** Handles and commits the job that is due on a partition. */
    method RunAt(p: nat, luck: Luck)
      requires Valid() && Phase() == Idle && p < |parts| && parts[p].committed < |parts[p].log|
      modifies `docs, `chunks, `parts, `dlq, `workers, `states, `steps
      ensures Valid() && Phase() == Idle && Owes() < old(Owes())
      ensures var t := AfterHandle(env, old(Snapshot()), old(parts)[p].log[old(parts)[p].committed], luck);
        docs == t.docs && chunks == t.chunks && dlq == t.dlq
        && p < |t.parts| && parts == t.parts[p := t.parts[p].(committed := t.parts[p].committed + 1)]
    {
      PollAndHandle(p, luck);
      Commit(p);
    }

    /** Handles and commits a job that is due, whichever the poll returns. */
    method RunDue(luck: Luck)
      requires Valid() && Phase() == Idle && exists p: nat :: p < |parts| && parts[p].committed < |parts[p].log|
      modifies `docs, `chunks, `parts, `dlq, `workers, `states, `steps
      ensures Valid() && Phase() == Idle && Owes() < old(Owes())
    {
      var p: nat :| p < |parts| && parts[p].committed < |parts[p].log|;
      RunAt(p, luck);
    }

    lemma AllSettled()
      requires Valid() && forall p :: 0 <= p < |parts| ==> parts[p].committed >= |parts[p].log|
      ensures Drained(Snapshot()) && forall d :: d in published ==> Settled(env, Snapshot(), d)
    {
      assert Drained(Snapshot());
      forall d | d in published
        ensures Settled(env, Snapshot(), d)
      {
        ExclusiveRunsSettle(env, states, steps, |steps|, d);
      }
    }

    /**
     * Handles jobs until a signal comes or none is left, in whatever order the partitions are polled. It ends:
     * every job handled uses up one of the runs owed, max_attempts for each published document. If no signal came,
     * every published document is settled.
     */
    method Run(luck: nat -> Luck, stopAfter: nat) returns (handled: nat)
      requires Valid() && Phase() == Idle
      modifies this
      ensures Valid() && Phase() == Idle && handled + Owes() <= old(Owes())
      ensures running ==> Drained(Snapshot()) && forall d :: d in published ==> Settled(env, Snapshot(), d)
      ensures published == old(published)
    {
      handled := 0;
      while running && exists p: nat :: p < |parts| && parts[p].committed < |parts[p].log|
        invariant Valid() && Phase() == Idle && handled + Owes() <= old(Owes()) && published == old(published)
        decreases Owes()
      {
        RunDue(luck(handled));
        handled := handled + 1;
        if handled >= stopAfter {
          running := false;
        }
      }
      if running {
        AllSettled();
      }
    }
  }
}
