/**
 * The at-least-once ingest protocol (workers/ingest/worker.py, the upload handler of
 * internal/api/server.go and CreateDocument of internal/store/store.go) as a transition system.
 * Every statement against Postgres and every Kafka call is one atomic step; any number of workers
 * interleave, jobs are redelivered while an earlier holder still runs, and a worker may die anywhere.
 */
module IngestProtocol {
  import opened Wrappers
  import opened Chunking

  type DocId = int
  type WorkerId = int

  datatype Status = StatusPending | StatusChunking | StatusReady | StatusFailed

  datatype Document = Document(raw: string, status: Status, chunkCount: nat, attempts: nat)

  /** A job; an entry without a document id is malformed. */
  datatype Job = Job(doc: Option<DocId>, attempt: int)

  /** A partition of the ingest topic: its messages, and the offset its consumers committed. */
  datatype Partition = Partition(log: seq<Job>, committed: nat)

  datatype Slot = Slot(partition: nat, offset: nat)

  /** Where a worker stands in run, handle, ingest and fail. */
  datatype Phase =
    | Idle
    | Delivered(at: Slot, job: Job)                            // handle called, document not read
    | Loaded(at: Slot, job: Job, raw: string)                  // content read and not blank
    | Splitting(at: Slot, job: Job, raw: string)               // status set to chunking
    | Writing(at: Slot, job: Job, generation: seq<Chunk>)      // chunks and vectors at hand
    | Failing(at: Slot, job: Job)                              // an exception reached handle
    | Sending(at: Slot, job: Job)                              // fail updated the document
    | Handled(at: Slot, job: Job)                              // handle returned, offset not committed

  datatype State = State(
    docs: map<DocId, Document>,
    chunks: map<DocId, seq<Chunk>>,
    parts: seq<Partition>,
    dlq: seq<Job>,
    workers: map<WorkerId, Phase>,
    published: set<DocId>)  // documents whose first job reached the topic

  /** The retry limit, chunk_document, and the test for blank content. */
  datatype Env = Env(maxAttempts: int, chunk: string -> seq<Chunk>, blank: string -> bool)

  datatype Outcome = Committed | Aborted | CommittedUnnoticed

  datatype Step =
    | Create(d: DocId, raw: string)
    | Publish(d: DocId, p: nat)
    | PublishMalformed(p: nat, attempt: int)
    | Deliver(w: WorkerId, p: nat)
    | Load(w: WorkerId, ok: bool)
    | SetStatus(w: WorkerId, ok: bool)
    | Split(w: WorkerId, embedded: bool)
    | Write(w: WorkerId, outcome: Outcome)
    | RecordFailure(w: WorkerId)
    | Send(w: WorkerId, p: nat)
    | CommitOffset(w: WorkerId)
    | Crash(w: WorkerId)

  function PhaseOf(s: State, w: WorkerId): Phase { if w in s.workers then s.workers[w] else Idle }

  function At(s: State, w: WorkerId, ph: Phase): State { s.(workers := s.workers[w := ph]) }

  predicate Holds(ph: Phase, d: DocId) { ph != Idle && ph.job.doc == Some(d) }

  function Append(s: State, p: nat, job: Job): State
    requires p < |s.parts|
  {
    s.(parts := s.parts[p := s.parts[p].(log := s.parts[p].log + [job])])
  }

  function WithStatus(s: State, d: DocId, status: Status): State {
    if d in s.docs then s.(docs := s.docs[d := s.docs[d].(status := status)]) else s
  }

  /** UPDATE documents ... in fail. */
  function FailedDoc(env: Env, s: State, job: Job): State {
    if job.doc.Some? && job.doc.value in s.docs then
      var doc := s.docs[job.doc.value];
      s.(docs := s.docs[job.doc.value := doc.(
        status := if job.attempt < env.maxAttempts then StatusPending else StatusFailed,
        attempts := doc.attempts + 1)])
    else s
  }

  /** The transaction: the old generation goes, the new one comes, the document is ready. */
  function Replaced(s: State, d: DocId, generation: seq<Chunk>): State {
    s.(chunks := s.chunks[d := generation],
       docs := if d in s.docs then s.docs[d := s.docs[d].(status := StatusReady, chunkCount := |generation|)]
               else s.docs)
  }

  function LoadStep(env: Env, s: State, w: WorkerId, ok: bool): State
    requires PhaseOf(s, w).Delivered?
  {
    var ph := PhaseOf(s, w);
    if ph.job.doc.None? then At(s, w, Handled(ph.at, ph.job))
    else if !ok || ph.job.doc.value !in s.docs || env.blank(s.docs[ph.job.doc.value].raw) then
      At(s, w, Failing(ph.at, ph.job))
    else At(s, w, Loaded(ph.at, ph.job, s.docs[ph.job.doc.value].raw))
  }

  function SplitStep(env: Env, s: State, w: WorkerId, embedded: bool): State
    requires PhaseOf(s, w).Splitting?
  {
    var ph := PhaseOf(s, w);
    var generation := env.chunk(ph.raw);
    At(s, w, if generation == [] || !embedded then Failing(ph.at, ph.job) else Writing(ph.at, ph.job, generation))
  }

  function WriteStep(s: State, w: WorkerId, outcome: Outcome): State
    requires PhaseOf(s, w).Writing? && PhaseOf(s, w).job.doc.Some?
  {
    var ph := PhaseOf(s, w);
    var t := if outcome == Aborted then s else Replaced(s, ph.job.doc.value, ph.generation);
    At(t, w, if outcome == Committed then Handled(ph.at, ph.job) else Failing(ph.at, ph.job))
  }

  function SendStep(env: Env, s: State, w: WorkerId, p: nat): State
    requires PhaseOf(s, w).Sending? && p < |s.parts|
  {
    var ph := PhaseOf(s, w);
    var t := if ph.job.attempt < env.maxAttempts then Append(s, p, ph.job.(attempt := ph.job.attempt + 1))
             else s.(dlq := s.dlq + [ph.job]);
    At(t, w, Handled(ph.at, ph.job))
  }

  /** The broker takes a commit only for the offset that is due; otherwise the worker dies on the error. */
  function CommitStep(s: State, w: WorkerId): State
    requires PhaseOf(s, w).Handled? && PhaseOf(s, w).at.partition < |s.parts|
  {
    var at := PhaseOf(s, w).at;
    var part := s.parts[at.partition];
    if part.committed == at.offset then
      At(s.(parts := s.parts[at.partition := part.(committed := at.offset + 1)]), w, Idle)
    else At(s, w, Idle)
  }

  predicate Enabled(s: State, step: Step) {
    match step
    case Create(d, raw) => d !in s.docs
    case Publish(d, p) => d in s.docs && p < |s.parts|
    case PublishMalformed(p, attempt) => p < |s.parts|
    case Deliver(w, p) => PhaseOf(s, w) == Idle && p < |s.parts| && s.parts[p].committed < |s.parts[p].log|
    case Load(w, ok) => PhaseOf(s, w).Delivered?
    case SetStatus(w, ok) => PhaseOf(s, w).Loaded? && PhaseOf(s, w).job.doc.Some?
    case Split(w, embedded) => PhaseOf(s, w).Splitting?
    case Write(w, outcome) => PhaseOf(s, w).Writing? && PhaseOf(s, w).job.doc.Some?
    case RecordFailure(w) => PhaseOf(s, w).Failing?
    case Send(w, p) => PhaseOf(s, w).Sending? && p < |s.parts|
    case CommitOffset(w) => PhaseOf(s, w).Handled? && PhaseOf(s, w).at.partition < |s.parts|
    case Crash(w) => true
  }

  function Next(env: Env, s: State, step: Step): State
    requires Enabled(s, step)
  {
    match step
    case Create(d, raw) =>
      // ON CONFLICT (content_hash) DO NOTHING
      if exists e :: e in s.docs && s.docs[e].raw == raw then s
      else s.(docs := s.docs[d := Document(raw, StatusPending, 0, 0)])
    case Publish(d, p) => Append(s, p, Job(Some(d), 1)).(published := s.published + {d})
    case PublishMalformed(p, attempt) => Append(s, p, Job(None, attempt))
    case Deliver(w, p) =>
      var part := s.parts[p];
      At(s, w, Delivered(Slot(p, part.committed), part.log[part.committed]))
    case Load(w, ok) => LoadStep(env, s, w, ok)
    case SetStatus(w, ok) =>
      var ph := PhaseOf(s, w);
      if ok then At(WithStatus(s, ph.job.doc.value, StatusChunking), w, Splitting(ph.at, ph.job, ph.raw))
      else At(s, w, Failing(ph.at, ph.job))
    case Split(w, embedded) => SplitStep(env, s, w, embedded)
    case Write(w, outcome) => WriteStep(s, w, outcome)
    case RecordFailure(w) =>
      var ph := PhaseOf(s, w);
      At(FailedDoc(env, s, ph.job), w, Sending(ph.at, ph.job))
    case Send(w, p) => SendStep(env, s, w, p)
    case CommitOffset(w) => CommitStep(s, w)
    case Crash(w) => At(s, w, Idle)
  }

  predicate Init(s: State) {
    && s.docs == map[] && s.chunks == map[] && s.dlq == [] && s.workers == map[] && s.published == {}
    && forall p :: 0 <= p < |s.parts| ==> s.parts[p] == Partition([], 0)
  }

  /** A run: the state after each step. */
  ghost predicate IsRun(env: Env, states: seq<State>, steps: seq<Step>) {
    && |states| == |steps| + 1 && Init(states[0])
    && forall i :: 0 <= i < |steps| ==> Enabled(states[i], steps[i]) && states[i + 1] == Next(env, states[i], steps[i])
  }

  /** A run goes on by any enabled step. */
  lemma RunGoesOn(env: Env, states: seq<State>, steps: seq<Step>, step: Step)
    requires IsRun(env, states, steps) && Enabled(states[|steps|], step)
    ensures IsRun(env, states + [Next(env, states[|steps|], step)], steps + [step])
  {
  }

  // ---------------------------------------------------------------- the topic

  predicate IsSlot(s: State, x: Slot) { x.partition < |s.parts| && x.offset < |s.parts[x.partition].log| }

  function JobAt(s: State, x: Slot): Job
    requires IsSlot(s, x)
  {
    s.parts[x.partition].log[x.offset]
  }

  predicate Uncommitted(s: State, x: Slot) { IsSlot(s, x) && s.parts[x.partition].committed <= x.offset }

  predicate InDlq(s: State, d: DocId) { exists i :: 0 <= i < |s.dlq| && s.dlq[i].doc == Some(d) }

  predicate Stored(env: Env, s: State, d: DocId) {
    d in s.docs && d in s.chunks && s.chunks[d] == env.chunk(s.docs[d].raw) && s.chunks[d] != []
  }

  // ---------------------------------------------------------------- well-formed states

  function Top(env: Env): int { if env.maxAttempts >= 1 then env.maxAttempts else 1 }

  predicate GoodJob(env: Env, s: State, job: Job) {
    job.doc.Some? ==> job.doc.value in s.published && 1 <= job.attempt <= Top(env)
  }

  ghost predicate LogsGood(env: Env, s: State) {
    && (forall p :: 0 <= p < |s.parts| ==> s.parts[p].committed <= |s.parts[p].log|)
    && (forall x :: IsSlot(s, x) ==> GoodJob(env, s, JobAt(s, x)))
  }

  ghost predicate DocsGood(env: Env, s: State) {
    && (forall d :: d in s.published ==> d in s.docs)
    && (forall d :: d in s.chunks ==> Stored(env, s, d))
    && (forall d :: d in s.docs && s.docs[d].status == StatusReady ==> d in s.chunks)
  }

  predicate PhaseGood(env: Env, s: State, ph: Phase) {
    ph != Idle ==>
      && IsSlot(s, ph.at) && JobAt(s, ph.at) == ph.job && ph.at.offset <= s.parts[ph.at.partition].committed
      && (!ph.Delivered? && !ph.Handled? ==> ph.job.doc.Some? && ph.job.doc.value in s.docs)
      && (ph.Loaded? || ph.Splitting? ==> ph.raw == s.docs[ph.job.doc.value].raw)
      && (ph.Writing? ==> ph.generation == env.chunk(s.docs[ph.job.doc.value].raw) && ph.generation != [])
  }

  ghost predicate WorkersGood(env: Env, s: State) { forall w :: PhaseGood(env, s, PhaseOf(s, w)) }

  ghost predicate Good(env: Env, s: State) { LogsGood(env, s) && DocsGood(env, s) && WorkersGood(env, s) }

  // ---------------------------------------------------------------- monotone parts of a step

  /** Logs and the published set only grow, contents never change, chunks are never removed. */
  ghost predicate Grows(s: State, t: State) {
    && |t.parts| == |s.parts|
    && (forall x :: IsSlot(s, x) ==> IsSlot(t, x) && JobAt(t, x) == JobAt(s, x))
    && (forall p :: 0 <= p < |s.parts| ==> s.parts[p].committed <= t.parts[p].committed)
    && s.published <= t.published
    && (forall d :: d in s.docs ==> d in t.docs && t.docs[d].raw == s.docs[d].raw)
    && (forall d :: d in s.chunks ==> d in t.chunks)
    && s.dlq <= t.dlq
  }

  lemma AppendGrows(s: State, p: nat, job: Job)
    requires p < |s.parts|
    ensures Grows(s, Append(s, p, job))
    ensures var t := Append(s, p, job);
      && IsSlot(t, Slot(p, |s.parts[p].log|)) && JobAt(t, Slot(p, |s.parts[p].log|)) == job
      && forall x :: IsSlot(t, x) && !IsSlot(s, x) ==> x == Slot(p, |s.parts[p].log|)
  {
  }

  /** A row changes, but not its content. */
  lemma RowGrows(s: State, t: State, d: DocId)
    requires t.parts == s.parts && t.published == s.published && t.dlq == s.dlq && s.chunks.Keys <= t.chunks.Keys
    requires t.docs == s.docs || (d in s.docs && d in t.docs && t.docs == s.docs[d := t.docs[d]])
    requires d in s.docs && d in t.docs ==> t.docs[d].raw == s.docs[d].raw
    ensures Grows(s, t)
  {
  }

  lemma WriteGrows(s: State, w: WorkerId, outcome: Outcome)
    requires Enabled(s, Write(w, outcome))
    ensures Grows(s, WriteStep(s, w, outcome))
  {
    RowGrows(s, WriteStep(s, w, outcome), PhaseOf(s, w).job.doc.value);
  }

  lemma SetStatusGrows(env: Env, s: State, w: WorkerId, ok: bool)
    requires Enabled(s, SetStatus(w, ok))
    ensures Grows(s, Next(env, s, SetStatus(w, ok)))
  {
    RowGrows(s, Next(env, s, SetStatus(w, ok)), PhaseOf(s, w).job.doc.value);
  }

  lemma FailureGrows(env: Env, s: State, w: WorkerId)
    requires Enabled(s, RecordFailure(w))
    ensures Grows(s, Next(env, s, RecordFailure(w)))
  {
    var job := PhaseOf(s, w).job;
    RowGrows(s, Next(env, s, RecordFailure(w)), if job.doc.Some? then job.doc.value else 0);
  }

  lemma SendGrows(env: Env, s: State, w: WorkerId, p: nat)
    requires Enabled(s, Send(w, p))
    ensures Grows(s, SendStep(env, s, w, p))
  {
    AppendGrows(s, p, PhaseOf(s, w).job.(attempt := PhaseOf(s, w).job.attempt + 1));
  }

  lemma CommitGrows(env: Env, s: State, w: WorkerId)
    requires Good(env, s) && Enabled(s, CommitOffset(w))
    ensures Grows(s, CommitStep(s, w))
  {
    assert PhaseGood(env, s, PhaseOf(s, w));
  }

  lemma StepGrows(env: Env, s: State, step: Step)
    requires Good(env, s) && Enabled(s, step)
    ensures Grows(s, Next(env, s, step))
  {
    match step
    case Publish(d, p) => AppendGrows(s, p, Job(Some(d), 1));
    case PublishMalformed(p, attempt) => AppendGrows(s, p, Job(None, attempt));
    case SetStatus(w, ok) => SetStatusGrows(env, s, w, ok);
    case Write(w, outcome) => WriteGrows(s, w, outcome);
    case RecordFailure(w) => FailureGrows(env, s, w);
    case Send(w, p) => SendGrows(env, s, w, p);
    case CommitOffset(w) => CommitGrows(env, s, w);
    case _ =>
  }

  lemma PhaseStaysGood(env: Env, s: State, t: State, ph: Phase)
    requires Grows(s, t) && PhaseGood(env, s, ph)
    ensures PhaseGood(env, t, ph)
  {
    if ph != Idle {
      assert IsSlot(t, ph.at) && JobAt(t, ph.at) == JobAt(s, ph.at);
      assert s.parts[ph.at.partition].committed <= t.parts[ph.at.partition].committed;
      if ph.job.doc.Some? && ph.job.doc.value in s.docs {
        var d := ph.job.doc.value;
        assert d in t.docs && t.docs[d].raw == s.docs[d].raw;
      }
    }
  }

  // ---------------------------------------------------------------- every step keeps states good

  lemma JobsStayGood(env: Env, s: State, t: State)
    requires LogsGood(env, s) && Grows(s, t)
    requires forall x :: IsSlot(t, x) && !IsSlot(s, x) ==> GoodJob(env, t, JobAt(t, x))
    requires forall p :: 0 <= p < |t.parts| ==> t.parts[p].committed <= |t.parts[p].log|
    ensures LogsGood(env, t)
  {
    forall x | IsSlot(t, x)
      ensures GoodJob(env, t, JobAt(t, x))
    {
      if IsSlot(s, x) {
        assert GoodJob(env, s, JobAt(s, x));
      }
    }
  }

  lemma WorkersStayGood(env: Env, s: State, t: State, w: WorkerId, ph: Phase)
    requires WorkersGood(env, s) && Grows(s, t) && PhaseGood(env, t, ph)
    requires t.workers == s.workers[w := ph]
    ensures WorkersGood(env, t)
  {
    forall v
      ensures PhaseGood(env, t, PhaseOf(t, v))
    {
      if v != w {
        PhaseStaysGood(env, s, t, PhaseOf(s, v));
      }
    }
  }

  lemma SameWorkersStayGood(env: Env, s: State, t: State)
    requires WorkersGood(env, s) && Grows(s, t) && t.workers == s.workers
    ensures WorkersGood(env, t)
  {
    forall v
      ensures PhaseGood(env, t, PhaseOf(t, v))
    {
      PhaseStaysGood(env, s, t, PhaseOf(s, v));
    }
  }

  /** A step that changes nothing but the phase of one worker. */
  lemma MoveStaysGood(env: Env, s: State, w: WorkerId, ph: Phase)
    requires Good(env, s) && PhaseGood(env, s, ph)
    ensures Good(env, At(s, w, ph))
  {
    var t := At(s, w, ph);
    assert Grows(s, t);
    JobsStayGood(env, s, t);
    PhaseStaysGood(env, s, t, ph);
    WorkersStayGood(env, s, t, w, ph);
  }

  /** A step that changes a document row and moves one worker. */
  lemma DocStepStaysGood(env: Env, s: State, t: State, w: WorkerId, ph: Phase)
    requires Good(env, s) && PhaseGood(env, s, ph)
    requires t.parts == s.parts && t.published == s.published && t.dlq == s.dlq && t.workers == s.workers[w := ph]
    requires Grows(s, t) && DocsGood(env, t)
    ensures Good(env, t)
  {
    JobsStayGood(env, s, t);
    PhaseStaysGood(env, s, t, ph);
    WorkersStayGood(env, s, t, w, ph);
  }

  lemma AppendStaysGood(env: Env, s: State, p: nat, job: Job, published: set<DocId>)
    requires Good(env, s) && p < |s.parts|
    requires s.published <= published && forall d :: d in published ==> d in s.docs
    requires job.doc.Some? ==> job.doc.value in published && 1 <= job.attempt <= Top(env)
    ensures Good(env, Append(s, p, job).(published := published))
  {
    var t := Append(s, p, job).(published := published);
    AppendGrows(s, p, job);
    assert Grows(s, t);
    JobsStayGood(env, s, t);
    SameWorkersStayGood(env, s, t);
  }

  lemma CreateStaysGood(env: Env, s: State, d: DocId, raw: string)
    requires Good(env, s) && d !in s.docs
    ensures Good(env, Next(env, s, Create(d, raw)))
  {
    var t := Next(env, s, Create(d, raw));
    JobsStayGood(env, s, t);
    SameWorkersStayGood(env, s, t);
  }

  lemma ReplacedDocsGood(env: Env, s: State, d: DocId, generation: seq<Chunk>)
    requires DocsGood(env, s) && d in s.docs && generation == env.chunk(s.docs[d].raw) && generation != []
    ensures DocsGood(env, Replaced(s, d, generation)) && Grows(s, Replaced(s, d, generation))
  {
    var t := Replaced(s, d, generation);
    forall e | e in t.chunks
      ensures Stored(env, t, e)
    {
      assert e != d ==> Stored(env, s, e);
    }
  }

  lemma WriteStaysGood(env: Env, s: State, w: WorkerId, outcome: Outcome)
    requires Good(env, s) && Enabled(s, Write(w, outcome))
    ensures Good(env, Next(env, s, Write(w, outcome)))
  {
    var ph := PhaseOf(s, w);
    assert PhaseGood(env, s, ph);
    var next := if outcome == Committed then Handled(ph.at, ph.job) else Failing(ph.at, ph.job);
    if outcome == Aborted {
      MoveStaysGood(env, s, w, next);
    } else {
      var t := WriteStep(s, w, outcome);
      ReplacedDocsGood(env, s, ph.job.doc.value, ph.generation);
      DocStepStaysGood(env, s, t, w, next);
    }
  }

  lemma StatusDocsGood(env: Env, s: State, d: DocId, doc: Document)
    requires DocsGood(env, s) && d in s.docs && doc.raw == s.docs[d].raw && doc.status != StatusReady
    ensures var t := s.(docs := s.docs[d := doc]); DocsGood(env, t) && Grows(s, t)
  {
    var t := s.(docs := s.docs[d := doc]);
    forall e | e in t.chunks
      ensures Stored(env, t, e)
    {
      assert Stored(env, s, e);
    }
  }

  lemma DocPhaseStaysGood(env: Env, s: State, w: WorkerId, doc: Document, ph: Phase)
    requires Good(env, s) && PhaseGood(env, s, ph) && ph != Idle && ph.job.doc.Some? && ph.job.doc.value in s.docs
    requires doc.raw == s.docs[ph.job.doc.value].raw && doc.status != StatusReady
    ensures Good(env, At(s.(docs := s.docs[ph.job.doc.value := doc]), w, ph))
  {
    var d := ph.job.doc.value;
    StatusDocsGood(env, s, d, doc);
    DocStepStaysGood(env, s, At(s.(docs := s.docs[d := doc]), w, ph), w, ph);
  }

  lemma SendStaysGood(env: Env, s: State, w: WorkerId, p: nat)
    requires Good(env, s) && Enabled(s, Send(w, p))
    ensures Good(env, Next(env, s, Send(w, p)))
  {
    var ph := PhaseOf(s, w);
    assert PhaseGood(env, s, ph) && GoodJob(env, s, JobAt(s, ph.at));
    var t := At(s, w, Handled(ph.at, ph.job));
    MoveStaysGood(env, s, w, Handled(ph.at, ph.job));
    if ph.job.attempt < env.maxAttempts {
      var retry := ph.job.(attempt := ph.job.attempt + 1);
      AppendStaysGood(env, t, p, retry, t.published);
      assert Next(env, s, Send(w, p)) == Append(t, p, retry).(published := t.published);
    } else {
      var u := t.(dlq := t.dlq + [ph.job]);
      assert Grows(t, u);
      JobsStayGood(env, t, u);
      SameWorkersStayGood(env, t, u);
    }
  }

  lemma CommitStaysGood(env: Env, s: State, w: WorkerId)
    requires Good(env, s) && Enabled(s, CommitOffset(w))
    ensures Good(env, Next(env, s, CommitOffset(w)))
  {
    var t := CommitStep(s, w);
    CommitGrows(env, s, w);
    assert PhaseGood(env, s, PhaseOf(s, w));
    JobsStayGood(env, s, t);
    WorkersStayGood(env, s, t, w, Idle);
  }

  lemma LoadStaysGood(env: Env, s: State, w: WorkerId, ok: bool)
    requires Good(env, s) && PhaseOf(s, w).Delivered?
    ensures Good(env, LoadStep(env, s, w, ok))
  {
    var ph := PhaseOf(s, w);
    assert PhaseGood(env, s, ph);
    assert GoodJob(env, s, JobAt(s, ph.at));
    if ph.job.doc.Some? {
      var d := ph.job.doc.value;
      assert d in s.published;
      assert d in s.docs;
      MoveStaysGood(env, s, w, Failing(ph.at, ph.job));
      MoveStaysGood(env, s, w, Loaded(ph.at, ph.job, s.docs[d].raw));
    } else {
      MoveStaysGood(env, s, w, Handled(ph.at, ph.job));
    }
  }

  lemma WorkerStepStaysGood(env: Env, s: State, step: Step)
    requires Good(env, s) && Enabled(s, step)
    requires step.Deliver? || step.Load? || step.SetStatus? || step.Split? || step.RecordFailure? || step.Crash?
    ensures Good(env, Next(env, s, step))
  {
    var ph := PhaseOf(s, step.w);
    assert PhaseGood(env, s, ph);
    match step
    case Deliver(w, p) =>
      var x := Slot(p, s.parts[p].committed);
      assert IsSlot(s, x);
      MoveStaysGood(env, s, w, Delivered(x, JobAt(s, x)));
    case Load(w, ok) =>
      LoadStaysGood(env, s, w, ok);
    case SetStatus(w, ok) =>
      if ok {
        DocPhaseStaysGood(env, s, w, s.docs[ph.job.doc.value].(status := StatusChunking),
          Splitting(ph.at, ph.job, ph.raw));
      } else {
        MoveStaysGood(env, s, w, Failing(ph.at, ph.job));
      }
    case Split(w, embedded) =>
      MoveStaysGood(env, s, w, PhaseOf(SplitStep(env, s, w, embedded), w));
    case RecordFailure(w) =>
      DocPhaseStaysGood(env, s, w, FailedDoc(env, s, ph.job).docs[ph.job.doc.value], Sending(ph.at, ph.job));
    case Crash(w) => MoveStaysGood(env, s, w, Idle);
  }

  /** Every step, of any worker, keeps states good. */
  lemma StepStaysGood(env: Env, s: State, step: Step)
    requires Good(env, s) && Enabled(s, step)
    ensures Good(env, Next(env, s, step))
  {
    match step
    case Create(d, raw) => CreateStaysGood(env, s, d, raw);
    case Publish(d, p) => AppendStaysGood(env, s, p, Job(Some(d), 1), s.published + {d});
    case PublishMalformed(p, attempt) => AppendStaysGood(env, s, p, Job(None, attempt), s.published);
    case Write(w, outcome) => WriteStaysGood(env, s, w, outcome);
    case Send(w, p) => SendStaysGood(env, s, w, p);
    case CommitOffset(w) => CommitStaysGood(env, s, w);
    case _ => WorkerStepStaysGood(env, s, step);
  }
}
