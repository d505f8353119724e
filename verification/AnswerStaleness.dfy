/**
 * What happens when the fingerprint cannot be read: its stand-in names the second, so two such requests within
 * one second share a key, and the later one may be served an answer that misses documents stored in between.
 */
module AnswerStaleness {
  import opened Wrappers
  import opened AnswerKeys
  import opened AnswerCache
  import I = IngestProtocol

  lemma Then(env: Setting, worlds: seq<World>, steps: seq<Step>, step: Step)
    returns (longer: seq<World>, more: seq<Step>)
    requires IsRun(env, worlds, steps) && Enabled(worlds[|steps|], step)
    ensures IsRun(env, longer, more) && longer[|more|] == Next(env, worlds[|steps|], step)
    ensures worlds <= longer && |more| == |steps| + 1
  {
    RunGoesOn(env, worlds, steps, step);
    longer, more := worlds + [Next(env, worlds[|steps|], step)], steps + [step];
  }

  ghost predicate OnlyCorpusMoved(w: World, t: World) { t.cache == w.cache && t.requests == w.requests }

  /** Worker w holds the job of the new document d, queued on partition p. */
  ghost predicate Held(s: I.State, t: I.State, d: I.DocId, row: I.Document, w: I.WorkerId, p: nat) {
    && t.chunks == s.chunks && t.docs == s.docs[d := row]
    && |t.parts| == |s.parts| && (forall q :: 0 <= q < |s.parts| && q != p ==> t.parts[q] == s.parts[q])
    && (forall v :: v != w ==> I.PhaseOf(t, v) == I.PhaseOf(s, v))
    && I.PhaseOf(t, w) != I.Idle && I.PhaseOf(t, w).job.doc == Some(d)
  }

  /** The worker has read the document. */
  ghost predicate Taken(s: I.State, t: I.State, d: I.DocId, raw: string, w: I.WorkerId, p: nat) {
    && Held(s, t, d, I.Document(raw, I.StatusPending, 0, 0), w, p)
    && I.PhaseOf(t, w).Loaded? && I.PhaseOf(t, w).raw == raw
  }

  /** The worker has cut it into chunks. */
  ghost predicate Cut(env: I.Env, s: I.State, t: I.State, d: I.DocId, raw: string, w: I.WorkerId, p: nat) {
    && Held(s, t, d, I.Document(raw, I.StatusChunking, 0, 0), w, p)
    && I.PhaseOf(t, w).Writing? && I.PhaseOf(t, w).generation == env.chunk(raw)
  }

  ghost predicate Stored(env: I.Env, s: I.State, t: I.State, d: I.DocId, raw: string, w: I.WorkerId, p: nat) {
    && t.chunks == s.chunks[d := env.chunk(raw)]
    && t.docs.Keys == s.docs.Keys + {d} && t.docs[d].raw == raw
    && (forall e :: e in s.docs && e != d ==> t.docs[e] == s.docs[e])
    && |t.parts| == |s.parts| && (forall q :: 0 <= q < |s.parts| && q != p ==> t.parts[q] == s.parts[q])
    && (forall v :: v != w ==> I.PhaseOf(t, v) == I.PhaseOf(s, v))
  }

  ghost predicate CanTake(env: I.Env, s: I.State, d: I.DocId, raw: string, w: I.WorkerId, p: nat) {
    && d !in s.docs && (forall e :: e in s.docs ==> s.docs[e].raw != raw) && !env.blank(raw) && env.chunk(raw) != []
    && p < |s.parts| && s.parts[p] == I.Partition([], 0) && I.PhaseOf(s, w) == I.Idle
  }

  /** The document is created and its job queued. */
  lemma Queue(env: Setting, worlds: seq<World>, steps: seq<Step>, d: I.DocId, raw: string, w: I.WorkerId, p: nat)
    returns (longer: seq<World>, more: seq<Step>)
    requires IsRun(env, worlds, steps) && CanTake(env.ingest, worlds[|steps|].corpus, d, raw, w, p)
    ensures IsRun(env, longer, more) && worlds <= longer && OnlyCorpusMoved(worlds[|steps|], longer[|more|])
    ensures var s, t := worlds[|steps|].corpus, longer[|more|].corpus;
      && t.chunks == s.chunks && t.docs == s.docs[d := I.Document(raw, I.StatusPending, 0, 0)] && t.workers == s.workers
      && p < |s.parts| && t.parts == s.parts[p := I.Partition([] + [I.Job(Some(d), 1)], 0)]
  {
    longer, more := Then(env, worlds, steps, Ingest(I.Create(d, raw)));
    longer, more := Then(env, longer, more, Ingest(I.Publish(d, p)));
  }

  lemma Take(env: Setting, worlds: seq<World>, steps: seq<Step>, d: I.DocId, raw: string, w: I.WorkerId, p: nat)
    returns (longer: seq<World>, more: seq<Step>)
    requires IsRun(env, worlds, steps) && CanTake(env.ingest, worlds[|steps|].corpus, d, raw, w, p)
    ensures IsRun(env, longer, more) && worlds <= longer && OnlyCorpusMoved(worlds[|steps|], longer[|more|])
    ensures Taken(worlds[|steps|].corpus, longer[|more|].corpus, d, raw, w, p)
  {
    longer, more := Queue(env, worlds, steps, d, raw, w, p);
    longer, more := Then(env, longer, more, Ingest(I.Deliver(w, p)));
    longer, more := Then(env, longer, more, Ingest(I.Load(w, true)));
  }

  lemma TakenIsCut(env: I.Env, s: I.State, t: I.State, d: I.DocId, raw: string, w: I.WorkerId, p: nat)
    requires Taken(s, t, d, raw, w, p) && env.chunk(raw) != []
    ensures I.Enabled(t, I.SetStatus(w, true)) && I.Enabled(I.Next(env, t, I.SetStatus(w, true)), I.Split(w, true))
    ensures Cut(env, s, I.Next(env, I.Next(env, t, I.SetStatus(w, true)), I.Split(w, true)), d, raw, w, p)
  {
  }

  lemma CutIsStored(env: I.Env, s: I.State, t: I.State, d: I.DocId, raw: string, w: I.WorkerId, p: nat)
    requires Cut(env, s, t, d, raw, w, p)
    ensures I.Enabled(t, I.Write(w, I.Committed))
    ensures Stored(env, s, I.Next(env, t, I.Write(w, I.Committed)), d, raw, w, p)
  {
  }

  /** A worker ingests a new document. */
  lemma Store(env: Setting, worlds: seq<World>, steps: seq<Step>, d: I.DocId, raw: string, w: I.WorkerId, p: nat)
    returns (longer: seq<World>, more: seq<Step>)
    requires IsRun(env, worlds, steps) && CanTake(env.ingest, worlds[|steps|].corpus, d, raw, w, p)
    ensures IsRun(env, longer, more) && worlds <= longer && OnlyCorpusMoved(worlds[|steps|], longer[|more|])
    ensures Stored(env.ingest, worlds[|steps|].corpus, longer[|more|].corpus, d, raw, w, p)
  {
    longer, more := Take(env, worlds, steps, d, raw, w, p);
    TakenIsCut(env.ingest, worlds[|steps|].corpus, longer[|more|].corpus, d, raw, w, p);
    longer, more := Then(env, longer, more, Ingest(I.SetStatus(w, true)));
    longer, more := Then(env, longer, more, Ingest(I.Split(w, true)));
    CutIsStored(env.ingest, worlds[|steps|].corpus, longer[|more|].corpus, d, raw, w, p);
    longer, more := Then(env, longer, more, Ingest(I.Write(w, I.Committed)));
  }

  /** A first request cannot read the fingerprint, misses the empty cache, and searches. */
  lemma SearchBlindly(env: Setting, worlds: seq<World>, steps: seq<Step>, question: string, second: int)
    returns (longer: seq<World>, more: seq<Step>)
    requires IsRun(env, worlds, steps)
    requires var w := worlds[|steps|]; w.requests == map[] && w.cache == map[] && w.corpus.chunks != map[]
    ensures IsRun(env, longer, more) && worlds <= longer
    ensures var w, t := worlds[|steps|], longer[|more|]; t.corpus == w.corpus && t.cache == map[] && 2 !in t.requests
    ensures var t := longer[|more|];
      && 1 in t.requests && t.requests[1].question == question && Cacheable(t.requests[1])
      && t.requests[1].stage.Found? && t.requests[1].stage.version == Unknown(second)
      && t.requests[1].stage.searchAt < |longer| && longer[t.requests[1].stage.searchAt].corpus == t.corpus
  {
    longer, more := Then(env, worlds, steps, Ask(1, question, [], false));
    longer, more := Then(env, longer, more, ReadVersion(1, None, second));
    longer, more := Then(env, longer, more, Lookup(1, false));
    CorpusStaysGood(env, longer, more, |more|);
    longer, more := Then(env, longer, more, Search(1, Some(true)));
  }

  /** Its answer is generated and cached. */
  lemma AnswerBlindly(env: Setting, worlds: seq<World>, steps: seq<Step>, question: string, second: int, answer: string)
    returns (longer: seq<World>, more: seq<Step>)
    requires IsRun(env, worlds, steps)
    requires var w := worlds[|steps|]; w.requests == map[] && w.cache == map[] && w.corpus.chunks != map[]
    ensures IsRun(env, longer, more) && worlds <= longer
    ensures var w, t, key := worlds[|steps|], longer[|more|], env.key(question, Unknown(second));
      t.corpus == w.corpus && 2 !in t.requests && key in t.cache && t.cache[key].searchAt < |longer|
      && longer[t.cache[key].searchAt].corpus == w.corpus
  {
    longer, more := SearchBlindly(env, worlds, steps, question, second);
    longer, more := Then(env, longer, more, Generate(1, Some(answer)));
    longer, more := Then(env, longer, more, Put(1, true));
  }

  /** A second one, in the same second, is served the answer. */
  lemma HitBlindly(env: Setting, worlds: seq<World>, steps: seq<Step>, question: string, second: int)
    returns (longer: seq<World>, more: seq<Step>)
    requires IsRun(env, worlds, steps)
    requires var w := worlds[|steps|]; 2 !in w.requests && env.key(question, Unknown(second)) in w.cache
    ensures IsRun(env, longer, more) && worlds <= longer
    ensures StageOf(longer[|more|], 2).Hit? && StageOf(longer[|more|], 2).version == Unknown(second)
    ensures var stage := StageOf(longer[|more|], 2);
      stage.entry == worlds[|steps|].cache[env.key(question, Unknown(second))]
      && stage.readAt == |steps| + 1 < |longer| && longer[|steps| + 1].corpus == worlds[|steps|].corpus
  {
    longer, more := Then(env, worlds, steps, Ask(2, question, [], false));
    CorpusStaysGood(env, longer, more, |more|);
    longer, more := Then(env, longer, more, ReadVersion(2, None, second));
    longer, more := Then(env, longer, more, Lookup(2, true));
  }

  /**
   * The stand-in does not always miss. For any two documents and any question there is a run in which a request
   * that observes both documents is served an answer searched for before the second one was stored.
   */
  lemma UnknownMayBeStale(env: Setting, a: string, b: string, question: string, second: int)
    returns (worlds: seq<World>, steps: seq<Step>)
    requires a != b && !env.ingest.blank(a) && !env.ingest.blank(b)
    requires env.ingest.chunk(a) != [] && env.ingest.chunk(b) != []
    ensures IsRun(env, worlds, steps) && StageOf(worlds[|steps|], 2).Hit?
    ensures StageOf(worlds[|steps|], 2).version.Unknown?
    ensures var stage := StageOf(worlds[|steps|], 2);
      && stage.readAt < |worlds| && stage.entry.searchAt < |worlds|
      && 2 in worlds[stage.readAt].corpus.chunks && 2 !in worlds[stage.entry.searchAt].corpus.chunks
  {
    var empty := I.State(map[], map[], [I.Partition([], 0), I.Partition([], 0)], [], map[], {});
    worlds, steps := [World(empty, map[], map[], 0)], [];
    worlds, steps := Store(env, worlds, steps, 1, a, 1, 0);
    assert 1 in worlds[|steps|].corpus.chunks;
    worlds, steps := AnswerBlindly(env, worlds, steps, question, second, "");
    worlds, steps := Store(env, worlds, steps, 2, b, 2, 1);
    worlds, steps := HitBlindly(env, worlds, steps, question, second);
  }

  /** A run that ends with a hit of a request that could, or could not, read the fingerprint. */
  ghost predicate EndsInHit(env: Setting, readable: bool, worlds: seq<World>, steps: seq<Step>, r: RequestId) {
    IsRun(env, worlds, steps)
    && StageOf(worlds[|steps|], r).Hit? && StageOf(worlds[|steps|], r).version.Known? == readable
  }

  ghost predicate FreshHit(worlds: seq<World>, stage: Stage)
    requires stage.Hit?
  {
    && stage.readAt < |worlds| && stage.entry.searchAt < |worlds|
    && Within(worlds[stage.readAt].corpus.chunks, worlds[stage.entry.searchAt].corpus.chunks)
  }

  ghost predicate AlwaysFresh(env: Setting, readable: bool) {
    forall worlds: seq<World>, steps: seq<Step>, r: RequestId ::
      EndsInHit(env, readable, worlds, steps, r) ==> FreshHit(worlds, StageOf(worlds[|steps|], r))
  }

  lemma ReadableIsFresh(env: Setting, al: Alphabet, worlds: seq<World>, steps: seq<Step>, r: RequestId)
    requires env.key == Keys(al) && EndsInHit(env, true, worlds, steps, r)
    ensures FreshHit(worlds, StageOf(worlds[|steps|], r))
  {
    HitsAreFresh(env, al, worlds, steps, |steps|, r);
  }

  /** Hits are fresh in every run exactly when the fingerprint could be read, given two documents to store. */
  lemma FreshIffReadable(env: Setting, al: Alphabet, readable: bool, a: string, b: string)
    requires env.key == Keys(al) && a != b && !env.ingest.blank(a) && !env.ingest.blank(b)
    requires env.ingest.chunk(a) != [] && env.ingest.chunk(b) != []
    ensures AlwaysFresh(env, readable) <==> readable
  {
    if readable {
      forall worlds: seq<World>, steps: seq<Step>, r: RequestId | EndsInHit(env, true, worlds, steps, r)
        ensures FreshHit(worlds, StageOf(worlds[|steps|], r))
      {
        ReadableIsFresh(env, al, worlds, steps, r);
      }
    } else {
      var worlds, steps := UnknownMayBeStale(env, a, b, "", 0);
      assert EndsInHit(env, false, worlds, steps, 2) && !FreshHit(worlds, StageOf(worlds[|steps|], 2));
    }
  }
}
