/**
 * The answer cache (Answer and corpusVersion of internal/chat/chat.go, CorpusStats of internal/store/store.go)
 * while documents are being ingested: requests read the corpus fingerprint, look their key up, search, generate
 * and store, one step at a time, interleaved with each other and with every step of the ingest protocol.
 */
module AnswerCache {
  import opened Wrappers
  import opened Totals
  import opened AnswerKeys
  import Chunking
  import I = IngestProtocol

  type RequestId = int
  type Corpus = map<I.DocId, seq<Chunking.Chunk>>

  /** A cached answer, with the question it was given to and when its fingerprint was read and its search made. */
  datatype Entry = Entry(question: string, history: seq<string>,
      version: Version, readAt: nat, searchAt: nat, answer: string)

  /** Where Answer stands. */
  datatype Stage =
    | Asked
    | Keyed(version: Version, readAt: nat)
    | Missed(version: Version, readAt: nat)
    | Found(version: Version, readAt: nat, searchAt: nat)      // at least one candidate
    | Generated(entry: Entry)
    | Hit(version: Version, readAt: nat, entry: Entry)
    | Ended

  datatype Request = Request(question: string, history: seq<string>, noCache: bool, stage: Stage)

  datatype World = World(corpus: I.State, cache: map<string, Entry>, requests: map<RequestId, Request>, now: nat)

  /** The ingest protocol's environment, and how keys are made. */
  datatype Setting = Setting(ingest: I.Env, key: (string, Version) -> string)

  datatype Step =
    | Ingest(step: I.Step)
    | Ask(r: RequestId, question: string, history: seq<string>, noCache: bool)
    | ReadVersion(r: RequestId, stats: Option<int>, second: int)   // the last ingest time, unless the query fails
    | Lookup(r: RequestId, reachable: bool)
    | Search(r: RequestId, found: Option<bool>)                    // None: retrieval failed
    | Generate(r: RequestId, answer: Option<string>)
    | Put(r: RequestId, ok: bool)
    | Evict(key: string)

  predicate Cacheable(q: Request) { q.history == [] && !q.noCache }

  function Sizes(c: Corpus): map<I.DocId, nat> { map d | d in c :: |c[d]| }

  /** SELECT count(*) FROM chunks. */
  ghost function Size(c: Corpus): nat { Total(Sizes(c)) }

  function ReadyDocs(s: I.State): nat { |set d | d in s.docs && s.docs[d].status == I.StatusReady| }

  /** SELECT count(*) FROM documents WHERE status = 'ready'. */
  method CountReady(docs: map<I.DocId, I.Document>) returns (ready: nat)
    ensures ready == |set d | d in docs && docs[d].status == I.StatusReady|
  {
    ready := CountWhere(docs, (doc: I.Document) => doc.status == I.StatusReady);
    assert Where(docs, (doc: I.Document) => doc.status == I.StatusReady)
        == (set d | d in docs && docs[d].status == I.StatusReady);
  }

  ghost function VersionNow(s: I.State, stats: Option<int>, second: int): Version {
    match stats
    case Some(lastIngest) => Known(ReadyDocs(s), Size(s.chunks), lastIngest)
    case None => Unknown(second)
  }

  function StageOf(w: World, r: RequestId): Stage { if r in w.requests then w.requests[r].stage else Ended }

  predicate Enabled(w: World, step: Step) {
    match step
    case Ingest(s) => I.Enabled(w.corpus, s)
    case Ask(r, question, history, noCache) => r !in w.requests
    case ReadVersion(r, stats, second) => StageOf(w, r).Asked?
    case Lookup(r, reachable) => StageOf(w, r).Keyed?
    case Search(r, found) => StageOf(w, r).Missed? && (found == Some(true) ==> w.corpus.chunks != map[])
    case Generate(r, answer) => StageOf(w, r).Found?
    case Put(r, ok) => StageOf(w, r).Generated?
    case Evict(key) => true
  }

  function To(w: World, r: RequestId, stage: Stage): World
    requires r in w.requests
  {
    w.(requests := w.requests[r := w.requests[r].(stage := stage)])
  }

  function KeyOf(env: Setting, q: Request, version: Version): string { env.key(q.question, version) }

  function Keys(al: Alphabet): (string, Version) -> string { (question, version) => AnswerKey(al, question, version) }

  /** The lookup of a request that may use the cache; any error counts as a miss. */
  function LookupStep(env: Setting, w: World, r: RequestId, reachable: bool): World
    requires StageOf(w, r).Keyed?
  {
    var q := w.requests[r];
    var key := KeyOf(env, q, q.stage.version);
    To(w, r, if Cacheable(q) && reachable && key in w.cache then Hit(q.stage.version, q.stage.readAt, w.cache[key])
             else Missed(q.stage.version, q.stage.readAt))
  }

  function GenerateStep(w: World, r: RequestId, answer: Option<string>): World
    requires StageOf(w, r).Found?
  {
    var q := w.requests[r];
    To(w, r, if answer.None? then Ended
             else Generated(Entry(q.question, q.history, q.stage.version, q.stage.readAt,
                                  q.stage.searchAt, answer.value)))
  }

  function PutStep(env: Setting, w: World, r: RequestId, ok: bool): World
    requires StageOf(w, r).Generated?
  {
    var q := w.requests[r];
    var t := To(w, r, Ended);
    if Cacheable(q) && ok then t.(cache := t.cache[KeyOf(env, q, q.stage.entry.version) := q.stage.entry]) else t
  }

  ghost function Act(env: Setting, w: World, step: Step): World
    requires Enabled(w, step)
  {
    match step
    case Ingest(s) => w.(corpus := I.Next(env.ingest, w.corpus, s))
    case Ask(r, question, history, noCache) =>
      w.(requests := w.requests[r := Request(question, history, noCache, Asked)])
    case ReadVersion(r, stats, second) => To(w, r, Keyed(VersionNow(w.corpus, stats, second), w.now))
    case Lookup(r, reachable) => LookupStep(env, w, r, reachable)
    case Search(r, found) =>
      To(w, r, if found == Some(true) then Found(StageOf(w, r).version, StageOf(w, r).readAt, w.now) else Ended)
    case Generate(r, answer) => GenerateStep(w, r, answer)
    case Put(r, ok) => PutStep(env, w, r, ok)
    case Evict(key) => w.(cache := w.cache - {key})
  }

  ghost function Next(env: Setting, w: World, step: Step): World
    requires Enabled(w, step)
  {
    Act(env, w, step).(now := w.now + 1)
  }

  ghost predicate Init(w: World) { I.Init(w.corpus) && w.cache == map[] && w.requests == map[] && w.now == 0 }

  ghost predicate IsRun(env: Setting, worlds: seq<World>, steps: seq<Step>) {
    && |worlds| == |steps| + 1 && Init(worlds[0])
    && forall i :: 0 <= i < |steps| ==> Enabled(worlds[i], steps[i]) && worlds[i + 1] == Next(env, worlds[i], steps[i])
  }

  lemma RunGoesOn(env: Setting, worlds: seq<World>, steps: seq<Step>, step: Step)
    requires IsRun(env, worlds, steps) && Enabled(worlds[|steps|], step)
    ensures IsRun(env, worlds + [Next(env, worlds[|steps|], step)], steps + [step])
  {
  }

  // ---------------------------------------------------------------- the corpus only grows

  /** Every document of `a` is in `b`, with the same chunks. */
  ghost predicate Within(a: Corpus, b: Corpus) { forall d :: d in a ==> d in b && a[d] == b[d] }

  ghost predicate NoneEmpty(c: Corpus) { forall d :: d in c ==> c[d] != [] }

  lemma SizeWithout(c: Corpus, d: I.DocId)
    requires d in c
    ensures Size(c) == |c[d]| + Size(c - {d})
  {
    TotalWithout(Sizes(c), d);
    SameMaps(Sizes(c) - {d}, Sizes(c - {d}));
  }

  lemma {:induction false} SmallerCorpus(a: Corpus, b: Corpus)
    requires Within(a, b)
    ensures Size(a) <= Size(b)
    decreases |a|
  {
    if a.Keys == {} {
      SameMaps(Sizes(a), map[]);
    } else {
      var d := SomeOf(a.Keys);
      SizeWithout(a, d);
      SizeWithout(b, d);
      Shrinks(a, d);
      SmallerCorpus(a - {d}, b - {d});
    }
  }

  lemma OneMore(a: Corpus, b: Corpus, d: I.DocId)
    requires Within(a, b) && NoneEmpty(b) && d in b && d !in a
    ensures Size(a) < Size(b)
  {
    SizeWithout(b, d);
    SmallerCorpus(a, b - {d});
    assert b[d] != [];
  }

  /** Of two corpora, one within the other, the chunk count tells whether they are the same. */
  lemma CountDecides(a: Corpus, b: Corpus)
    requires Within(a, b) && NoneEmpty(b) && Size(a) == Size(b)
    ensures a == b
  {
    forall d
      ensures (d in a <==> d in b) && (d in a ==> a[d] == b[d])
    {
      if d in b && d !in a {
        OneMore(a, b, d);
      }
    }
    SameMaps(a, b);
  }

  lemma ChunksGrow(env: I.Env, s: I.State, step: I.Step)
    requires I.Good(env, s) && I.Enabled(s, step)
    ensures Within(s.chunks, I.Next(env, s, step).chunks) && I.Good(env, I.Next(env, s, step))
  {
    var t := I.Next(env, s, step);
    I.StepStaysGood(env, s, step);
    I.StepGrows(env, s, step);
    forall d | d in s.chunks
      ensures d in t.chunks && s.chunks[d] == t.chunks[d]
    {
      assert I.Stored(env, s, d) && I.Stored(env, t, d);
    }
  }

  lemma StepKeepsCorpusGood(env: Setting, w: World, step: Step)
    requires I.Good(env.ingest, w.corpus) && Enabled(w, step)
    ensures I.Good(env.ingest, Next(env, w, step).corpus) && Within(w.corpus.chunks, Next(env, w, step).corpus.chunks)
    ensures Next(env, w, step).now == w.now + 1
  {
    if step.Ingest? {
      ChunksGrow(env.ingest, w.corpus, step.step);
    }
  }

  lemma {:induction false} CorpusStaysGood(env: Setting, worlds: seq<World>, steps: seq<Step>, n: nat)
    requires IsRun(env, worlds, steps) && n <= |steps|
    ensures I.Good(env.ingest, worlds[n].corpus) && worlds[n].now == n
  {
    if n > 0 {
      CorpusStaysGood(env, worlds, steps, n - 1);
      assert worlds[n - 1 + 1] == Next(env, worlds[n - 1], steps[n - 1]);
      StepKeepsCorpusGood(env, worlds[n - 1], steps[n - 1]);
    }
  }

  lemma ChunksStayOnce(env: Setting, worlds: seq<World>, steps: seq<Step>, i: nat, d: I.DocId)
    requires IsRun(env, worlds, steps) && i < |steps| && d in worlds[i].corpus.chunks
    ensures d in worlds[i + 1].corpus.chunks && worlds[i + 1].corpus.chunks[d] == worlds[i].corpus.chunks[d]
  {
    CorpusStaysGood(env, worlds, steps, i);
    StepKeepsCorpusGood(env, worlds[i], steps[i]);
  }

  lemma {:induction false} ChunksStay(env: Setting, worlds: seq<World>, steps: seq<Step>, i: nat, j: nat, d: I.DocId)
    requires IsRun(env, worlds, steps) && i <= j <= |steps| && d in worlds[i].corpus.chunks
    ensures d in worlds[j].corpus.chunks && worlds[j].corpus.chunks[d] == worlds[i].corpus.chunks[d]
  {
    if i < j {
      ChunksStay(env, worlds, steps, i, j - 1, d);
      ChunksStayOnce(env, worlds, steps, j - 1, d);
    }
  }

  lemma CorpusGrows(env: Setting, worlds: seq<World>, steps: seq<Step>, i: nat, j: nat)
    requires IsRun(env, worlds, steps) && i <= j <= |steps|
    ensures Within(worlds[i].corpus.chunks, worlds[j].corpus.chunks)
  {
    forall d | d in worlds[i].corpus.chunks
      ensures d in worlds[j].corpus.chunks && worlds[j].corpus.chunks[d] == worlds[i].corpus.chunks[d]
    {
      ChunksStay(env, worlds, steps, i, j, d);
    }
  }

  lemma NoEmptyGeneration(env: I.Env, s: I.State)
    requires I.Good(env, s)
    ensures NoneEmpty(s.chunks)
  {
    forall d | d in s.chunks
      ensures s.chunks[d] != []
    {
      assert I.Stored(env, s, d);
    }
  }

  /** Equal chunk counts at two points of a run: the same documents, with the same chunks, were stored at both. */
  lemma EqualCountsSameCorpus(env: Setting, worlds: seq<World>, steps: seq<Step>, i: nat, j: nat)
    requires IsRun(env, worlds, steps) && i <= |steps| && j <= |steps|
    requires Size(worlds[i].corpus.chunks) == Size(worlds[j].corpus.chunks)
    ensures worlds[i].corpus.chunks == worlds[j].corpus.chunks
  {
    if i > j {
      EqualCountsSameCorpus(env, worlds, steps, j, i);
    } else {
      CorpusGrows(env, worlds, steps, i, j);
      CorpusStaysGood(env, worlds, steps, j);
      assert NoneEmpty(worlds[j].corpus.chunks) by {
        NoEmptyGeneration(env.ingest, worlds[j].corpus);
      }
      CountDecides(worlds[i].corpus.chunks, worlds[j].corpus.chunks);
    }
  }

  // ---------------------------------------------------------------- what requests and cached answers remember

  /** The fingerprint was read at that point of the run; a search, if any, came later. */
  ghost predicate ReadRight(worlds: seq<World>, n: nat, version: Version, readAt: nat) {
    readAt < n < |worlds| && (version.Known? ==> version.chunks == Size(worlds[readAt].corpus.chunks))
  }

  ghost predicate EntryRight(worlds: seq<World>, n: nat, e: Entry) {
    ReadRight(worlds, n, e.version, e.readAt) && e.readAt <= e.searchAt < n
  }

  ghost predicate CachedRight(env: Setting, worlds: seq<World>, n: nat, key: string, e: Entry) {
    EntryRight(worlds, n, e) && key == env.key(e.question, e.version) && e.history == []
  }

  ghost predicate StageRight(env: Setting, worlds: seq<World>, n: nat, q: Request) {
    match q.stage
    case Keyed(version, readAt) => ReadRight(worlds, n, version, readAt)
    case Missed(version, readAt) => ReadRight(worlds, n, version, readAt)
    case Found(version, readAt, searchAt) => ReadRight(worlds, n, version, readAt) && readAt <= searchAt < n
    case Generated(e) => EntryRight(worlds, n, e) && e.question == q.question && e.history == q.history
    case Hit(version, readAt, e) =>
      ReadRight(worlds, n, version, readAt) && Cacheable(q) && CachedRight(env, worlds, n, KeyOf(env, q, version), e)
    case _ => true
  }

  ghost predicate AllRight(env: Setting, worlds: seq<World>, n: nat)
    requires n < |worlds|
  {
    && (forall r :: r in worlds[n].requests ==> StageRight(env, worlds, n, worlds[n].requests[r]))
    && (forall key :: key in worlds[n].cache ==> CachedRight(env, worlds, n, key, worlds[n].cache[key]))
  }

  lemma LaterStageRight(env: Setting, worlds: seq<World>, n: nat, q: Request)
    requires StageRight(env, worlds, n, q) && n + 1 < |worlds|
    ensures StageRight(env, worlds, n + 1, q)
  {
  }

  lemma LaterCachedRight(env: Setting, worlds: seq<World>, n: nat, key: string, e: Entry)
    requires CachedRight(env, worlds, n, key, e) && n + 1 < |worlds|
    ensures CachedRight(env, worlds, n + 1, key, e)
  {
  }

  lemma HitRight(env: Setting, worlds: seq<World>, n: nat, q: Request, e: Entry)
    requires n + 1 < |worlds| && q.stage.Keyed? && StageRight(env, worlds, n, q) && Cacheable(q)
    requires CachedRight(env, worlds, n, KeyOf(env, q, q.stage.version), e)
    ensures StageRight(env, worlds, n + 1, q.(stage := Hit(q.stage.version, q.stage.readAt, e)))
  {
    LaterCachedRight(env, worlds, n, KeyOf(env, q, q.stage.version), e);
  }

  lemma LookupRight(env: Setting, worlds: seq<World>, n: nat, r: RequestId, reachable: bool)
    requires n + 1 < |worlds| && AllRight(env, worlds, n) && StageOf(worlds[n], r).Keyed?
    ensures StageRight(env, worlds, n + 1, LookupStep(env, worlds[n], r, reachable).requests[r])
  {
    var w := worlds[n];
    var q := w.requests[r];
    var key := KeyOf(env, q, q.stage.version);
    if Cacheable(q) && reachable && key in w.cache {
      HitRight(env, worlds, n, q, w.cache[key]);
    } else {
      LaterStageRight(env, worlds, n, q);
    }
  }

  /** The stage a request has moved to is right. */
  lemma MoveRight(env: Setting, worlds: seq<World>, n: nat, step: Step, r: RequestId)
    requires n + 1 < |worlds| && AllRight(env, worlds, n) && worlds[n].now == n
    requires Enabled(worlds[n], step) && worlds[n + 1] == Next(env, worlds[n], step)
    requires r in worlds[n + 1].requests
    ensures StageRight(env, worlds, n + 1, worlds[n + 1].requests[r])
  {
    var w := worlds[n];
    if r in w.requests {
      LaterStageRight(env, worlds, n, w.requests[r]);
      assert StageRight(env, worlds, n, w.requests[r]);
      if step.Lookup? && step.r == r {
        LookupRight(env, worlds, n, r, step.reachable);
      }
    }
  }

  lemma CacheStaysRight(env: Setting, worlds: seq<World>, n: nat, step: Step, key: string)
    requires n + 1 < |worlds| && AllRight(env, worlds, n)
    requires Enabled(worlds[n], step) && worlds[n + 1] == Next(env, worlds[n], step)
    requires key in worlds[n + 1].cache
    ensures CachedRight(env, worlds, n + 1, key, worlds[n + 1].cache[key])
  {
    var w, t := worlds[n], worlds[n + 1];
    if key in w.cache && t.cache[key] == w.cache[key] {
      LaterCachedRight(env, worlds, n, key, w.cache[key]);
    } else {
      assert step.Put? && StageRight(env, worlds, n, w.requests[step.r]);
    }
  }

  lemma {:induction false} RunStaysRight(env: Setting, worlds: seq<World>, steps: seq<Step>, n: nat)
    requires IsRun(env, worlds, steps) && n <= |steps|
    ensures AllRight(env, worlds, n)
  {
    if n > 0 {
      RunStaysRight(env, worlds, steps, n - 1);
      CorpusStaysGood(env, worlds, steps, n - 1);
      var step := steps[n - 1];
      assert worlds[n - 1 + 1] == Next(env, worlds[n - 1], step);
      forall r | r in worlds[n].requests
        ensures StageRight(env, worlds, n, worlds[n].requests[r])
      {
        MoveRight(env, worlds, n - 1, step, r);
      }
      forall key | key in worlds[n].cache
        ensures CachedRight(env, worlds, n, key, worlds[n].cache[key])
      {
        CacheStaysRight(env, worlds, n - 1, step, key);
      }
    }
  }

  // ---------------------------------------------------------------- freshness

  /** A hit serves an answer given without history, to the same normalized question, under the same fingerprint. */
  lemma HitsMatch(env: Setting, al: Alphabet, worlds: seq<World>, n: nat, q: Request)
    requires env.key == Keys(al) && n < |worlds| && q.stage.Hit? && StageRight(env, worlds, n, q)
    ensures var e := q.stage.entry;
      Cacheable(q) && e.history == [] && SameQuestion(al, q.question, e.question) && e.version == q.stage.version
  {
    KeyInjective(al, q.question, q.stage.version, q.stage.entry.question, q.stage.entry.version);
  }

  /** Who reads the fingerprint of an entry sees the corpus its request saw, and so nothing its search missed. */
  lemma SameVersionSameCorpus(env: Setting, worlds: seq<World>, steps: seq<Step>, n: nat, e: Entry, readAt: nat)
    requires IsRun(env, worlds, steps) && n <= |steps|
    requires EntryRight(worlds, n, e) && ReadRight(worlds, n, e.version, readAt) && e.version.Known?
    ensures worlds[e.readAt].corpus.chunks == worlds[readAt].corpus.chunks
    ensures Within(worlds[readAt].corpus.chunks, worlds[e.searchAt].corpus.chunks)
  {
    EqualCountsSameCorpus(env, worlds, steps, e.readAt, readAt);
    CorpusGrows(env, worlds, steps, e.readAt, e.searchAt);
  }

  lemma HitIsRight(env: Setting, worlds: seq<World>, steps: seq<Step>, n: nat, r: RequestId)
    requires IsRun(env, worlds, steps) && n <= |steps| && StageOf(worlds[n], r).Hit?
    ensures StageRight(env, worlds, n, worlds[n].requests[r])
  {
    RunStaysRight(env, worlds, steps, n);
  }

  /**
   * Whatever is ingested between a fingerprint read, the search and the put: a hit serves the answer to the same
   * normalized question, given without history, and if the request could read the fingerprint the answer was
   * searched for in a corpus holding every document, with the same chunks, that the request observed.
   */
  lemma HitsAreFresh(env: Setting, al: Alphabet, worlds: seq<World>, steps: seq<Step>, n: nat, r: RequestId)
    requires IsRun(env, worlds, steps) && n <= |steps| && env.key == Keys(al)
    requires StageOf(worlds[n], r).Hit?
    ensures var q := worlds[n].requests[r]; var e := q.stage.entry;
      && Cacheable(q) && e.history == [] && SameQuestion(al, q.question, e.question)
      && e.version == q.stage.version && q.stage.readAt < n && e.readAt <= e.searchAt < n
    ensures var q := worlds[n].requests[r]; var e := q.stage.entry;
      q.stage.version.Known? ==>
        && worlds[e.readAt].corpus.chunks == worlds[q.stage.readAt].corpus.chunks
        && Within(worlds[q.stage.readAt].corpus.chunks, worlds[e.searchAt].corpus.chunks)
  {
    HitIsRight(env, worlds, steps, n, r);
    var q := worlds[n].requests[r];
    HitsMatch(env, al, worlds, n, q);
    if q.stage.version.Known? {
      SameVersionSameCorpus(env, worlds, steps, n, q.stage.entry, q.stage.readAt);
    }
  }
}
