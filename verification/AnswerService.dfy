/**
 * Answer of internal/chat/chat.go as it runs: one statement after the other over the cache and the corpus,
 * while other requests and the ingest workers do whatever they like in between.
 */
module AnswerService {
  import opened Wrappers
  import opened Text
  import opened Totals
  import opened AnswerKeys
  import opened AnswerCache
  import I = IngestProtocol

  /** What the outside answers to one request, and what everybody else does before each of its statements. */
  datatype Luck = Luck(allowed: bool, stats: Option<int>, second: int, reachable: bool, found: Option<bool>,
                       answer: Option<string>,
                       stored: bool, others: nat -> seq<Step>)

  datatype Reply = Cached(entry: Entry) | Fresh(answer: string) | Refused | Failed

  predicate Concerns(step: Step, r: RequestId) { !step.Ingest? && !step.Evict? && step.r == r }

  /** Nobody else moves a request on. */
  lemma OthersLeaveRequest(env: Setting, w: World, step: Step, r: RequestId)
    requires Enabled(w, step) && !Concerns(step, r) && r in w.requests
    ensures var t := Next(env, w, step); r in t.requests && t.requests[r] == w.requests[r]
  {
  }

  function Moved(w: World, r: RequestId, stage: Stage): World
    requires r in w.requests
  {
    To(w, r, stage).(now := w.now + 1)
  }

  ghost predicate Takes(env: Setting, w: World, step: Step, t: World) { Enabled(w, step) && t == Next(env, w, step) }

  lemma LookupTakes(env: Setting, w: World, r: RequestId, reachable: bool, stage: Stage)
    requires StageOf(w, r).Keyed?
    requires var q := w.requests[r]; var key := KeyOf(env, q, q.stage.version);
      stage == if Cacheable(q) && reachable && key in w.cache then Hit(q.stage.version, q.stage.readAt, w.cache[key])
               else Missed(q.stage.version, q.stage.readAt)
    ensures Takes(env, w, Lookup(r, reachable), Moved(w, r, stage))
  {
  }

  lemma PutTakes(env: Setting, w: World, r: RequestId, ok: bool, cache: map<string, Entry>)
    requires StageOf(w, r).Generated?
    requires var q := w.requests[r];
      cache == if Cacheable(q) && ok then w.cache[KeyOf(env, q, q.stage.entry.version) := q.stage.entry] else w.cache
    ensures Takes(env, w, Put(r, ok), Moved(w, r, Ended).(cache := cache))
  {
  }

  /** The history goes on. */
  ghost predicate Goes(before: seq<World>, after: seq<World>) { before <= after }

  /**
   * A cached answer worth serving: given to the same normalized question, without history, and if the fingerprint
   * could be read, searched for in a corpus that held everything stored at the given moment.
   */
  ghost predicate Honest(al: Alphabet, worlds: seq<World>, start: nat, question: string, known: bool, e: Entry) {
    && e.history == [] && SameQuestion(al, question, e.question)
    && start < |worlds| && e.searchAt < |worlds|
    && (known ==> Within(worlds[start].corpus.chunks, worlds[e.searchAt].corpus.chunks))
  }

  function Outcome(luck: Luck): Reply { if luck.answer.None? then Failed else Fresh(luck.answer.value) }

  /**
   * What a call that missed returns: a failure, a refusal when nothing is found, or the generated answer. Only a search
   * in an empty corpus finds nothing whatever the retrievers would say.
   */
  predicate FitsMiss(luck: Luck, stocked: bool, reply: Reply) {
    match luck.found
    case None => reply == Failed
    case Some(false) => reply == Refused
    case Some(true) => reply == Outcome(luck) || (!stocked && reply == Refused)
  }

  /** The cache holds the answer under its own question and the fingerprint read for it. */
  predicate Remembered(env: Setting, cache: map<string, Entry>, question: string, version: Version, answer: string) {
    var key := env.key(question, version);
    key in cache && cache[key].question == question && cache[key].history == []
    && cache[key].version == version && cache[key].answer == answer
  }

  lemma StillWithin(env: Setting, worlds: seq<World>, steps: seq<Step>, i: nat, j: nat, c: Corpus)
    requires IsRun(env, worlds, steps) && i <= j <= |steps| && Within(worlds[j].corpus.chunks, c)
    ensures Within(worlds[i].corpus.chunks, c)
  {
    forall d | d in worlds[i].corpus.chunks
      ensures d in c && worlds[i].corpus.chunks[d] == c[d]
    {
      ChunksStay(env, worlds, steps, i, j, d);
    }
  }

  /** What is stored once stays stored. */
  lemma StaysStocked(env: Setting, worlds: seq<World>, steps: seq<Step>, i: nat)
    requires IsRun(env, worlds, steps) && i <= |steps| && worlds[i].corpus.chunks != map[]
    ensures worlds[|steps|].corpus.chunks != map[]
  {
    var d := Pick(worlds[i].corpus.chunks);
    ChunksStay(env, worlds, steps, i, |steps|, d);
  }

  /** Whoever reads the fingerprint after its call began is served only such answers. */
  lemma HitsAreHonest(env: Setting, al: Alphabet, worlds: seq<World>, steps: seq<Step>, start: nat, r: RequestId)
    requires IsRun(env, worlds, steps) && env.key == Keys(al) && StageOf(worlds[|steps|], r).Hit?
    requires start <= |steps| && start <= StageOf(worlds[|steps|], r).readAt
    ensures var q := worlds[|steps|].requests[r];
      Cacheable(q) && Honest(al, worlds, start, q.question, q.stage.version.Known?, q.stage.entry)
  {
    HitsAreFresh(env, al, worlds, steps, |steps|, r);
    var q := worlds[|steps|].requests[r];
    if q.stage.version.Known? {
      StillWithin(env, worlds, steps, start, q.stage.readAt, worlds[q.stage.entry.searchAt].corpus.chunks);
    }
  }

  class Service {
    const env: Setting
    const al: Alphabet
    var corpus: I.State
    var cache: map<string, Entry>
    var requests: map<RequestId, Request>
    var now: nat
    ghost var worlds: seq<World>
    ghost var steps: seq<Step>

    function Here(): World
      reads this
    {
      World(corpus, cache, requests, now)
    }

    ghost predicate Valid()
      reads this
    {
      IsRun(env, worlds, steps) && worlds[|steps|] == Here() && env.key == Keys(al)
    }

    constructor (ingest: I.Env, al: Alphabet, partitions: nat)
      ensures Valid() && fresh(this) && cache == map[] && requests == map[] && env.ingest == ingest
    {
      this.al := al;
      env := Setting(ingest, Keys(al));
      var empty := I.State(map[], map[], seq(partitions, i => I.Partition([], 0)), [], map[], {});
      corpus, cache, requests, now := empty, map[], map[], 0;
      worlds, steps := [World(empty, map[], map[], 0)], [];
    }

    /** The statement just executed was this step. */
    ghost method Record(step: Step)
      requires IsRun(env, worlds, steps) && env.key == Keys(al)
      requires Takes(env, worlds[|steps|], step, Here())
      modifies `worlds, `steps
      ensures Valid() && Goes(old(worlds), worlds)
    {
      RunGoesOn(env, worlds, steps, step);
      worlds, steps := worlds + [Here()], steps + [step];
    }

    method Move(r: RequestId, stage: Stage)
      requires r in requests
      modifies `requests, `now
      ensures Here() == Moved(old(Here()), r, stage)
    {
      requests := requests[r := requests[r].(stage := stage)];
      now := now + 1;
    }

    // ---------------------------------------------------------------- the statements

    method IngestStep(step: I.Step)
      requires I.Enabled(corpus, step)
      modifies `corpus, `now
      ensures Takes(env, old(Here()), Ingest(step), Here())
    {
      corpus := I.Next(env.ingest, corpus, step);
      now := now + 1;
    }

    method Begin(r: RequestId, question: string, history: seq<string>, noCache: bool)
      requires r !in requests
      modifies `requests, `now
      ensures Takes(env, old(Here()), Ask(r, question, history, noCache), Here())
    {
      requests := requests[r := Request(question, history, noCache, Asked)];
      now := now + 1;
    }

    /** CorpusStats, or the fallback when it fails. */
    method CorpusVersion(stats: Option<int>, second: int) returns (version: Version)
      ensures version == VersionNow(corpus, stats, second)
    {
      match stats
      case None => version := Unknown(second);
      case Some(lastIngest) =>
        var ready := CountReady(corpus.docs);
        var chunks := SumOf(Sizes(corpus.chunks));
        version := Known(ready, chunks, lastIngest);
    }

    method Fingerprint(r: RequestId, stats: Option<int>, second: int)
      requires StageOf(Here(), r).Asked?
      modifies `requests, `now
      ensures Takes(env, old(Here()), ReadVersion(r, stats, second), Here())
    {
      var version := CorpusVersion(stats, second);
      Move(r, Keyed(version, now));
    }

    method GetAnswer(r: RequestId, reachable: bool)
      requires StageOf(Here(), r).Keyed?
      modifies `requests, `now
      ensures Takes(env, old(Here()), Lookup(r, reachable), Here())
    {
      var q := requests[r];
      var key := KeyOf(env, q, q.stage.version);
      var stage := Missed(q.stage.version, q.stage.readAt);
      if Cacheable(q) && reachable && key in cache {
        stage := Hit(q.stage.version, q.stage.readAt, cache[key]);
      }
      LookupTakes(env, Here(), r, reachable, stage);
      Move(r, stage);
    }

    method Retrieve(r: RequestId, found: Option<bool>)
      requires StageOf(Here(), r).Missed? && (found == Some(true) ==> corpus.chunks != map[])
      modifies `requests, `now
      ensures Takes(env, old(Here()), Search(r, found), Here())
    {
      var stage := requests[r].stage;
      Move(r, if found == Some(true) then Found(stage.version, stage.readAt, now) else Ended);
    }

    method Stream(r: RequestId, answer: Option<string>)
      requires StageOf(Here(), r).Found?
      modifies `requests, `now
      ensures Takes(env, old(Here()), Generate(r, answer), Here())
    {
      var q := requests[r];
      Move(r, if answer.None? then Ended
              else Generated(Entry(q.question, q.history, q.stage.version, q.stage.readAt,
                                   q.stage.searchAt, answer.value)));
    }

    method PutAnswer(r: RequestId, ok: bool)
      requires StageOf(Here(), r).Generated?
      modifies `cache, `requests, `now
      ensures Takes(env, old(Here()), Put(r, ok), Here())
    {
      var q := requests[r];
      ghost var w := Here();
      if Cacheable(q) && ok {
        cache := cache[KeyOf(env, q, q.stage.entry.version) := q.stage.entry];
      }
      PutTakes(env, w, r, ok, cache);
      Move(r, Ended);
    }

    method Drop(key: string)
      modifies `cache, `now
      ensures Takes(env, old(Here()), Evict(key), Here())
    {
      cache := cache - {key};
      now := now + 1;
    }

    method Perform(step: Step)
      requires Valid() && Enabled(Here(), step)
      modifies this
      ensures Valid() && Here() == Next(env, old(Here()), step) && Goes(old(worlds), worlds)
    {
      match step {
        case Ingest(s) => IngestStep(s);
        case Ask(r, question, history, noCache) => Begin(r, question, history, noCache);
        case ReadVersion(r, stats, second) => Fingerprint(r, stats, second);
        case Lookup(r, reachable) => GetAnswer(r, reachable);
        case Search(r, found) => Retrieve(r, found);
        case Generate(r, answer) => Stream(r, answer);
        case Put(r, ok) => PutAnswer(r, ok);
        case Evict(key) => Drop(key);
      }
      Record(step);
    }

    /** Everybody else: workers, other requests, evictions. Steps that cannot be taken are skipped. */
    method Elsewhere(moves: seq<Step>, r: RequestId)
      requires Valid() && r in requests
      modifies this
      ensures Valid() && r in requests && requests[r] == old(requests)[r] && Goes(old(worlds), worlds)
      ensures moves == [] ==> Here() == old(Here())
    {
      for i := 0 to |moves|
        invariant Valid() && r in requests && requests[r] == old(requests)[r] && Goes(old(worlds), worlds)
        invariant i == 0 ==> Here() == old(Here())
      {
        if Enabled(Here(), moves[i]) && !Concerns(moves[i], r) {
          OthersLeaveRequest(env, Here(), moves[i], r);
          Perform(moves[i]);
        }
      }
    }

    // ---------------------------------------------------------------- Answer

    method LookUp(r: RequestId, reachable: bool) returns (hit: bool)
      requires Valid() && StageOf(Here(), r).Keyed?
      modifies this
      ensures Valid() && Goes(old(worlds), worlds) && r in requests && cache == old(cache)
      ensures var q := old(requests)[r]; var key := KeyOf(env, q, q.stage.version);
        && hit == (Cacheable(q) && reachable && key in cache)
        && requests[r] == q.(stage := if hit then Hit(q.stage.version, q.stage.readAt, cache[key])
                                      else Missed(q.stage.version, q.stage.readAt))
    {
      Perform(Lookup(r, reachable));
      hit := requests[r].stage.Hit?;
    }

    lemma ClockRight()
      requires Valid()
      ensures now == |steps|
    {
      CorpusStaysGood(env, worlds, steps, |steps|);
    }

    /** From the start of a request to its fingerprint. */
    method AskAndRead(r: RequestId, question: string, history: seq<string>, noCache: bool, luck: Luck)
      requires Valid() && r !in requests
      modifies this
      ensures Valid() && Goes(old(worlds), worlds) && StageOf(Here(), r).Keyed?
      ensures requests[r] == Request(question, history, noCache, requests[r].stage)
      ensures |old(worlds)| <= requests[r].stage.readAt && requests[r].stage.version.Known? == luck.stats.Some?
      ensures luck.others(0) == [] ==>
        cache == old(cache) && requests[r].stage.version == VersionNow(old(corpus), luck.stats, luck.second)
    {
      Perform(Ask(r, question, history, noCache));
      Elsewhere(luck.others(0), r);
      ClockRight();
      Perform(ReadVersion(r, luck.stats, luck.second));
    }

    /** From the start of a request to its lookup. */
    method AskAndLookUp(r: RequestId, question: string, history: seq<string>, noCache: bool, luck: Luck)
      returns (hit: bool)
      requires Valid() && r !in requests
      modifies this
      ensures Valid() && Goes(old(worlds), worlds) && r in requests
      ensures requests[r] == Request(question, history, noCache, requests[r].stage)
      ensures if hit then requests[r].stage.Hit? else requests[r].stage.Missed?
      ensures |old(worlds)| <= requests[r].stage.readAt && requests[r].stage.version.Known? == luck.stats.Some?
      ensures hit <==>
        history == [] && !noCache && luck.reachable && KeyOf(env, requests[r], requests[r].stage.version) in cache
      ensures hit ==> requests[r].stage.entry == cache[KeyOf(env, requests[r], requests[r].stage.version)]
      ensures luck.others(0) == [] && luck.others(1) == [] ==>
        cache == old(cache) && requests[r].stage.version == VersionNow(old(corpus), luck.stats, luck.second)
    {
      AskAndRead(r, question, history, noCache, luck);
      Elsewhere(luck.others(1), r);
      hit := LookUp(r, luck.reachable);
    }

    /** The search, which finds nothing in an empty corpus. */
    method SearchNow(r: RequestId, luck: Luck) returns (found: Option<bool>)
      requires Valid() && StageOf(Here(), r).Missed?
      modifies this
      ensures Valid() && Goes(old(worlds), worlds) && r in requests
      ensures found == luck.found || (luck.found == Some(true) && found == Some(false))
      ensures old(corpus).chunks != map[] ==> found == luck.found
      ensures var q := old(requests)[r];
        found == Some(true) ==>
          requests[r].stage.Found? && requests[r].stage.searchAt >= |old(worlds)| - 1
          && requests[r] == q.(stage := Found(q.stage.version, q.stage.readAt, requests[r].stage.searchAt))
    {
      ghost var before: nat := |steps|;
      Elsewhere(luck.others(2), r);
      if worlds[before].corpus.chunks != map[] {
        StaysStocked(env, worlds, steps, before);
      }
      found := if luck.found == Some(true) && corpus.chunks == map[] then Some(false) else luck.found;
      ClockRight();
      Perform(Search(r, found));
    }

    /** Generation and the put. */
    method GenerateAndPut(r: RequestId, luck: Luck) returns (reply: Reply)
      requires Valid() && StageOf(Here(), r).Found?
      modifies this
      ensures Valid() && Goes(old(worlds), worlds)
      ensures reply == Outcome(luck)
      ensures var q := old(requests)[r];
        reply.Fresh? && Cacheable(q) && luck.stored ==>
          Remembered(env, cache, q.question, q.stage.version, reply.answer)
    {
      ghost var q := requests[r];
      Elsewhere(luck.others(3), r);
      Perform(Generate(r, luck.answer));
      if luck.answer.None? {
        return Failed;
      }
      Elsewhere(luck.others(4), r);
      Perform(Put(r, luck.stored));
      reply := Fresh(luck.answer.value);
    }

    method OnMiss(r: RequestId, luck: Luck) returns (reply: Reply)
      requires Valid() && StageOf(Here(), r).Missed?
      modifies this
      ensures Valid() && Goes(old(worlds), worlds) && FitsMiss(luck, old(corpus).chunks != map[], reply)
      ensures var q := old(requests)[r];
        reply.Fresh? && Cacheable(q) && luck.stored ==>
          Remembered(env, cache, q.question, q.stage.version, reply.answer)
    {
      var found := SearchNow(r, luck);
      if found == Some(true) {
        reply := GenerateAndPut(r, luck);
      } else {
        reply := if found.None? then Failed else Refused;
      }
    }

    /** The call behind its checks. */
    method Respond(r: RequestId, q: string, history: seq<string>, noCache: bool, luck: Luck) returns (reply: Reply)
      requires Valid() && r !in requests
      modifies this
      ensures Valid() && Goes(old(worlds), worlds)
      ensures reply.Cached? ==>
        history == [] && !noCache && Honest(al, worlds, |old(worlds)| - 1, q, luck.stats.Some?, reply.entry)
      ensures !reply.Cached? ==> FitsMiss(luck, old(corpus).chunks != map[], reply)
      ensures var key := env.key(q, VersionNow(old(corpus), luck.stats, luck.second));
        (luck.others(0) == [] && luck.others(1) == []) ==>
          if history == [] && !noCache && luck.reachable && key in old(cache) then reply == Cached(old(cache)[key])
          else !reply.Cached?
      ensures reply.Fresh? && history == [] && !noCache && luck.stored ==>
        exists version: Version :: version.Known? == luck.stats.Some?
          && Remembered(env, cache, q, version, reply.answer)
    {
      ghost var start: nat := |worlds| - 1;
      var hit := AskAndLookUp(r, q, history, noCache, luck);
      if hit {
        HitsAreHonest(env, al, worlds, steps, start, r);
        reply := Cached(requests[r].stage.entry);
      } else {
        ghost var version := requests[r].stage.version;
        if old(corpus).chunks != map[] {
          StaysStocked(env, worlds, steps, start);
        }
        reply := OnMiss(r, luck);
        assert version.Known? == luck.stats.Some?;
      }
    }

    /**
     * One call of Answer. A cached reply was given to the same normalized question without any history, and if this
     * call could read the corpus fingerprint, it was searched for in a corpus that held everything stored when
     * this call began, whatever was ingested before, meanwhile or after.
     */
    method Answer(r: RequestId, question: string, history: seq<string>, noCache: bool, luck: Luck)
      returns (reply: Reply)
      requires Valid() && r !in requests
      modifies this
      ensures Valid() && Goes(old(worlds), worlds)
      ensures Trim(question, IsGoSpace) == "" || !luck.allowed ==> reply.Failed? && Here() == old(Here())
      ensures reply.Cached? ==>
        history == [] && !noCache
        && Honest(al, worlds, |old(worlds)| - 1, Trim(question, IsGoSpace), luck.stats.Some?, reply.entry)
      ensures Trim(question, IsGoSpace) != "" && luck.allowed && !reply.Cached? ==>
        FitsMiss(luck, old(corpus).chunks != map[], reply)
      ensures
        var q := Trim(question, IsGoSpace);
        var key := env.key(q, VersionNow(old(corpus), luck.stats, luck.second));
        (q != "" && luck.allowed && luck.others(0) == [] && luck.others(1) == []) ==>
          if history == [] && !noCache && luck.reachable && key in old(cache) then reply == Cached(old(cache)[key])
          else !reply.Cached?
      ensures reply.Fresh? && history == [] && !noCache && luck.stored ==>
        exists version: Version :: version.Known? == luck.stats.Some?
          && Remembered(env, cache, Trim(question, IsGoSpace), version, reply.answer)
    {
      var q := Trim(question, IsGoSpace);
      if q == "" || !luck.allowed {
        return Failed;
      }
      reply := Respond(r, q, history, noCache, luck);
    }
  }
}
