/**
 * Runs in which no job is delivered while another live worker still holds it: these settle every
 * document. A run with a redelivery to a second worker may leave a document chunking for good.
 */
module IngestExclusive {
  import opened Wrappers
  import opened Chunking
  import opened IngestProtocol
  import opened IngestSafety
  import opened IngestSettling

  // ---------------------------------------------------------------- one holder at a time

  /** A delivery hands out a job that no live worker holds. */
  ghost predicate Sole(s: State, step: Step) {
    step.Deliver? && step.p < |s.parts| ==>
      forall v :: PhaseOf(s, v) != Idle ==> PhaseOf(s, v).at != Slot(step.p, s.parts[step.p].committed)
  }

  ghost predicate AllSole(states: seq<State>, steps: seq<Step>)
    requires |states| == |steps| + 1
  {
    forall i :: 0 <= i < |steps| ==> Sole(states[i], steps[i])
  }

  predicate HoldsDue(s: State, ph: Phase) {
    ph != Idle ==> ph.at.partition < |s.parts| && s.parts[ph.at.partition].committed == ph.at.offset
  }

  predicate Apart(ph: Phase, other: Phase) { ph != Idle && other != Idle ==> ph.at.partition != other.at.partition }

  /** Every busy worker holds the job that is due on a partition of its own. */
  ghost predicate Exclusive(s: State) {
    && (forall w :: HoldsDue(s, PhaseOf(s, w)))
    && (forall v, w :: v != w ==> Apart(PhaseOf(s, v), PhaseOf(s, w)))
  }

  lemma MoveStaysExclusive(s: State, t: State, w: WorkerId, ph: Phase)
    requires Exclusive(s) && t.workers == s.workers[w := ph] && HoldsDue(t, ph)
    requires forall v :: v != w ==> HoldsDue(t, PhaseOf(s, v))
    requires forall v :: v != w ==> Apart(PhaseOf(s, v), ph)
    ensures Exclusive(t)
  {
    forall v
      ensures HoldsDue(t, PhaseOf(t, v))
    {
      assert v != w ==> PhaseOf(t, v) == PhaseOf(s, v);
    }
    forall u, v | u != v
      ensures Apart(PhaseOf(t, u), PhaseOf(t, v))
    {
      assert Apart(PhaseOf(s, u), PhaseOf(s, v));
      assert u != w ==> Apart(PhaseOf(s, u), ph);
      assert v != w ==> Apart(PhaseOf(s, v), ph);
    }
  }

  /** A worker that keeps its slot or lets it go, while nothing is committed. */
  lemma KeptSlotStaysExclusive(s: State, t: State, w: WorkerId, ph: Phase)
    requires Exclusive(s) && NoneCommitted(s, t) && t.workers == s.workers[w := ph]
    requires ph == Idle || (PhaseOf(s, w) != Idle && ph.at == PhaseOf(s, w).at)
    ensures Exclusive(t)
  {
    assert HoldsDue(s, PhaseOf(s, w));
    forall v | v != w
      ensures HoldsDue(t, PhaseOf(s, v)) && Apart(PhaseOf(s, v), ph)
    {
      assert HoldsDue(s, PhaseOf(s, v)) && Apart(PhaseOf(s, v), PhaseOf(s, w));
    }
    MoveStaysExclusive(s, t, w, ph);
  }

  lemma NobodyMovesExclusive(s: State, t: State)
    requires Exclusive(s) && NoneCommitted(s, t) && t.workers == s.workers
    ensures Exclusive(t)
  {
    forall v
      ensures HoldsDue(t, PhaseOf(t, v))
    {
      assert HoldsDue(s, PhaseOf(s, v));
    }
    forall u, v | u != v
      ensures Apart(PhaseOf(t, u), PhaseOf(t, v))
    {
      assert Apart(PhaseOf(s, u), PhaseOf(s, v));
    }
  }

  lemma CommitStaysExclusive(s: State, w: WorkerId)
    requires Exclusive(s) && Enabled(s, CommitOffset(w))
    ensures Exclusive(CommitStep(s, w))
  {
    assert HoldsDue(s, PhaseOf(s, w));
    forall v | v != w
      ensures HoldsDue(CommitStep(s, w), PhaseOf(s, v)) && Apart(PhaseOf(s, v), Idle)
    {
      assert HoldsDue(s, PhaseOf(s, v)) && Apart(PhaseOf(s, v), PhaseOf(s, w));
    }
    MoveStaysExclusive(s, CommitStep(s, w), w, Idle);
  }

  lemma DeliverStaysExclusive(env: Env, s: State, w: WorkerId, p: nat)
    requires Exclusive(s) && Enabled(s, Deliver(w, p)) && Sole(s, Deliver(w, p))
    ensures Exclusive(Next(env, s, Deliver(w, p)))
  {
    var t := Next(env, s, Deliver(w, p));
    forall v | v != w
      ensures HoldsDue(t, PhaseOf(s, v)) && Apart(PhaseOf(s, v), PhaseOf(t, w))
    {
      assert HoldsDue(s, PhaseOf(s, v));
    }
    MoveStaysExclusive(s, t, w, PhaseOf(t, w));
  }

  lemma StepStaysExclusive(env: Env, s: State, step: Step)
    requires Exclusive(s) && Enabled(s, step) && Sole(s, step)
    ensures Exclusive(Next(env, s, step))
  {
    var t := Next(env, s, step);
    match step
    case Create(d, raw) => NobodyMovesExclusive(s, t);
    case Publish(d, p) => NobodyMovesExclusive(s, t);
    case PublishMalformed(p, attempt) => NobodyMovesExclusive(s, t);
    case CommitOffset(w) => CommitStaysExclusive(s, w);
    case Deliver(w, p) => DeliverStaysExclusive(env, s, w, p);
    case _ => KeptSlotStaysExclusive(s, t, step.w, PhaseOf(t, step.w));
  }

  lemma NobodyIsOrphaned(env: Env, s: State, w: WorkerId)
    requires Exclusive(s) && Good(env, s)
    ensures !Orphaned(s, w)
  {
    assert HoldsDue(s, PhaseOf(s, w)) && PhaseGood(env, s, PhaseOf(s, w));
    forall v | v != w && PastVerdict(PhaseOf(s, v))
      ensures PhaseOf(s, w) == Idle || PhaseOf(s, v).at != PhaseOf(s, w).at
    {
      assert Apart(PhaseOf(s, v), PhaseOf(s, w));
    }
  }

  lemma {:induction false} RunStaysExclusive(env: Env, states: seq<State>, steps: seq<Step>, n: nat)
    requires IsRun(env, states, steps) && n <= |steps| && AllSole(states, steps)
    ensures Exclusive(states[n])
  {
    if n > 0 {
      RunStaysExclusive(env, states, steps, n - 1);
      assert states[n - 1 + 1] == Next(env, states[n - 1], steps[n - 1]) && Sole(states[n - 1], steps[n - 1]);
      StepStaysExclusive(env, states[n - 1], steps[n - 1]);
    }
  }

  /** Every message was committed. */
  ghost predicate Drained(s: State) { forall x :: !Uncommitted(s, x) }

  lemma DrainedIsIdle(env: Env, s: State, w: WorkerId)
    requires Exclusive(s) && Good(env, s) && Drained(s)
    ensures PhaseOf(s, w) == Idle
  {
    var ph := PhaseOf(s, w);
    assert HoldsDue(s, ph) && PhaseGood(env, s, ph);
    if ph != Idle {
      assert Uncommitted(s, ph.at);
    }
  }

  /** Where every worker is alone on its job, nobody is orphaned, so no document is abandoned. */
  lemma NobodyAbandoned(env: Env, states: seq<State>, steps: seq<Step>, n: nat, d: DocId)
    requires IsRun(env, states, steps) && n <= |steps| && AllSole(states, steps)
    ensures !Abandoned(env, states, steps, n, d)
  {
    forall i: nat, j: nat
      ensures !Dropped(states, steps, n, d, i, j)
    {
      if j < n && steps[j].Crash? {
        RunStaysExclusive(env, states, steps, j);
        RunKeepsNoLoss(env, states, steps, j);
        NobodyIsOrphaned(env, states[j], steps[j].w);
      }
    }
  }

  /**
   * Workers may crash anywhere and jobs may run any number of times: if no job is delivered while another
   * worker holds it, then once every message is committed each published document is ready with exactly
   * its own chunks, or failed and dead-lettered.
   */
  lemma ExclusiveRunsSettle(env: Env, states: seq<State>, steps: seq<Step>, n: nat, d: DocId)
    requires IsRun(env, states, steps) && n <= |steps| && AllSole(states, steps)
    requires d in states[n].published && Drained(states[n])
    ensures Settled(env, states[n], d)
    ensures forall w :: PhaseOf(states[n], w) == Idle
  {
    RunStaysExclusive(env, states, steps, n);
    RunKeepsNoLoss(env, states, steps, n);
    forall w
      ensures PhaseOf(states[n], w) == Idle
    {
      DrainedIsIdle(env, states[n], w);
    }
    NobodyAbandoned(env, states, steps, n, d);
    QuietIsSettled(env, states, steps, n, d);
  }

  // ---------------------------------------------------------------- a document left chunking

  ghost predicate AtRest(s: State) { Drained(s) && forall w :: PhaseOf(s, w) == Idle }

  lemma NothingDue(s: State, p: nat)
    requires Drained(s) && p < |s.parts|
    ensures s.parts[p].committed >= |s.parts[p].log|
  {
    assert !Uncommitted(s, Slot(p, s.parts[p].committed));
  }

  /** At rest no worker can do anything: nothing changes a document before somebody publishes a job. */
  lemma RestIsFinal(env: Env, s: State, step: Step, d: DocId)
    requires AtRest(s) && Enabled(s, step) && !step.Publish? && !step.PublishMalformed? && d in s.docs
    ensures AtRest(Next(env, s, step)) && Next(env, s, step).docs[d] == s.docs[d]
  {
    match step
    case Create(e, raw) =>
      var t := Next(env, s, step);
      assert forall w :: PhaseOf(t, w) == PhaseOf(s, w);
      forall x
        ensures !Uncommitted(t, x)
      {
        assert !Uncommitted(s, x);
      }
    case Crash(w) =>
      var t := Next(env, s, step);
      forall v
        ensures PhaseOf(t, v) == Idle
      {
        assert PhaseOf(s, v) == Idle;
      }
      forall x
        ensures !Uncommitted(t, x)
      {
        assert !Uncommitted(s, x);
      }
    case Deliver(w, p) => NothingDue(s, p);
    case _ =>
  }

  /** The state of the run below: one partition with the document's only job, workers 1 and 2. */
  function Scene(doc: Document, chunks: map<DocId, seq<Chunk>>, committed: nat, first: Phase, second: Phase): State {
    State(map[1 := doc], chunks, [Partition([Job(Some(1), 1)], committed)], [], map[1 := first, 2 := second], {1})
  }

  lemma Then(env: Env, states: seq<State>, steps: seq<Step>, step: Step) returns (longer: seq<State>, more: seq<Step>)
    requires IsRun(env, states, steps) && Enabled(states[|steps|], step)
    ensures IsRun(env, longer, more) && longer[|more|] == Next(env, states[|steps|], step)
  {
    RunGoesOn(env, states, steps, step);
    longer, more := states + [Next(env, states[|steps|], step)], steps + [step];
  }

  lemma Queued(env: Env, raw: string) returns (states: seq<State>, steps: seq<Step>)
    ensures IsRun(env, states, steps)
    ensures states[|steps|] ==
      State(map[1 := Document(raw, StatusPending, 0, 0)], map[], [Partition([Job(Some(1), 1)], 0)], [], map[], {1})
  {
    states, steps := [State(map[], map[], [Partition([], 0)], [], map[], {})], [];
    states, steps := Then(env, states, steps, Create(1, raw));
    assert states[|steps|].docs == map[1 := Document(raw, StatusPending, 0, 0)];
    states, steps := Then(env, states, steps, Publish(1, 0));
    assert [] + [Job(Some(1), 1)] == [Job(Some(1), 1)];
    assert states[|steps|].parts == [Partition([Job(Some(1), 1)], 0)] && states[|steps|].published == {1};
  }

  /** Two workers are handed the same job and read the document. */
  lemma BothLoad(env: Env, raw: string) returns (states: seq<State>, steps: seq<Step>)
    requires !env.blank(raw)
    ensures IsRun(env, states, steps)
    ensures states[|steps|] == Scene(Document(raw, StatusPending, 0, 0), map[], 0,
                                     Loaded(Slot(0, 0), Job(Some(1), 1), raw), Loaded(Slot(0, 0), Job(Some(1), 1), raw))
  {
    var job := Job(Some(1), 1);
    states, steps := Queued(env, raw);
    states, steps := Then(env, states, steps, Deliver(1, 0));
    states, steps := Then(env, states, steps, Deliver(2, 0));
    states, steps := Then(env, states, steps, Load(1, true));
    states, steps := Then(env, states, steps, Load(2, true));
    var end := states[|steps|];
    assert end.workers == map[1 := Loaded(Slot(0, 0), job, raw), 2 := Loaded(Slot(0, 0), job, raw)];
  }

  /** The second worker stores the chunks. */
  lemma SecondStores(env: Env, raw: string) returns (states: seq<State>, steps: seq<Step>)
    requires !env.blank(raw) && env.chunk(raw) != []
    ensures IsRun(env, states, steps)
    ensures states[|steps|] == Scene(Document(raw, StatusReady, |env.chunk(raw)|, 0), map[1 := env.chunk(raw)], 0,
                                     Loaded(Slot(0, 0), Job(Some(1), 1), raw), Handled(Slot(0, 0), Job(Some(1), 1)))
  {
    states, steps := BothLoad(env, raw);
    states, steps := Then(env, states, steps, SetStatus(2, true));
    states, steps := Then(env, states, steps, Split(2, true));
    states, steps := Then(env, states, steps, Write(2, Committed));
  }

  /** The second worker finishes and commits the job. */
  lemma SecondFinishes(env: Env, raw: string) returns (states: seq<State>, steps: seq<Step>)
    requires !env.blank(raw) && env.chunk(raw) != []
    ensures IsRun(env, states, steps)
    ensures states[|steps|] == Scene(Document(raw, StatusReady, |env.chunk(raw)|, 0), map[1 := env.chunk(raw)], 1,
                                     Loaded(Slot(0, 0), Job(Some(1), 1), raw), Idle)
  {
    states, steps := SecondStores(env, raw);
    states, steps := Then(env, states, steps, CommitOffset(2));
  }

  /**
   * Without that restriction the promise is false. Whatever the limit and the document: a second worker takes
   * over a job and finishes it while the first one is stalled after reading; the first one then marks the
   * document chunking and dies. Every message is committed, nobody is busy, and the document is chunking.
   */
  lemma ZombieLeavesChunking(env: Env, raw: string) returns (states: seq<State>, steps: seq<Step>)
    requires !env.blank(raw) && env.chunk(raw) != []
    ensures IsRun(env, states, steps)
    ensures var s := states[|steps|];
      1 in s.published && 1 in s.docs && s.docs[1].status == StatusChunking && AtRest(s) && !Settled(env, s, 1)
  {
    states, steps := SecondFinishes(env, raw);
    states, steps := Then(env, states, steps, SetStatus(1, true));
    states, steps := Then(env, states, steps, Crash(1));
  }

  /** A run under that policy that is at rest after n steps. */
  ghost predicate Rests(env: Env, exclusive: bool, states: seq<State>, steps: seq<Step>, n: nat) {
    IsRun(env, states, steps) && n <= |steps| && (exclusive ==> AllSole(states, steps)) && AtRest(states[n])
  }

  ghost predicate AllSettled(env: Env, s: State) { forall d :: d in s.published ==> Settled(env, s, d) }

  ghost predicate AlwaysSettles(env: Env, exclusive: bool) {
    forall states: seq<State>, steps: seq<Step>, n: nat ::
      Rests(env, exclusive, states, steps, n) ==> AllSettled(env, states[n])
  }

  /** Every run settles all its documents exactly when delivery is exclusive, if one document has something to chunk. */
  lemma SettlesIffExclusive(env: Env, exclusive: bool, raw: string)
    requires !env.blank(raw) && env.chunk(raw) != []
    ensures AlwaysSettles(env, exclusive) <==> exclusive
  {
    if exclusive {
      forall states: seq<State>, steps: seq<Step>, n: nat | Rests(env, true, states, steps, n)
        ensures AllSettled(env, states[n])
      {
        forall d | d in states[n].published
          ensures Settled(env, states[n], d)
        {
          ExclusiveRunsSettle(env, states, steps, n, d);
        }
      }
    } else {
      var states, steps := ZombieLeavesChunking(env, raw);
      assert Rests(env, false, states, steps, |steps|) && !AllSettled(env, states[|steps|]);
    }
  }
}
