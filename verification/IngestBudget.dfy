/** How much work a document can cause: a publish, a crash or a doubled delivery pays for every run of a job. */
module IngestBudget {
  import opened Wrappers
  import opened IngestProtocol
  import opened IngestSafety
  import opened Totals

  // ---------------------------------------------------------------- what an uncommitted job may still cost

  /** The runs left to a job: max_attempts + 1 - attempt, and one for a malformed entry. */
  function Credit(env: Env, job: Job): (c: nat)
    ensures 1 <= c <= Top(env)
  {
    if job.doc.Some? && 1 <= job.attempt <= Top(env) then Top(env) + 1 - job.attempt else 1
  }

  function Owed(env: Env, jobs: seq<Job>): nat {
    if jobs == [] then 0 else Credit(env, jobs[0]) + Owed(env, jobs[1..])
  }

  lemma {:induction false} OwedAppend(env: Env, jobs: seq<Job>, job: Job)
    ensures Owed(env, jobs + [job]) == Owed(env, jobs) + Credit(env, job)
  {
    if jobs == [] {
      assert [] + [job] == [job];
    } else {
      OwedAppend(env, jobs[1..], job);
      assert (jobs + [job])[1..] == jobs[1..] + [job];
    }
  }

  /** What a worker may still cause: the runs left to the retry it may send. */
  function WorkerCost(env: Env, ph: Phase): nat {
    if ph == Idle || ph.Handled? then 0 else Credit(env, ph.job) - 1
  }

  function WorkerCosts(env: Env, workers: map<WorkerId, Phase>): map<WorkerId, nat> {
    map w | w in workers :: WorkerCost(env, workers[w])
  }

  /** Some worker is on the job that is due on the partition. */
  ghost predicate Held(s: State, p: nat)
    requires p < |s.parts|
  {
    exists w :: PhaseOf(s, w) != Idle && PhaseOf(s, w).at == Slot(p, s.parts[p].committed)
  }

  /** What the uncommitted jobs of a partition may still cost; a first one that is held is its workers' cost. */
  function Cost(env: Env, due: seq<Job>, held: bool): nat {
    if due == [] then 0 else if held then Owed(env, due[1..]) else Owed(env, due)
  }

  function Due(s: State, p: nat): seq<Job>
    requires p < |s.parts| && s.parts[p].committed <= |s.parts[p].log|
  {
    s.parts[p].log[s.parts[p].committed..]
  }

  ghost function CostOf(env: Env, s: State, p: nat): nat
    requires Good(env, s) && p < |s.parts|
  {
    Cost(env, Due(s, p), Held(s, p))
  }

  ghost function Backlog(env: Env, s: State, n: nat): nat
    requires Good(env, s) && n <= |s.parts|
  {
    if n == 0 then 0 else Backlog(env, s, n - 1) + CostOf(env, s, n - 1)
  }

  ghost function TotalBacklog(env: Env, s: State): nat
    requires Good(env, s)
  {
    Backlog(env, s, |s.parts|) + Total(WorkerCosts(env, s.workers))
  }

  lemma {:induction false} SameBacklog(env: Env, s: State, t: State, n: nat)
    requires Good(env, s) && Good(env, t) && |s.parts| == |t.parts| && n <= |s.parts|
    requires forall p: nat :: p < n ==> CostOf(env, t, p) == CostOf(env, s, p)
    ensures Backlog(env, t, n) == Backlog(env, s, n)
  {
    if n > 0 {
      SameBacklog(env, s, t, n - 1);
      assert CostOf(env, t, n - 1) == CostOf(env, s, n - 1);
    }
  }

  lemma {:induction false} OneCostChanges(env: Env, s: State, t: State, p: nat, n: nat)
    requires Good(env, s) && Good(env, t) && |s.parts| == |t.parts| && p < n <= |s.parts|
    requires forall q: nat :: q < n && q != p ==> CostOf(env, t, q) == CostOf(env, s, q)
    ensures Backlog(env, t, n) - Backlog(env, s, n) == CostOf(env, t, p) - CostOf(env, s, p)
  {
    if n - 1 == p {
      SameBacklog(env, s, t, n - 1);
    } else {
      OneCostChanges(env, s, t, p, n - 1);
      assert CostOf(env, t, n - 1) == CostOf(env, s, n - 1);
    }
  }

  // ---------------------------------------------------------------- one worker moves

  lemma OtherCostsSame(env: Env, workers: map<WorkerId, Phase>, w: WorkerId, ph: Phase)
    ensures WorkerCosts(env, workers[w := ph]) - {w} == WorkerCosts(env, workers) - {w}
  {
    var m, n := WorkerCosts(env, workers) - {w}, WorkerCosts(env, workers[w := ph]) - {w};
    SameMaps(m, n);
  }

  lemma WorkerMoves(env: Env, workers: map<WorkerId, Phase>, w: WorkerId, ph: Phase)
    ensures var before := if w in workers then workers[w] else Idle;
      Total(WorkerCosts(env, workers[w := ph])) ==
      Total(WorkerCosts(env, workers)) - WorkerCost(env, before) + WorkerCost(env, ph)
  {
    var m, n := WorkerCosts(env, workers), WorkerCosts(env, workers[w := ph]);
    TotalGet(m, w);
    TotalGet(n, w);
    OtherCostsSame(env, workers, w, ph);
  }

  lemma HeldSame(s: State, t: State, w: WorkerId, p: nat)
    requires p < |s.parts| == |t.parts| && t.parts[p].committed == s.parts[p].committed
    requires forall v :: v != w ==> PhaseOf(t, v) == PhaseOf(s, v)
    requires var x := Slot(p, s.parts[p].committed);
      (PhaseOf(s, w) != Idle && PhaseOf(s, w).at == x) == (PhaseOf(t, w) != Idle && PhaseOf(t, w).at == x)
    ensures Held(t, p) == Held(s, p)
  {
    var x := Slot(p, s.parts[p].committed);
    if Held(s, p) {
      var v :| PhaseOf(s, v) != Idle && PhaseOf(s, v).at == x;
      assert PhaseOf(t, v) != Idle && PhaseOf(t, v).at == x;
    }
    if Held(t, p) {
      var v :| PhaseOf(t, v) != Idle && PhaseOf(t, v).at == x;
      assert PhaseOf(s, v) != Idle && PhaseOf(s, v).at == x;
    }
  }

  /** A worker that keeps its job spends nothing but what finishing it leaves out. */
  lemma ProgressSpends(env: Env, s: State, t: State, w: WorkerId, ph: Phase)
    requires Good(env, s) && Good(env, t) && t.parts == s.parts && t.workers == s.workers[w := ph]
    requires PhaseOf(s, w) != Idle && ph != Idle && ph.at == PhaseOf(s, w).at
    ensures TotalBacklog(env, t) == TotalBacklog(env, s) - WorkerCost(env, PhaseOf(s, w)) + WorkerCost(env, ph)
  {
    forall q: nat | q < |s.parts|
      ensures CostOf(env, t, q) == CostOf(env, s, q)
    {
      HeldSame(s, t, w, q);
    }
    SameBacklog(env, s, t, |s.parts|);
    WorkerMoves(env, s.workers, w, ph);
  }

  /** Only the cost of one partition changes with a worker that takes or leaves a job there. */
  lemma SlotsChangeAt(env: Env, s: State, t: State, w: WorkerId, p: nat)
    requires Good(env, s) && Good(env, t) && |t.parts| == |s.parts| && p < |s.parts|
    requires forall q :: 0 <= q < |s.parts| && q != p ==> t.parts[q] == s.parts[q]
    requires forall v :: v != w ==> PhaseOf(t, v) == PhaseOf(s, v)
    requires PhaseOf(s, w) != Idle ==> PhaseOf(s, w).at.partition == p
    requires PhaseOf(t, w) != Idle ==> PhaseOf(t, w).at.partition == p
    ensures Backlog(env, t, |s.parts|) - Backlog(env, s, |s.parts|) == CostOf(env, t, p) - CostOf(env, s, p)
  {
    forall q: nat | q < |s.parts| && q != p
      ensures CostOf(env, t, q) == CostOf(env, s, q)
    {
      HeldSame(s, t, w, q);
    }
    OneCostChanges(env, s, t, p, |s.parts|);
  }

  lemma DeliverSpends(env: Env, s: State, w: WorkerId, p: nat)
    requires Good(env, s) && Enabled(s, Deliver(w, p)) && Good(env, Next(env, s, Deliver(w, p)))
    ensures TotalBacklog(env, Next(env, s, Deliver(w, p))) + 1 ==
      TotalBacklog(env, s) + if Held(s, p) then Credit(env, Due(s, p)[0]) else 0
  {
    var t := Next(env, s, Deliver(w, p));
    assert PhaseOf(t, w).at == Slot(p, t.parts[p].committed);
    assert Held(t, p);
    SlotsChangeAt(env, s, t, w, p);
    WorkerMoves(env, s.workers, w, PhaseOf(t, w));
  }

  lemma CrashOwes(env: Env, s: State, w: WorkerId)
    requires Good(env, s) && Good(env, At(s, w, Idle))
    ensures TotalBacklog(env, At(s, w, Idle)) <= TotalBacklog(env, s) + Top(env)
  {
    var t := At(s, w, Idle);
    WorkerMoves(env, s.workers, w, Idle);
    assert PhaseGood(env, s, PhaseOf(s, w));
    if PhaseOf(s, w) == Idle {
      forall q: nat | q < |s.parts|
        ensures CostOf(env, t, q) == CostOf(env, s, q)
      {
        HeldSame(s, t, w, q);
      }
      SameBacklog(env, s, t, |s.parts|);
    } else {
      SlotsChangeAt(env, s, t, w, PhaseOf(s, w).at.partition);
    }
  }

  // ---------------------------------------------------------------- messages come and go

  lemma CostAppend(env: Env, due: seq<Job>, job: Job, held: bool)
    requires due == [] ==> !held
    ensures Cost(env, due + [job], held) == Cost(env, due, held) + Credit(env, job)
  {
    OwedAppend(env, due, job);
    if due != [] {
      OwedAppend(env, due[1..], job);
      assert (due + [job])[1..] == due[1..] + [job];
    }
  }

  /** A job that is held is there. */
  lemma HeldIsDue(env: Env, s: State, p: nat)
    requires Good(env, s) && p < |s.parts| && Held(s, p)
    ensures Due(s, p) != []
  {
    var w :| PhaseOf(s, w) != Idle && PhaseOf(s, w).at == Slot(p, s.parts[p].committed);
    assert PhaseGood(env, s, PhaseOf(s, w));
  }

  lemma SameWorkersHold(s: State, t: State, q: nat)
    requires q < |s.parts| == |t.parts| && t.workers == s.workers && t.parts[q].committed == s.parts[q].committed
    ensures Held(t, q) == Held(s, q)
  {
    assert forall v :: PhaseOf(t, v) == PhaseOf(s, v);
    HeldSame(s, t, 0, q);
  }

  lemma AppendOwes(env: Env, s: State, t: State, p: nat, job: Job)
    requires Good(env, s) && Good(env, t) && p < |s.parts| && t.workers == s.workers
    requires t.parts == Append(s, p, job).parts
    ensures TotalBacklog(env, t) == TotalBacklog(env, s) + Credit(env, job)
  {
    forall q: nat | q < |s.parts|
      ensures Held(t, q) == Held(s, q)
    {
      SameWorkersHold(s, t, q);
    }
    forall q: nat | q < |s.parts| && q != p
      ensures CostOf(env, t, q) == CostOf(env, s, q)
    {
    }
    OneCostChanges(env, s, t, p, |s.parts|);
    if Held(s, p) {
      HeldIsDue(env, s, p);
    }
    CostAppend(env, Due(s, p), job, Held(s, p));
    assert Due(t, p) == Due(s, p) + [job];
  }

  lemma CreateSpends(env: Env, s: State, t: State)
    requires Good(env, s) && Good(env, t) && t.parts == s.parts && t.workers == s.workers
    ensures TotalBacklog(env, t) == TotalBacklog(env, s)
  {
    forall q: nat | q < |s.parts|
      ensures CostOf(env, t, q) == CostOf(env, s, q)
    {
      SameWorkersHold(s, t, q);
    }
    SameBacklog(env, s, t, |s.parts|);
  }

  lemma NobodyAhead(env: Env, s: State, p: nat, offset: nat)
    requires Good(env, s) && p < |s.parts| && offset > s.parts[p].committed
    ensures forall w :: PhaseOf(s, w) != Idle ==> PhaseOf(s, w).at != Slot(p, offset)
  {
    forall w | PhaseOf(s, w) != Idle
      ensures PhaseOf(s, w).at != Slot(p, offset)
    {
      assert PhaseGood(env, s, PhaseOf(s, w));
    }
  }

  lemma AcceptedCommitSpends(env: Env, s: State, w: WorkerId)
    requires Good(env, s) && Enabled(s, CommitOffset(w)) && Good(env, CommitStep(s, w))
    requires s.parts[PhaseOf(s, w).at.partition].committed == PhaseOf(s, w).at.offset
    ensures TotalBacklog(env, CommitStep(s, w)) == TotalBacklog(env, s)
  {
    var t := CommitStep(s, w);
    var p := PhaseOf(s, w).at.partition;
    assert PhaseGood(env, s, PhaseOf(s, w));
    assert Held(s, p) by {
      assert PhaseOf(s, w).at == Slot(p, s.parts[p].committed);
    }
    NobodyAhead(env, s, p, s.parts[p].committed + 1);
    assert !Held(t, p) by {
      assert forall v :: v != w ==> PhaseOf(t, v) == PhaseOf(s, v);
    }
    SlotsChangeAt(env, s, t, w, p);
    assert Due(t, p) == Due(s, p)[1..];
    WorkerMoves(env, s.workers, w, Idle);
  }

  lemma CommitSpends(env: Env, s: State, w: WorkerId)
    requires Good(env, s) && Enabled(s, CommitOffset(w)) && Good(env, CommitStep(s, w))
    ensures TotalBacklog(env, CommitStep(s, w)) == TotalBacklog(env, s)
  {
    var t := CommitStep(s, w);
    if s.parts[PhaseOf(s, w).at.partition].committed == PhaseOf(s, w).at.offset {
      AcceptedCommitSpends(env, s, w);
    } else {
      forall q: nat | q < |s.parts|
        ensures CostOf(env, t, q) == CostOf(env, s, q)
      {
        HeldSame(s, t, w, q);
      }
      SameBacklog(env, s, t, |s.parts|);
      WorkerMoves(env, s.workers, w, Idle);
    }
  }

  lemma SendSpends(env: Env, s: State, w: WorkerId, p: nat)
    requires Good(env, s) && Enabled(s, Send(w, p)) && Good(env, SendStep(env, s, w, p))
    ensures TotalBacklog(env, SendStep(env, s, w, p)) <= TotalBacklog(env, s)
  {
    var ph := PhaseOf(s, w);
    var next := Handled(ph.at, ph.job);
    var t := SendStep(env, s, w, p);
    assert PhaseGood(env, s, ph) && GoodJob(env, s, JobAt(s, ph.at));
    if ph.job.attempt < env.maxAttempts {
      var u := At(s, w, next);
      MoveStaysGood(env, s, w, next);
      ProgressSpends(env, s, u, w, next);
      AppendOwes(env, u, t, p, ph.job.(attempt := ph.job.attempt + 1));
    } else {
      ProgressSpends(env, s, t, w, next);
    }
  }

  lemma WorkSpends(env: Env, s: State, step: Step)
    requires Good(env, s) && Enabled(s, step) && Good(env, Next(env, s, step))
    requires step.Load? || step.SetStatus? || step.Split? || step.Write? || step.RecordFailure?
    ensures TotalBacklog(env, Next(env, s, step)) <= TotalBacklog(env, s)
  {
    ProgressSpends(env, s, Next(env, s, step), step.w, PhaseOf(Next(env, s, step), step.w));
  }

  // ---------------------------------------------------------------- over a whole run

  /** What a step adds to the runs that may still come; only a delivery of a job that is held adds any by itself. */
  ghost function Allowance(env: Env, s: State, step: Step): nat {
    match step
    case Publish(d, p) => Top(env)
    case PublishMalformed(p, attempt) => 1
    case Crash(w) => Top(env)
    case Deliver(w, p) => if p < |s.parts| && Held(s, p) then Top(env) else 0
    case _ => 0
  }

  function Deliveries(steps: seq<Step>): nat {
    if steps == [] then 0
    else Deliveries(steps[..|steps| - 1]) + if steps[|steps| - 1].Deliver? then 1 else 0
  }

  ghost function Allowances(env: Env, states: seq<State>, steps: seq<Step>, n: nat): nat
    requires n <= |steps| < |states|
  {
    if n == 0 then 0 else Allowances(env, states, steps, n - 1) + Allowance(env, states[n - 1], steps[n - 1])
  }

  lemma StepSpends(env: Env, s: State, step: Step)
    requires Good(env, s) && Enabled(s, step) && Good(env, Next(env, s, step))
    ensures TotalBacklog(env, Next(env, s, step)) + (if step.Deliver? then 1 else 0)
              <= TotalBacklog(env, s) + Allowance(env, s, step)
  {
    var t := Next(env, s, step);
    match step
    case Create(d, raw) => CreateSpends(env, s, t);
    case Publish(d, p) => AppendOwes(env, s, t, p, Job(Some(d), 1));
    case PublishMalformed(p, attempt) => AppendOwes(env, s, t, p, Job(None, attempt));
    case Deliver(w, p) => DeliverSpends(env, s, w, p);
    case Send(w, p) => SendSpends(env, s, w, p);
    case CommitOffset(w) => CommitSpends(env, s, w);
    case Crash(w) => CrashOwes(env, s, w);
    case _ => WorkSpends(env, s, step);
  }

  lemma {:induction false} StartsWithNothing(env: Env, s: State, n: nat)
    requires Init(s) && Good(env, s) && n <= |s.parts|
    ensures Backlog(env, s, n) == 0 && Total(WorkerCosts(env, s.workers)) == 0
  {
    if n > 0 {
      StartsWithNothing(env, s, n - 1);
      assert s.parts[n - 1] == Partition([], 0);
    }
    assert WorkerCosts(env, s.workers) == map[];
  }

  lemma {:induction false} RunSpends(env: Env, states: seq<State>, steps: seq<Step>, n: nat)
    requires IsRun(env, states, steps) && n <= |steps|
    ensures Good(env, states[n])
    ensures Deliveries(steps[..n]) + TotalBacklog(env, states[n]) <= Allowances(env, states, steps, n)
  {
    RunKeepsNoLoss(env, states, steps, n);
    if n == 0 {
      StartsWithNothing(env, states[0], |states[0].parts|);
    } else {
      RunSpends(env, states, steps, n - 1);
      assert states[n - 1 + 1] == Next(env, states[n - 1], steps[n - 1]);
      StepSpends(env, states[n - 1], steps[n - 1]);
      assert steps[..n][..n - 1] == steps[..n - 1];
    }
  }

  /**
   * In every run, jobs are delivered at most max_attempts times for every job published, once for every malformed
   * entry, and at most max_attempts times more for every crash and for every delivery of a job that is still held.
   */
  lemma RunsAreBounded(env: Env, states: seq<State>, steps: seq<Step>)
    requires IsRun(env, states, steps)
    ensures Deliveries(steps) <= Allowances(env, states, steps, |steps|)
  {
    RunSpends(env, states, steps, |steps|);
    assert steps[..|steps|] == steps;
  }
}
