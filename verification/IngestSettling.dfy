/**
 * How documents settle. In every run, whatever workers, redeliveries and crashes it has, a document at rest is
 * unsettled exactly when the worker that wrote its row last was orphaned and died before giving its verdict.
 */
module IngestSettling {
  import opened Wrappers
  import opened IngestProtocol
  import opened IngestSafety

  // ---------------------------------------------------------------- jobs that will still run

  predicate PastVerdict(ph: Phase) { ph.Sending? || ph.Handled? }

  /** No worker on this job has updated its document for good. */
  ghost predicate Fresh(s: State, x: Slot) { forall w :: PastVerdict(PhaseOf(s, w)) ==> PhaseOf(s, w).at != x }

  ghost predicate FreshJob(s: State, x: Slot, d: DocId) {
    Uncommitted(s, x) && JobAt(s, x).doc == Some(d) && Fresh(s, x)
  }

  /** Some job of the document is yet to give its verdict. */
  ghost predicate WillRun(s: State, d: DocId) { exists x :: FreshJob(s, x, d) }

  lemma FreshStays(s: State, t: State, x: Slot, d: DocId, w: WorkerId)
    requires FreshJob(s, x, d) && Grows(s, t) && Uncommitted(t, x)
    requires forall v :: v != w ==> PhaseOf(t, v) == PhaseOf(s, v)
    requires PastVerdict(PhaseOf(t, w)) ==> PhaseOf(t, w).at != x
    ensures FreshJob(t, x, d)
  {
    assert JobAt(t, x) == JobAt(s, x);
    forall v | PastVerdict(PhaseOf(t, v))
      ensures PhaseOf(t, v).at != x
    {
      assert v != w ==> PastVerdict(PhaseOf(s, v));
    }
  }

  lemma WillRunStays(s: State, t: State, d: DocId, w: WorkerId)
    requires WillRun(s, d) && Grows(s, t) && NoneCommitted(s, t)
    requires forall v :: v != w ==> PhaseOf(t, v) == PhaseOf(s, v)
    requires PastVerdict(PhaseOf(t, w)) ==>
      (!(Uncommitted(s, PhaseOf(t, w).at) && JobAt(s, PhaseOf(t, w).at).doc == Some(d))
       || (PastVerdict(PhaseOf(s, w)) && PhaseOf(s, w).at == PhaseOf(t, w).at))
    ensures WillRun(t, d)
  {
    var x :| FreshJob(s, x, d);
    FreshStays(s, t, x, d, w);
  }

  /** The job committed had its verdict, so no fresh job goes away. */
  lemma CommitKeepsFresh(s: State, w: WorkerId, d: DocId)
    requires Enabled(s, CommitOffset(w)) && Grows(s, CommitStep(s, w)) && WillRun(s, d)
    ensures WillRun(CommitStep(s, w), d)
  {
    var x :| FreshJob(s, x, d);
    assert PastVerdict(PhaseOf(s, w));
    assert Uncommitted(CommitStep(s, w), x);
    FreshStays(s, CommitStep(s, w), x, d, w);
  }

  lemma NobodyMovesRuns(s: State, t: State, d: DocId)
    requires WillRun(s, d) && Grows(s, t) && NoneCommitted(s, t) && t.workers == s.workers
    ensures WillRun(t, d)
  {
    var x :| FreshJob(s, x, d);
    assert PhaseOf(t, 0) == PhaseOf(s, 0);
    FreshStays(s, t, x, d, 0);
  }

  // ---------------------------------------------------------------- writes to a document's row

  /** The step of a worker that writes the row of the document. */
  predicate Touches(s: State, step: Step, d: DocId) {
    ((step.SetStatus? && step.ok) || (step.Write? && step.outcome != Aborted) || step.RecordFailure?)
    && Holds(PhaseOf(s, step.w), d)
  }

  lemma UntouchedStatus(env: Env, s: State, step: Step, d: DocId)
    requires Good(env, s) && Enabled(s, step) && !Touches(s, step, d) && d in s.docs
    ensures d in Next(env, s, step).docs && Next(env, s, step).docs[d].status == s.docs[d].status
  {
    if step.SetStatus? || step.Write? || step.RecordFailure? {
      assert PhaseGood(env, s, PhaseOf(s, step.w));
    }
  }

  /** A worker that does not write the row takes no fresh job of the document past its verdict. */
  lemma UntouchedVerdict(env: Env, s: State, step: Step, d: DocId)
    requires Good(env, s) && Enabled(s, step) && !Touches(s, step, d)
    requires step.Load? || step.SetStatus? || step.Split? || step.Write? || step.RecordFailure?
    ensures var ph := PhaseOf(Next(env, s, step), step.w);
      PastVerdict(ph) ==> !(Uncommitted(s, ph.at) && JobAt(s, ph.at).doc == Some(d))
  {
    assert PhaseGood(env, s, PhaseOf(s, step.w));
  }

  lemma UntouchedMoveRuns(env: Env, s: State, step: Step, d: DocId)
    requires Good(env, s) && Enabled(s, step) && !Touches(s, step, d) && WillRun(s, d)
    requires step.Load? || step.SetStatus? || step.Split? || step.Write? || step.RecordFailure?
    ensures WillRun(Next(env, s, step), d)
  {
    StepGrows(env, s, step);
    UntouchedVerdict(env, s, step, d);
    WillRunStays(s, Next(env, s, step), d, step.w);
  }

  /** Only a write to the row uses a fresh job up. */
  lemma UntouchedRuns(env: Env, s: State, step: Step, d: DocId)
    requires Good(env, s) && Enabled(s, step) && !Touches(s, step, d) && WillRun(s, d)
    ensures WillRun(Next(env, s, step), d)
  {
    var t := Next(env, s, step);
    StepGrows(env, s, step);
    match step
    case Create(e, raw) => NobodyMovesRuns(s, t, d);
    case Publish(e, p) => NobodyMovesRuns(s, t, d);
    case PublishMalformed(p, attempt) => NobodyMovesRuns(s, t, d);
    case CommitOffset(w) => CommitKeepsFresh(s, w, d);
    case Deliver(w, p) => WillRunStays(s, t, d, w);
    case Send(w, p) => WillRunStays(s, t, d, w);
    case Crash(w) => WillRunStays(s, t, d, w);
    case _ => UntouchedMoveRuns(env, s, step, d);
  }

  // ---------------------------------------------------------------- jobs that come back

  lemma NewJobIsFresh(env: Env, s: State, t: State, p: nat, d: DocId)
    requires Good(env, s) && p < |s.parts| && |t.parts| == |s.parts|
    requires Uncommitted(t, Slot(p, |s.parts[p].log|)) && JobAt(t, Slot(p, |s.parts[p].log|)).doc == Some(d)
    requires forall w :: PastVerdict(PhaseOf(t, w)) ==> PhaseOf(s, w) != Idle && PhaseOf(t, w).at == PhaseOf(s, w).at
    ensures WillRun(t, d)
  {
    var x := Slot(p, |s.parts[p].log|);
    forall v | PastVerdict(PhaseOf(t, v))
      ensures PhaseOf(t, v).at != x
    {
      assert PhaseGood(env, s, PhaseOf(s, v));
    }
    assert FreshJob(t, x, d);
  }

  lemma RetryRuns(env: Env, s: State, w: WorkerId, p: nat)
    requires Good(env, s) && Enabled(s, Send(w, p)) && PhaseOf(s, w).job.attempt < env.maxAttempts
    ensures WillRun(SendStep(env, s, w, p), PhaseOf(s, w).job.doc.value)
  {
    var ph := PhaseOf(s, w);
    assert PhaseGood(env, s, ph);
    AppendGrows(s, p, ph.job.(attempt := ph.job.attempt + 1));
    assert s.parts[p].committed <= |s.parts[p].log|;
    NewJobIsFresh(env, s, SendStep(env, s, w, p), p, ph.job.doc.value);
  }

  lemma PublishRuns(env: Env, s: State, d: DocId, p: nat)
    requires Good(env, s) && Enabled(s, Publish(d, p))
    ensures WillRun(Next(env, s, Publish(d, p)), d)
  {
    AppendGrows(s, p, Job(Some(d), 1));
    assert s.parts[p].committed <= |s.parts[p].log|;
    assert forall w :: PhaseOf(Next(env, s, Publish(d, p)), w) == PhaseOf(s, w);
    NewJobIsFresh(env, s, Next(env, s, Publish(d, p)), p, d);
  }

  /** The worker is between its writes, and its job was committed or given a verdict by another worker meanwhile. */
  ghost predicate Orphaned(s: State, w: WorkerId) {
    var ph := PhaseOf(s, w);
    && (ph.Splitting? || ph.Writing? || ph.Failing? || ph.Sending?)
    && (!Uncommitted(s, ph.at) || exists v :: v != w && PastVerdict(PhaseOf(s, v)) && PhaseOf(s, v).at == ph.at)
  }

  /** The job of a worker that dies before it is orphaned runs again. */
  lemma RunsAgain(env: Env, s: State, w: WorkerId)
    requires var ph := PhaseOf(s, w); ph.Splitting? || ph.Writing? || ph.Failing? || ph.Sending?
    requires Good(env, s) && !Orphaned(s, w) && PhaseOf(s, w).job.doc.Some?
    ensures WillRun(At(s, w, Idle), PhaseOf(s, w).job.doc.value)
  {
    var ph := PhaseOf(s, w);
    var t := At(s, w, Idle);
    assert PhaseGood(env, s, ph);
    forall v | PastVerdict(PhaseOf(t, v))
      ensures PhaseOf(t, v).at != ph.at
    {
      assert v != w && PhaseOf(s, v) == PhaseOf(t, v);
    }
    assert FreshJob(t, ph.at, ph.job.doc.value);
  }

  // ---------------------------------------------------------------- the last writer of a row

  /** Step i wrote the row of the document, and no step between it and the nth did. */
  ghost predicate LastTouch(states: seq<State>, steps: seq<Step>, n: nat, d: DocId, i: nat)
    requires n <= |steps| && |states| == |steps| + 1
  {
    i < n && Touches(states[i], steps[i], d) && forall k :: i < k < n ==> !Touches(states[k], steps[k], d)
  }

  /** The worker has not gone on to its verdict since its write: marked, and not failed; or failed, and not sent. */
  predicate Undecided(step: Step, before: Phase, now: Phase) {
    && before != Idle && now != Idle && now.at == before.at && now.job == before.job
    && ((step.SetStatus? && (now.Splitting? || now.Writing? || now.Failing?)) || (step.RecordFailure? && now.Sending?))
  }

  /** Between steps i and m the worker of step i stays undecided. */
  ghost predicate StaysUndecided(states: seq<State>, steps: seq<Step>, d: DocId, i: nat, m: nat)
    requires |states| == |steps| + 1 && i < |steps| && m <= |steps| && Touches(states[i], steps[i], d)
  {
    forall k :: i < k <= m ==>
      Undecided(steps[i], PhaseOf(states[i], steps[i].w), PhaseOf(states[k], steps[i].w))
  }

  /** The last writer of the row is still at it. */
  ghost predicate Open(states: seq<State>, steps: seq<Step>, n: nat, d: DocId, i: nat)
    requires n <= |steps| && |states| == |steps| + 1
  {
    LastTouch(states, steps, n, d, i) && StaysUndecided(states, steps, d, i, n)
  }

  /** The last writer of the row died in step j, undecided and orphaned. */
  ghost predicate Dropped(states: seq<State>, steps: seq<Step>, n: nat, d: DocId, i: nat, j: nat)
    requires n <= |steps| && |states| == |steps| + 1
  {
    && LastTouch(states, steps, n, d, i) && i < j < n && StaysUndecided(states, steps, d, i, j)
    && steps[j] == Crash(steps[i].w) && Orphaned(states[j], steps[i].w)
  }

  /** What accounts for the status of a published document at any moment of a run. */
  ghost predicate Told(states: seq<State>, steps: seq<Step>, n: nat, d: DocId)
    requires n <= |steps| && |states| == |steps| + 1
  {
    var s := states[n];
    d in s.docs
    && (s.docs[d].status == StatusReady || (s.docs[d].status == StatusFailed && InDlq(s, d)) || WillRun(s, d)
        || (exists i: nat :: Open(states, steps, n, d, i))
        || exists i: nat, j: nat :: Dropped(states, steps, n, d, i, j))
  }

  // ---------------------------------------------------------------- a write sets the status

  predicate StatusWritten(env: Env, s: State, step: Step, status: Status)
    requires (step.SetStatus? || step.Write? || step.RecordFailure?) && PhaseOf(s, step.w) != Idle
  {
    if step.SetStatus? then status == StatusChunking
    else if step.Write? then status == StatusReady
    else status == if PhaseOf(s, step.w).job.attempt < env.maxAttempts then StatusPending else StatusFailed
  }

  lemma TouchWrites(env: Env, s: State, step: Step, d: DocId)
    requires Good(env, s) && Enabled(s, step) && Touches(s, step, d)
    ensures d in Next(env, s, step).docs && StatusWritten(env, s, step, Next(env, s, step).docs[d].status)
  {
    assert PhaseGood(env, s, PhaseOf(s, step.w));
  }

  lemma LastTouchBefore(states: seq<State>, steps: seq<Step>, n: nat, d: DocId, i: nat)
    requires n < |steps| && |states| == |steps| + 1 && LastTouch(states, steps, n + 1, d, i) && i != n
    ensures LastTouch(states, steps, n, d, i) && !Touches(states[n], steps[n], d)
  {
  }

  lemma RunStep(env: Env, states: seq<State>, steps: seq<Step>, n: nat)
    requires IsRun(env, states, steps) && n < |steps|
    ensures Enabled(states[n], steps[n]) && states[n + 1] == Next(env, states[n], steps[n]) && Good(env, states[n])
  {
    RunKeepsNoLoss(env, states, steps, n);
  }

  /** The status is the one its last writer gave it. */
  lemma {:induction false} StatusOfLastTouch(env: Env, states: seq<State>, steps: seq<Step>, n: nat, d: DocId, i: nat)
    requires IsRun(env, states, steps) && n <= |steps| && LastTouch(states, steps, n, d, i)
    ensures d in states[n].docs && StatusWritten(env, states[i], steps[i], states[n].docs[d].status)
    decreases n - i
  {
    var m := n - 1;
    RunStep(env, states, steps, m);
    if i == m {
      TouchWrites(env, states[i], steps[i], d);
    } else {
      LastTouchBefore(states, steps, m, d, i);
      StatusOfLastTouch(env, states, steps, m, d, i);
      UntouchedStatus(env, states[m], steps[m], d);
    }
  }

  // ---------------------------------------------------------------- every step keeps the account

  lemma TouchIsOpen(env: Env, states: seq<State>, steps: seq<Step>, n: nat, d: DocId)
    requires IsRun(env, states, steps) && n < |steps| && Good(env, states[n]) && Touches(states[n], steps[n], d)
    ensures !steps[n].Write? ==> Open(states, steps, n + 1, d, n)
  {
    assert states[n + 1] == Next(env, states[n], steps[n]);
    assert PhaseGood(env, states[n], PhaseOf(states[n], steps[n].w));
  }

  lemma DroppedStays(states: seq<State>, steps: seq<Step>, n: nat, d: DocId, i: nat, j: nat)
    requires n < |steps| && |states| == |steps| + 1
    requires Dropped(states, steps, n, d, i, j) && !Touches(states[n], steps[n], d)
    ensures Dropped(states, steps, n + 1, d, i, j)
  {
  }

  /** What can become of a last writer that takes a step without writing the row again. */
  lemma UndecidedStep(env: Env, s: State, step: Step, first: Step, before: Phase, d: DocId)
    requires Good(env, s) && Enabled(s, step) && !Touches(s, step, d)
    requires !step.Create? && !step.Publish? && !step.PublishMalformed?
    requires Undecided(first, before, PhaseOf(s, step.w)) && Holds(before, d)
    ensures step.Send? || step.Crash? || Undecided(first, before, PhaseOf(Next(env, s, step), step.w))
  {
    assert PhaseGood(env, s, PhaseOf(s, step.w));
  }

  lemma OthersStayPut(env: Env, s: State, step: Step, w: WorkerId)
    requires Enabled(s, step)
    requires step.Create? || step.Publish? || step.PublishMalformed? || step.w != w
    ensures PhaseOf(Next(env, s, step), w) == PhaseOf(s, w)
  {
  }

  lemma OpenGoesOn(states: seq<State>, steps: seq<Step>, n: nat, d: DocId, i: nat)
    requires n < |steps| && |states| == |steps| + 1
    requires Open(states, steps, n, d, i) && !Touches(states[n], steps[n], d)
    requires Undecided(steps[i], PhaseOf(states[i], steps[i].w), PhaseOf(states[n + 1], steps[i].w))
    ensures Open(states, steps, n + 1, d, i)
  {
  }

  lemma OpenSends(env: Env, states: seq<State>, steps: seq<Step>, n: nat, d: DocId, i: nat)
    requires IsRun(env, states, steps) && n < |steps| && Good(env, states[n])
    requires Open(states, steps, n, d, i) && steps[n].Send? && steps[n].w == steps[i].w
    ensures WillRun(states[n + 1], d)
      || (d in states[n + 1].docs && states[n + 1].docs[d].status == StatusFailed && InDlq(states[n + 1], d))
  {
    var s, w := states[n], steps[i].w;
    assert states[n + 1] == Next(env, s, steps[n]);
    StatusOfLastTouch(env, states, steps, n, d, i);
    if PhaseOf(s, w).job.attempt < env.maxAttempts {
      RetryRuns(env, s, w, steps[n].p);
    } else {
      assert states[n + 1].dlq[|s.dlq|].doc == Some(d);
    }
  }

  lemma OpenDies(env: Env, states: seq<State>, steps: seq<Step>, n: nat, d: DocId, i: nat)
    requires IsRun(env, states, steps) && n < |steps| && Good(env, states[n])
    requires Open(states, steps, n, d, i) && steps[n] == Crash(steps[i].w)
    ensures WillRun(states[n + 1], d) || Dropped(states, steps, n + 1, d, i, n)
  {
    assert states[n + 1] == Next(env, states[n], steps[n]);
    if !Orphaned(states[n], steps[i].w) {
      RunsAgain(env, states[n], steps[i].w);
    }
  }

  lemma OpenStaysTold(env: Env, states: seq<State>, steps: seq<Step>, n: nat, d: DocId, i: nat)
    requires IsRun(env, states, steps) && n < |steps| && Good(env, states[n]) && d in states[n].docs
    requires Open(states, steps, n, d, i) && !Touches(states[n], steps[n], d)
    ensures Told(states, steps, n + 1, d)
  {
    var step, w := steps[n], steps[i].w;
    assert states[n + 1] == Next(env, states[n], step);
    UntouchedStatus(env, states[n], step, d);
    if step.Create? || step.Publish? || step.PublishMalformed? || step.w != w {
      OthersStayPut(env, states[n], step, w);
      OpenGoesOn(states, steps, n, d, i);
    } else if step.Send? {
      OpenSends(env, states, steps, n, d, i);
    } else if step.Crash? {
      OpenDies(env, states, steps, n, d, i);
    } else {
      UndecidedStep(env, states[n], step, steps[i], PhaseOf(states[i], w), d);
      OpenGoesOn(states, steps, n, d, i);
    }
  }

  lemma UntouchedStaysTold(env: Env, states: seq<State>, steps: seq<Step>, n: nat, d: DocId)
    requires IsRun(env, states, steps) && n < |steps| && Good(env, states[n]) && Good(env, states[n + 1])
    requires Told(states, steps, n, d) && !Touches(states[n], steps[n], d)
    ensures Told(states, steps, n + 1, d)
  {
    var s, t := states[n], states[n + 1];
    assert t == Next(env, s, steps[n]);
    UntouchedStatus(env, s, steps[n], d);
    StepGrows(env, s, steps[n]);
    StoredStays(env, s, t, d);
    if WillRun(s, d) {
      UntouchedRuns(env, s, steps[n], d);
    } else if i: nat :| Open(states, steps, n, d, i) {
      OpenStaysTold(env, states, steps, n, d, i);
    } else if i: nat, j: nat :| Dropped(states, steps, n, d, i, j) {
      DroppedStays(states, steps, n, d, i, j);
    }
  }

  /** At every moment of every run the status of a published document is accounted for. */
  lemma {:induction false} RunKeepsTold(env: Env, states: seq<State>, steps: seq<Step>, n: nat, d: DocId)
    requires IsRun(env, states, steps) && n <= |steps| && d in states[n].published
    ensures Told(states, steps, n, d)
  {
    if n > 0 {
      var m := n - 1;
      RunKeepsNoLoss(env, states, steps, m);
      RunKeepsNoLoss(env, states, steps, n);
      assert states[m + 1] == Next(env, states[m], steps[m]);
      if d !in states[m].published {
        PublishRuns(env, states[m], d, steps[m].p);
      } else if Touches(states[m], steps[m], d) {
        TouchIsOpen(env, states, steps, m, d);
        TouchWrites(env, states[m], steps[m], d);
      } else {
        RunKeepsTold(env, states, steps, m, d);
        UntouchedStaysTold(env, states, steps, m, d);
      }
    }
  }

  // ---------------------------------------------------------------- at rest

  /** No uncommitted job of the document, and no worker on one. */
  ghost predicate Quiet(s: State, d: DocId) {
    && (forall x :: Uncommitted(s, x) ==> JobAt(s, x).doc != Some(d))
    && (forall w :: !Holds(PhaseOf(s, w), d))
  }

  /** Ready with exactly its generation stored, or failed with a dead letter. */
  predicate Settled(env: Env, s: State, d: DocId) {
    d in s.docs &&
    ((s.docs[d].status == StatusReady && Stored(env, s, d)) || (s.docs[d].status == StatusFailed && InDlq(s, d)))
  }

  lemma QuietNeverRuns(s: State, d: DocId)
    requires Quiet(s, d)
    ensures !WillRun(s, d)
  {
    forall x
      ensures !FreshJob(s, x, d)
    {
    }
  }

  /** Nobody else buried the document for good in the place of the worker of step i. */
  predicate Unburied(env: Env, s: State, step: Step, end: State, d: DocId) {
    step.RecordFailure? && PhaseOf(s, step.w) != Idle && PhaseOf(s, step.w).job.attempt >= env.maxAttempts ==>
      !InDlq(end, d)
  }

  /**
   * The worker that wrote the row last was orphaned after that and died before its verdict; and if all that was
   * left for it was the dead letter, nobody else sent one.
   */
  ghost predicate Abandoned(env: Env, states: seq<State>, steps: seq<Step>, n: nat, d: DocId)
    requires n <= |steps| && |states| == |steps| + 1
  {
    exists i: nat, j: nat :: Dropped(states, steps, n, d, i, j) && Unburied(env, states[i], steps[i], states[n], d)
  }

  lemma AbandonedIsUnsettled(env: Env, states: seq<State>, steps: seq<Step>, n: nat, d: DocId)
    requires IsRun(env, states, steps) && n <= |steps| && Abandoned(env, states, steps, n, d)
    ensures !Settled(env, states[n], d)
  {
    var i: nat, j: nat :| Dropped(states, steps, n, d, i, j) && Unburied(env, states[i], steps[i], states[n], d);
    StatusOfLastTouch(env, states, steps, n, d, i);
    assert Undecided(steps[i], PhaseOf(states[i], steps[i].w), PhaseOf(states[j], steps[i].w));
  }

  lemma DroppedSettles(env: Env, states: seq<State>, steps: seq<Step>, n: nat, d: DocId, i: nat, j: nat)
    requires IsRun(env, states, steps) && n <= |steps| && Dropped(states, steps, n, d, i, j)
    ensures Unburied(env, states[i], steps[i], states[n], d) || Settled(env, states[n], d)
  {
    StatusOfLastTouch(env, states, steps, n, d, i);
  }

  lemma OpenHolds(states: seq<State>, steps: seq<Step>, n: nat, d: DocId, i: nat)
    requires n <= |steps| && |states| == |steps| + 1 && Open(states, steps, n, d, i)
    ensures exists w :: Holds(PhaseOf(states[n], w), d)
  {
    assert Undecided(steps[i], PhaseOf(states[i], steps[i].w), PhaseOf(states[n], steps[i].w));
  }

  lemma NobodyAtIt(states: seq<State>, steps: seq<Step>, n: nat, d: DocId, i: nat)
    requires n <= |steps| && |states| == |steps| + 1 && Quiet(states[n], d)
    ensures !Open(states, steps, n, d, i)
  {
    if Open(states, steps, n, d, i) {
      OpenHolds(states, steps, n, d, i);
    }
  }

  /**
   * In every run, a published document that has come to rest is settled, never pending or chunking, unless the worker
   * that wrote its row last was orphaned and died before its verdict; and in that case it is not.
   */
  lemma QuietIsSettled(env: Env, states: seq<State>, steps: seq<Step>, n: nat, d: DocId)
    requires IsRun(env, states, steps) && n <= |steps| && d in states[n].published && Quiet(states[n], d)
    ensures Settled(env, states[n], d) <==> !Abandoned(env, states, steps, n, d)
  {
    RunKeepsTold(env, states, steps, n, d);
    RunKeepsNoLoss(env, states, steps, n);
    QuietNeverRuns(states[n], d);
    if Abandoned(env, states, steps, n, d) {
      AbandonedIsUnsettled(env, states, steps, n, d);
    } else if i: nat :| Open(states, steps, n, d, i) {
      NobodyAtIt(states, steps, n, d, i);
    } else if i: nat, j: nat :| Dropped(states, steps, n, d, i, j) {
      DroppedSettles(env, states, steps, n, d, i, j);
    }
  }

  /** A document that chunks to nothing ends up failed, dead-lettered and without chunks, unless it is abandoned. */
  lemma BarrenDocumentsAreBuried(env: Env, states: seq<State>, steps: seq<Step>, n: nat, d: DocId)
    requires IsRun(env, states, steps) && n <= |steps| && d in states[n].published && Quiet(states[n], d)
    requires d in states[n].docs && env.chunk(states[n].docs[d].raw) == []
    ensures d !in states[n].chunks
    ensures states[n].docs[d].status == StatusFailed && InDlq(states[n], d) <==> !Abandoned(env, states, steps, n, d)
  {
    QuietIsSettled(env, states, steps, n, d);
    RunKeepsNoLoss(env, states, steps, n);
  }
}
