/** What every run of the ingest protocol keeps: no published document is lost, and none is left unsettled. */
module IngestSafety {
  import opened Wrappers
  import opened IngestProtocol

  // ---------------------------------------------------------------- no loss

  /** An uncommitted job for the document, of a later attempt than `a`. */
  predicate Carries(s: State, x: Slot, d: DocId, a: int) {
    Uncommitted(s, x) && JobAt(s, x).doc == Some(d) && JobAt(s, x).attempt > a
  }

  /** The document's chunks are stored, or it is dead-lettered, or a job of a later attempt than `a` is uncommitted. */
  ghost predicate Covered(env: Env, s: State, d: DocId, a: int) {
    Stored(env, s, d) || InDlq(s, d) || exists x :: Carries(s, x, d, a)
  }

  /** A job about to be committed leaves something behind it. */
  ghost predicate HandledCovered(env: Env, s: State, ph: Phase) {
    ph.Handled? && ph.job.doc.Some? ==> Covered(env, s, ph.job.doc.value, ph.job.attempt)
  }

  ghost predicate NoLoss(env: Env, s: State) {
    && (forall d :: d in s.published ==> Covered(env, s, d, 0))
    && (forall w :: HandledCovered(env, s, PhaseOf(s, w)))
  }

  lemma StoredStays(env: Env, s: State, t: State, d: DocId)
    requires Good(env, t) && Grows(s, t)
    ensures Stored(env, s, d) ==> Stored(env, t, d)
    ensures InDlq(s, d) ==> InDlq(t, d)
  {
    if InDlq(s, d) {
      var i :| 0 <= i < |s.dlq| && s.dlq[i].doc == Some(d);
      assert t.dlq[i] == s.dlq[i];
    }
  }

  /** Nothing is committed between the two states. */
  predicate NoneCommitted(s: State, t: State) {
    |s.parts| == |t.parts| && forall p :: 0 <= p < |s.parts| ==> t.parts[p].committed == s.parts[p].committed
  }

  lemma CoveredStays(env: Env, s: State, t: State, d: DocId, a: int)
    requires Good(env, t) && Grows(s, t) && NoneCommitted(s, t) && Covered(env, s, d, a)
    ensures Covered(env, t, d, a)
  {
    StoredStays(env, s, t, d);
    if !Stored(env, s, d) && !InDlq(s, d) {
      var x :| Carries(s, x, d, a);
      assert JobAt(t, x) == JobAt(s, x);
      assert Carries(t, x, d, a);
    }
  }

  lemma OthersStayCovered(env: Env, s: State, t: State, w: WorkerId)
    requires Good(env, t) && Grows(s, t) && NoneCommitted(s, t) && NoLoss(env, s)
    requires forall v :: v != w ==> PhaseOf(t, v) == PhaseOf(s, v)
    requires HandledCovered(env, t, PhaseOf(t, w))
    requires forall d :: d in t.published && d !in s.published ==> Covered(env, t, d, 0)
    ensures NoLoss(env, t)
  {
    forall d | d in t.published
      ensures Covered(env, t, d, 0)
    {
      if d in s.published {
        CoveredStays(env, s, t, d, 0);
      }
    }
    forall v
      ensures HandledCovered(env, t, PhaseOf(t, v))
    {
      var ph := PhaseOf(t, v);
      if v != w && ph.Handled? && ph.job.doc.Some? {
        assert HandledCovered(env, s, PhaseOf(s, v));
        CoveredStays(env, s, t, ph.job.doc.value, ph.job.attempt);
      }
    }
  }

  lemma SendCovers(env: Env, s: State, w: WorkerId, p: nat)
    requires Good(env, s) && Enabled(s, Send(w, p))
    ensures HandledCovered(env, SendStep(env, s, w, p), PhaseOf(SendStep(env, s, w, p), w))
  {
    var ph := PhaseOf(s, w);
    var t := SendStep(env, s, w, p);
    assert PhaseGood(env, s, ph);
    if ph.job.attempt < env.maxAttempts {
      var x := Slot(p, |s.parts[p].log|);
      AppendGrows(s, p, ph.job.(attempt := ph.job.attempt + 1));
      assert s.parts[p].committed <= |s.parts[p].log|;
      assert Carries(t, x, ph.job.doc.value, ph.job.attempt);
    } else {
      assert t.dlq[|s.dlq|].doc == ph.job.doc;
    }
  }

  lemma PublishCovers(env: Env, s: State, d: DocId, p: nat)
    requires Good(env, s) && Enabled(s, Publish(d, p))
    ensures Covered(env, Next(env, s, Publish(d, p)), d, 0)
  {
    var t := Next(env, s, Publish(d, p));
    var x := Slot(p, |s.parts[p].log|);
    AppendGrows(s, p, Job(Some(d), 1));
    assert s.parts[p].committed <= |s.parts[p].log|;
    assert Carries(t, x, d, 0);
  }

  lemma CarrierSurvives(env: Env, s: State, w: WorkerId, x: Slot, d: DocId, a: int)
    requires Good(env, s) && Enabled(s, CommitOffset(w)) && Carries(s, x, d, a) && x != PhaseOf(s, w).at
    ensures Carries(CommitStep(s, w), x, d, a)
  {
  }

  /** Committing a job keeps the cover of all who leaned on it: what that job left behind is of a later attempt. */
  lemma CommitCovers(env: Env, s: State, w: WorkerId, d: DocId, a: int)
    requires Good(env, s) && NoLoss(env, s) && Enabled(s, CommitOffset(w)) && Good(env, CommitStep(s, w))
    requires Covered(env, s, d, a)
    ensures Covered(env, CommitStep(s, w), d, a)
  {
    var t := CommitStep(s, w);
    var ph := PhaseOf(s, w);
    CommitGrows(env, s, w);
    StoredStays(env, s, t, d);
    assert PhaseGood(env, s, ph) && HandledCovered(env, s, ph);
    if !Stored(env, s, d) && !InDlq(s, d) {
      var x :| Carries(s, x, d, a);
      if x == ph.at {
        assert Covered(env, s, d, ph.job.attempt);
        var y :| Carries(s, y, d, ph.job.attempt);
        CarrierSurvives(env, s, w, y, d, a);
      } else {
        CarrierSurvives(env, s, w, x, d, a);
      }
    }
  }

  lemma CommitKeepsNoLoss(env: Env, s: State, w: WorkerId)
    requires Good(env, s) && NoLoss(env, s) && Enabled(s, CommitOffset(w)) && Good(env, CommitStep(s, w))
    ensures NoLoss(env, CommitStep(s, w))
  {
    var t := CommitStep(s, w);
    forall d | d in t.published
      ensures Covered(env, t, d, 0)
    {
      CommitCovers(env, s, w, d, 0);
    }
    forall v
      ensures HandledCovered(env, t, PhaseOf(t, v))
    {
      var ph := PhaseOf(t, v);
      if v != w && ph.Handled? && ph.job.doc.Some? {
        assert HandledCovered(env, s, PhaseOf(s, v));
        CommitCovers(env, s, w, ph.job.doc.value, ph.job.attempt);
      }
    }
  }

  lemma WriteCovers(env: Env, s: State, w: WorkerId, outcome: Outcome)
    requires Good(env, s) && Enabled(s, Write(w, outcome)) && Good(env, WriteStep(s, w, outcome))
    ensures HandledCovered(env, WriteStep(s, w, outcome), PhaseOf(WriteStep(s, w, outcome), w))
  {
    var t := WriteStep(s, w, outcome);
    if outcome == Committed {
      assert PhaseOf(s, w).job.doc.value in t.chunks;
    }
  }

  lemma SendKeepsNoLoss(env: Env, s: State, w: WorkerId, p: nat)
    requires Good(env, s) && NoLoss(env, s) && Enabled(s, Send(w, p))
    requires Good(env, SendStep(env, s, w, p)) && Grows(s, SendStep(env, s, w, p))
    ensures NoLoss(env, SendStep(env, s, w, p))
  {
    SendCovers(env, s, w, p);
    OthersStayCovered(env, s, SendStep(env, s, w, p), w);
  }

  /** The steps that end before a job is handled, and a crash. */
  lemma MoveCommitsNothing(env: Env, s: State, step: Step)
    requires Enabled(s, step)
    requires step.Deliver? || step.Load? || step.SetStatus? || step.Split? || step.RecordFailure? || step.Crash?
    ensures NoneCommitted(s, Next(env, s, step)) && Next(env, s, step).published == s.published
  {
  }

  lemma MoveKeepsNoLoss(env: Env, s: State, step: Step)
    requires Good(env, s) && NoLoss(env, s) && Enabled(s, step)
    requires step.Deliver? || step.Load? || step.SetStatus? || step.Split? || step.RecordFailure? || step.Crash?
    requires Good(env, Next(env, s, step)) && Grows(s, Next(env, s, step))
    ensures NoLoss(env, Next(env, s, step))
  {
    var t := Next(env, s, step);
    MoveCommitsNothing(env, s, step);
    OthersStayCovered(env, s, t, step.w);
  }

  lemma NobodyMoves(env: Env, s: State, t: State)
    requires Good(env, t) && Grows(s, t) && NoneCommitted(s, t) && NoLoss(env, s) && t.workers == s.workers
    requires forall d :: d in t.published && d !in s.published ==> Covered(env, t, d, 0)
    ensures NoLoss(env, t)
  {
    var ph := PhaseOf(s, 0);
    assert HandledCovered(env, s, ph);
    if ph.Handled? && ph.job.doc.Some? {
      CoveredStays(env, s, t, ph.job.doc.value, ph.job.attempt);
    }
    OthersStayCovered(env, s, t, 0);
  }

  /** No step of any worker loses a document, redeliveries and crashes included. */
  lemma StepKeepsNoLoss(env: Env, s: State, step: Step)
    requires Good(env, s) && NoLoss(env, s) && Enabled(s, step)
    ensures NoLoss(env, Next(env, s, step))
  {
    var t := Next(env, s, step);
    StepStaysGood(env, s, step);
    StepGrows(env, s, step);
    match step
    case CommitOffset(w) => CommitKeepsNoLoss(env, s, w);
    case Send(w, p) => SendKeepsNoLoss(env, s, w, p);
    case Write(w, outcome) =>
      WriteCovers(env, s, w, outcome);
      OthersStayCovered(env, s, t, w);
    case Publish(d, p) =>
      PublishCovers(env, s, d, p);
      NobodyMoves(env, s, t);
    case PublishMalformed(p, attempt) => NobodyMoves(env, s, t);
    case Create(d, raw) => NobodyMoves(env, s, t);
    case _ => MoveKeepsNoLoss(env, s, step);
  }

  lemma InitGood(env: Env, s: State)
    requires Init(s)
    ensures Good(env, s) && NoLoss(env, s)
  {
  }

  lemma {:induction false} RunKeepsNoLoss(env: Env, states: seq<State>, steps: seq<Step>, n: nat)
    requires IsRun(env, states, steps) && n <= |steps|
    ensures Good(env, states[n]) && NoLoss(env, states[n])
  {
    if n == 0 {
      InitGood(env, states[0]);
    } else {
      RunKeepsNoLoss(env, states, steps, n - 1);
      assert states[n - 1 + 1] == Next(env, states[n - 1], steps[n - 1]);
      StepStaysGood(env, states[n - 1], steps[n - 1]);
      StepKeepsNoLoss(env, states[n - 1], steps[n - 1]);
    }
  }

  /**
   * At every moment of every run, a published document has its whole generation stored, or an
   * uncommitted job, or a dead letter; and every stored generation is exactly what chunking its content gives.
   */
  lemma PublishedNeverLost(env: Env, states: seq<State>, steps: seq<Step>, n: nat, d: DocId)
    requires IsRun(env, states, steps) && n <= |steps| && d in states[n].published
    ensures var s := states[n];
      Stored(env, s, d) || InDlq(s, d) || exists x :: Uncommitted(s, x) && JobAt(s, x).doc == Some(d)
    ensures forall e :: e in states[n].chunks ==> Stored(env, states[n], e)
  {
    RunKeepsNoLoss(env, states, steps, n);
    var s := states[n];
    if !Stored(env, s, d) && !InDlq(s, d) {
      var x :| Carries(s, x, d, 0);
      assert Uncommitted(s, x) && JobAt(s, x).doc == Some(d);
    }
  }

  /** Attempts stay within 1..max_attempts. */
  lemma AttemptsBounded(env: Env, states: seq<State>, steps: seq<Step>, n: nat, x: Slot)
    requires IsRun(env, states, steps) && n <= |steps| && env.maxAttempts >= 1
    requires IsSlot(states[n], x) && JobAt(states[n], x).doc.Some?
    ensures 1 <= JobAt(states[n], x).attempt <= env.maxAttempts
  {
    RunKeepsNoLoss(env, states, steps, n);
    assert GoodJob(env, states[n], JobAt(states[n], x));
  }

  // ---------------------------------------------------------------- content addressing

  /** No two documents hold the same content. */
  ghost predicate Distinct(s: State) {
    forall d, e :: d in s.docs && e in s.docs && s.docs[d].raw == s.docs[e].raw ==> d == e
  }

  lemma OnlyCreateAdds(env: Env, s: State, step: Step)
    requires Good(env, s) && Enabled(s, step) && !step.Create?
    ensures Next(env, s, step).docs.Keys == s.docs.Keys
  {
    if !step.Create? && !step.Publish? && !step.PublishMalformed? {
      assert PhaseGood(env, s, PhaseOf(s, step.w));
    }
  }

  lemma StepKeepsDistinct(env: Env, s: State, step: Step)
    requires Distinct(s) && Good(env, s) && Enabled(s, step)
    ensures Distinct(Next(env, s, step))
  {
    var t := Next(env, s, step);
    if step.Create? {
    } else {
      StepGrows(env, s, step);
      OnlyCreateAdds(env, s, step);
    }
  }

  /** An upload of known content never adds a document, however uploads, jobs and crashes interleave. */
  lemma {:induction false} ContentsStayDistinct(env: Env, states: seq<State>, steps: seq<Step>, n: nat)
    requires IsRun(env, states, steps) && n <= |steps|
    ensures Distinct(states[n])
  {
    if n > 0 {
      ContentsStayDistinct(env, states, steps, n - 1);
      RunKeepsNoLoss(env, states, steps, n - 1);
      assert states[n - 1 + 1] == Next(env, states[n - 1], steps[n - 1]);
      StepKeepsDistinct(env, states[n - 1], steps[n - 1]);
    }
  }
}
