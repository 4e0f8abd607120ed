/** When a run is closed or superseded, none of its work is left waiting or running; and a step is done exactly when its
    task is. Every transition of the scrape queue keeps this. */
module ScrapeSettled {
  import opened Basics
  import opened ScrapeQueue
  import opened ScrapeInvariants

  /** The run lets no work go on: it is closed, or superseded. */
  predicate Dead(q: Queue, run: Key) {
    run in q.runs && (q.runs[run].superseded || q.runs[run].status == Closed)
  }

  predicate TaskSettled(q: Queue, t: Task) {
    t.link.Some? && Dead(q, t.link.value.run) ==> !Pending(t.status)
  }

  predicate StepSettled(q: Queue, st: Step) {
    Dead(q, st.run) ==> !Pending(st.status)
  }

  predicate DoneTogether(q: Queue, t: Task) {
    t.link.Some? && t.link.value.step in q.steps ==> (t.status == Done <==> q.steps[t.link.value.step].status == Done)
  }

  ghost predicate Settled(q: Queue) {
    && (forall id | id in q.tasks :: TaskSettled(q, q.tasks[id]) && DoneTogether(q, q.tasks[id]))
    && (forall s | s in q.steps :: StepSettled(q, q.steps[s]))
  }

  // ---------- rewriting all rows ----------

  /** No row starts to wait or run, and no run dies. */
  ghost predicate Eases(q: Queue, q': Queue) {
    && q'.tasks.Keys == q.tasks.Keys && q'.steps.Keys == q.steps.Keys && q'.runs == q.runs
    && (forall id | id in q.tasks :: EasesTask(q.tasks[id], q'.tasks[id]))
    && (forall s | s in q.steps :: EasesStep(q.steps[s], q'.steps[s]))
  }

  predicate EasesTask(t: Task, t': Task) {
    t'.link == t.link && (Pending(t'.status) ==> Pending(t.status)) && (t'.status == Done <==> t.status == Done)
  }

  predicate EasesStep(st: Step, st': Step) {
    st'.run == st.run && (Pending(st'.status) ==> Pending(st.status)) && (st'.status == Done <==> st.status == Done)
  }

  lemma EasingSettles(q: Queue, q': Queue)
    requires Settled(q) && Eases(q, q')
    ensures Settled(q')
  {
  }

  lemma ReapSettles(q: Queue, m: Moments)
    requires Settled(q)
    ensures Settled(Reaped(q, m))
  {
    var q1 := ReapSteps(q, false, m.t1);
    var q2 := ReapTasks(q1, false, m.t2);
    var q3 := ReapSteps(q2, true, m.t3);
    ReapStepsEases(q, false, m.t1);
    ReapTasksEases(q1, false, m.t2);
    ReapStepsEases(q2, true, m.t3);
    ReapTasksEases(q3, true, m.t4);
    EasingSettles(q, q1);
    EasingSettles(q1, q2);
    EasingSettles(q2, q3);
    EasingSettles(q3, Reaped(q, m));
  }

  lemma ReapStepsEases(q: Queue, exhausted: bool, now: int)
    ensures Eases(q, ReapSteps(q, exhausted, now))
  {
  }

  lemma ReapTasksEases(q: Queue, exhausted: bool, now: int)
    ensures Eases(q, ReapTasks(q, exhausted, now))
  {
  }

  lemma RestartSettles(q: Queue, now: int)
    requires Settled(q)
    ensures Settled(Restarted(q, now))
  {
    RestartEases(q, now);
    EasingSettles(q, Restarted(q, now));
  }

  lemma RestartEases(q: Queue, now: int)
    ensures Eases(q, Restarted(q, now))
  {
  }

  // ---------- runs that die ----------

  /** What pends in the run is given up, and no other run dies. */
  ghost predicate GivesUp(q: Queue, q': Queue, run: Key) {
    && q'.tasks.Keys == q.tasks.Keys && q'.steps.Keys == q.steps.Keys
    && (forall r | Dead(q', r) :: r == run || Dead(q, r))
    && (forall id | id in q.tasks :: EasesTask(q.tasks[id], q'.tasks[id]) && (OfRun(q.tasks[id], run) ==> !Pending(q'.tasks[id].status)))
    && (forall s | s in q.steps :: EasesStep(q.steps[s], q'.steps[s]) && (q.steps[s].run == run ==> !Pending(q'.steps[s].status)))
  }

  predicate OfRun(t: Task, run: Key) {
    t.link.Some? && t.link.value.run == run
  }

  lemma GivingUpSettles(q: Queue, q': Queue, run: Key)
    requires Settled(q) && GivesUp(q, q', run)
    ensures Settled(q')
  {
  }

  lemma SupersedeSettles(q: Queue, run: Key, now: int)
    requires Settled(q)
    ensures Settled(Supersede(q, run, now))
  {
    if run in q.runs {
      GivingUpSettles(q, Supersede(q, run, now), run);
    }
  }

  lemma CancelPlanSettles(q: Queue, run: Key, reason: string, now: int)
    requires Settled(q) && Cancellable(q, run)
    ensures Settled(CancelledPlan(q, run, reason, now))
  {
    GivingUpSettles(q, CancelledPlan(q, run, reason, now), run);
  }

  lemma UnblockSettles(q: Queue, run: Key, o: Siblings, now: int)
    requires Settled(q) && run in q.runs
    ensures Settled(Unblocked(q, run, o, now)) && Unblocked(q, run, o, now).runs == q.runs
  {
  }

  lemma CloseSettles(q: Queue, run: Key, reason: string, now: int)
    requires Settled(q) && run in q.runs
    ensures Settled(Converged(WithStatus(q, run, Closed), run, reason, now))
  {
    ClosingGivesUp(q, run, reason, now);
    GivingUpSettles(q, Converged(WithStatus(q, run, Closed), run, reason, now), run);
  }

  lemma ClosingGivesUp(q: Queue, run: Key, reason: string, now: int)
    requires run in q.runs
    ensures GivesUp(q, Converged(WithStatus(q, run, Closed), run, reason, now), run)
  {
    var q' := Converged(WithStatus(q, run, Closed), run, reason, now);
    forall id | id in q.tasks ensures EasesTask(q.tasks[id], q'.tasks[id]) && (OfRun(q.tasks[id], run) ==> !Pending(q'.tasks[id].status)) {
    }
    forall s | s in q.steps ensures EasesStep(q.steps[s], q'.steps[s]) && (q.steps[s].run == run ==> !Pending(q'.steps[s].status)) {
    }
  }

  lemma OpenSettles(q: Queue, run: Key, status: RunStatus)
    requires Settled(q) && run in q.runs && status != Closed
    ensures Settled(WithStatus(q, run, status))
  {
  }

  /** A run that the aggregation closes leaves no work behind. */
  lemma AggregateSettles(q: Queue, run: Key, o: Siblings, preserve: bool, reason: string, now: int)
    requires Settled(q) && Aggregates(q, run)
    ensures Settled(Aggregated(q, run, o, preserve, reason, now))
  {
    UnblockSettles(q, run, o, now);
    var next := NextStatus(q, run, o, preserve);
    if next == Closed {
      CloseSettles(Unblocked(q, run, o, now), run, reason, now);
    } else {
      OpenSettles(Unblocked(q, run, o, now), run, next);
    }
  }

  // ---------- the transitions of one task ----------

  lemma ClaimSettles(q: Queue, id: Key, owner: nat, ready: bool, now: int)
    requires Settled(q) && WellLinked(q) && Claimable(q, id, ready, now)
    ensures Settled(Claimed(q, id, owner, now))
  {
  }

  lemma RenewSettles(q: Queue, c: Claim, now: int)
    requires Settled(q) && WellLinked(q) && Owns(q, c)
    ensures Settled(Renewed(q, c, now))
  {
  }

  lemma FailSettles(q: Queue, c: Claim, message: string, now: int)
    requires Settled(q) && WellLinked(q) && Owns(q, c)
    ensures Settled(FailedBy(q, c, message, now))
  {
  }

  lemma DoneSettles(q: Queue, c: Claim, message: string, now: int)
    requires Settled(q) && WellLinked(q) && Owns(q, c)
    ensures Settled(DoneBy(q, c, message, now))
  {
  }

  lemma AbortSettles(q: Queue, id: Key, now: int)
    requires Settled(q) && WellLinked(q) && Abortable(q, id)
    ensures Settled(Aborted(q, id, now))
  {
  }

  lemma ReopenSettles(q: Queue, id: Key, now: int)
    requires Settled(q) && WellLinked(q) && Reopenable(q, id)
    ensures Settled(Reopened(q, id, now))
  {
  }

  lemma ResetSettles(q: Queue, id: Key, newRound: bool, now: int)
    requires Settled(q) && WellLinked(q) && Resettable(q, id)
    ensures Settled(Reset(q, id, newRound, now))
  {
  }

  lemma SkipSettles(q: Queue, id: Key, reason: string, now: int)
    requires Settled(q) && WellLinked(q) && Skippable(q, id)
    ensures Settled(SkippedBy(q, id, reason, now))
  {
  }

  lemma RepairSettles(q: Queue, id: Key, now: int)
    requires Settled(q) && WellLinked(q) && Desynced(q, id)
    ensures Settled(Repaired(q, id, now))
  {
  }

  // ---------- plans ----------

  lemma PlanSettles(q: Queue, id: Key, media: Key, l: Link, required: bool, outcome: Status, now: int)
    requires Settled(q) && WellLinked(q) && Plannable(q, id, media, l, required, outcome)
    ensures Settled(Planned(q, id, media, l, required, outcome, now))
  {
  }

  lemma EnqueueSettles(q: Queue, id: Key, media: Key, now: int)
    requires Settled(q) && id !in q.tasks
    ensures Settled(Enqueued(q, id, media, now))
  {
  }
}
