/** What every transition of the scrape queue keeps. */
module ScrapeInvariants {
  import opened Basics
  import opened ScrapeQueue

  // ---------- the invariants ----------

  /** One task row by itself: failures are bounded, a waiting task may still be claimed, a failed one is exhausted,
      and the row carries a token exactly while it runs: that of the claim that describes it. */
  ghost predicate TaskOk(id: Key, t: Task, issued: seq<Claim>) {
    && 0 <= t.fails <= MAX_FAILURES
    && (t.status == Waiting ==> t.fails < MAX_FAILURES)
    && (t.status == Failed ==> t.fails == MAX_FAILURES)
    && (t.status == Running ==>
          && t.owner.Some? && t.owner.value < |issued| && t.lease.Some?
          && issued[t.owner.value] == Claim(id, t.media, t.link, t.owner.value, t.fails, t.round))
    && (t.status != Running ==> t.owner.None? && t.lease.None?)
  }

  ghost predicate TasksOk(q: Queue, issued: seq<Claim>) {
    forall id | id in q.tasks :: TaskOk(id, q.tasks[id], issued)
  }

  /** The run of a link exists, and its medium has not gone back to an earlier generation. */
  ghost predicate PlanOf(q: Queue, l: Link, media: Key) {
    && l.run in q.runs && q.runs[l.run].media == media && q.runs[l.run].generation == l.generation
    && media in q.generations && q.generations[media] >= l.generation
  }

  ghost predicate LinkOk(q: Queue, t: Task) {
    t.link.Some? ==> StepOf(q, t.link.value, t.media) && PlanOf(q, t.link.value, t.media)
  }

  /** Every linked task has its own step, of the same run, medium and generation. */
  ghost predicate WellLinked(q: Queue) {
    && (forall id | id in q.tasks :: LinkOk(q, q.tasks[id]))
    && (forall a, b | a in q.tasks && b in q.tasks && a != b && q.tasks[a].link.Some? && q.tasks[b].link.Some? ::
          q.tasks[a].link.value.step != q.tasks[b].link.value.step)
  }

  /** A claim that was handed out names an existing task, which keeps its medium and link; the rounds only grow. */
  ghost predicate ClaimOk(q: Queue, i: nat, c: Claim) {
    && c.owner == i && c.task in q.tasks && q.tasks[c.task].media == c.media && q.tasks[c.task].link == c.link
    && 1 <= c.attempts <= MAX_FAILURES && c.round <= q.tasks[c.task].round
  }

  ghost predicate ClaimsOk(q: Queue, issued: seq<Claim>) {
    forall i | 0 <= i < |issued| :: ClaimOk(q, i, issued[i])
  }

  ghost predicate Inv(q: Queue, issued: seq<Claim>) {
    TasksOk(q, issued) && WellLinked(q) && ClaimsOk(q, issued)
  }

  /** A step tells the same story as its task. */
  predicate Agrees(t: Task, st: Step) {
    st.status == t.status && st.owner == t.owner && st.lease == t.lease && (t.status == Running ==> st.attempts == t.fails)
  }

  ghost predicate Agreement(q: Queue) {
    forall id | id in q.tasks && q.tasks[id].link.Some? && q.tasks[id].link.value.step in q.steps ::
      Agrees(q.tasks[id], q.steps[q.tasks[id].link.value.step])
  }

  // ---------- writing one pair of rows ----------

  predicate SameTask(t: Task, u: Task) {
    u.media == t.media && u.link == t.link && u.round >= t.round
  }

  predicate SameStep(s: Step, u: Step) {
    u.run == s.run && u.media == s.media && u.generation == s.generation
  }

  lemma WriteKeeps(q: Queue, issued: seq<Claim>, id: Key, t: Task, st: Option<Step>, claims: seq<Claim>)
    requires Inv(q, issued) && id in q.tasks && SameTask(q.tasks[id], t)
    requires issued <= claims && TaskOk(id, t, claims) && forall i | |issued| <= i < |claims| :: ClaimOk(Write(q, id, t, st), i, claims[i])
    requires t.link.Some? && st.Some? ==> SameStep(q.steps[t.link.value.step], st.value)
    ensures Inv(Write(q, id, t, st), claims)
  {
    var q' := Write(q, id, t, st);
    forall k | k in q'.tasks ensures TaskOk(k, q'.tasks[k], claims) {
      assert k in q.tasks && (k != id ==> TaskOk(k, q.tasks[k], issued));
    }
    forall k | k in q'.tasks ensures LinkOk(q', q'.tasks[k]) {
      assert k in q.tasks ==> LinkOk(q, q.tasks[k]);
    }
    forall i | 0 <= i < |claims| ensures ClaimOk(q', i, claims[i]) {
      if i < |issued| {
        assert claims[i] == issued[i] && ClaimOk(q, i, issued[i]);
      }
    }
  }

  lemma WriteAgrees(q: Queue, id: Key, t: Task, st: Option<Step>)
    requires WellLinked(q) && Agreement(q) && id in q.tasks && q.tasks[id].link == t.link
    requires t.link.Some? ==> st.Some? && Agrees(t, st.value)
    ensures Agreement(Write(q, id, t, st))
  {
  }

  // ---------- rewriting all rows ----------

  /** The rows keep what identifies them. */
  ghost predicate SameRows(q: Queue, q': Queue) {
    && q'.tasks.Keys == q.tasks.Keys && q'.steps.Keys == q.steps.Keys && q'.generations == q.generations
    && q'.runs.Keys == q.runs.Keys
    && (forall r | r in q.runs :: q'.runs[r].media == q.runs[r].media && q'.runs[r].generation == q.runs[r].generation)
    && (forall id | id in q.tasks :: SameTask(q.tasks[id], q'.tasks[id]))
    && (forall s | s in q.steps :: SameStep(q.steps[s], q'.steps[s]))
  }

  lemma RewriteKeeps(q: Queue, q': Queue, issued: seq<Claim>)
    requires Inv(q, issued) && SameRows(q, q') && TasksOk(q', issued)
    ensures Inv(q', issued)
  {
  }

  // ---------- claim, renew, fail, done ----------

  predicate Issued(issued: seq<Claim>, c: Claim) {
    c.owner < |issued| && issued[c.owner] == c
  }

  /** What a claim has to find to be renewed or ended, by the columns: its token, medium, round and link on the running task; and for
      a linked one its token and attempt on the running step of this plan, and the plan current and open. */
  lemma OwnsColumns(q: Queue, c: Claim)
    ensures Owns(q, c) <==>
      && c.task in q.tasks
      && var t := q.tasks[c.task];
         && t.status == Running && t.owner == Some(c.owner) && t.media == c.media && t.round == c.round && t.link == c.link
         && match c.link
            case None => true
            case Some(l) =>
              && l.step in q.steps && l.run in q.runs && c.media in q.generations
              && var st, r := q.steps[l.step], q.runs[l.run];
                 && st.run == l.run && st.media == c.media && st.generation == l.generation && st.status == Running
                 && st.owner == Some(c.owner) && st.attempts == c.attempts
                 && r.media == c.media && r.generation == l.generation && !r.superseded && r.status != Closed
                 && q.generations[c.media] == l.generation
  {
  }

  lemma ClaimKeeps(q: Queue, issued: seq<Claim>, id: Key, ready: bool, now: int)
    requires Inv(q, issued) && Claimable(q, id, ready, now)
    ensures var q', c := Claimed(q, id, |issued|, now), ClaimOf(q, id, |issued|);
            Inv(q', issued + [c]) && Owns(q', c) && (Agreement(q) ==> Agreement(q'))
  {
    var t := TaskClaimed(q.tasks[id], |issued|, now);
    var st := StepRow(q, t);
    var row := if st.Some? then Some(StepClaimed(st.value, t)) else None;
    assert TaskOk(id, q.tasks[id], issued);
    if t.link.Some? {
      assert LinkOk(q, t);
    }
    WriteKeeps(q, issued, id, t, row, issued + [ClaimOf(q, id, |issued|)]);
    if Agreement(q) {
      WriteAgrees(q, id, t, row);
    }
  }

  lemma RenewKeeps(q: Queue, issued: seq<Claim>, c: Claim, now: int)
    requires Inv(q, issued) && Owns(q, c)
    ensures Inv(Renewed(q, c, now), issued) && Owns(Renewed(q, c, now), c)
    ensures Agreement(q) ==> Agreement(Renewed(q, c, now))
  {
    var t := q.tasks[c.task].(lease := Some(now + LEASE_SECONDS));
    var st := StepRow(q, q.tasks[c.task]);
    var row := if st.Some? then Some(st.value.(lease := t.lease)) else None;
    assert TaskOk(c.task, q.tasks[c.task], issued);
    WriteKeeps(q, issued, c.task, t, row, issued);
    if Agreement(q) {
      WriteAgrees(q, c.task, t, row);
    }
  }

  lemma FailKeeps(q: Queue, issued: seq<Claim>, c: Claim, message: string, now: int)
    requires Inv(q, issued) && Issued(issued, c) && Owns(q, c)
    ensures Inv(FailedBy(q, c, message, now), issued)
    ensures Agreement(q) ==> Agreement(FailedBy(q, c, message, now))
  {
    var t := TaskFailed(q.tasks[c.task], c, message, now);
    var st := StepRow(q, t);
    var row := if st.Some? then Some(StepFailed(st.value, t, c)) else None;
    assert TaskOk(c.task, q.tasks[c.task], issued);
    WriteKeeps(q, issued, c.task, t, row, issued);
    if Agreement(q) {
      WriteAgrees(q, c.task, t, row);
    }
  }

  lemma DoneKeeps(q: Queue, issued: seq<Claim>, c: Claim, message: string, now: int)
    requires Inv(q, issued) && Owns(q, c)
    ensures Inv(DoneBy(q, c, message, now), issued)
    ensures Agreement(q) ==> Agreement(DoneBy(q, c, message, now))
  {
    var t := TaskDone(q.tasks[c.task], message, now);
    var st := StepRow(q, q.tasks[c.task]);
    var row := if st.Some? then Some(StepDone(st.value, now)) else None;
    WriteKeeps(q, issued, c.task, t, row, issued);
    if Agreement(q) {
      WriteAgrees(q, c.task, t, row);
    }
  }

  // ---------- the other writers ----------

  lemma CancelKeeps(q: Queue, issued: seq<Claim>, run: Key, reason: string, now: int)
    requires Inv(q, issued)
    ensures Inv(CancelRun(q, run, reason, now), issued)
  {
    var q' := CancelRun(q, run, reason, now);
    CancelSameRows(q, run, reason, now);
    forall id | id in q'.tasks ensures TaskOk(id, q'.tasks[id], issued) {
      assert TaskOk(id, q.tasks[id], issued);
    }
    RewriteKeeps(q, q', issued);
  }

  lemma CancelSameRows(q: Queue, run: Key, reason: string, now: int)
    ensures SameRows(q, CancelRun(q, run, reason, now))
  {
  }

  lemma CancelAgrees(q: Queue, run: Key, reason: string, now: int)
    requires WellLinked(q) && Agreement(q)
    ensures Agreement(CancelRun(q, run, reason, now))
  {
  }

  lemma RunsKeep(q: Queue, issued: seq<Claim>, runs: map<Key, IngestRun>)
    requires Inv(q, issued) && SameRows(q, q.(runs := runs))
    ensures Inv(q.(runs := runs), issued) && (Agreement(q) ==> Agreement(q.(runs := runs)))
  {
  }

  lemma SupersedeKeeps(q: Queue, issued: seq<Claim>, run: Key, now: int)
    requires Inv(q, issued)
    ensures Inv(Supersede(q, run, now), issued)
    ensures Agreement(q) ==> Agreement(Supersede(q, run, now))
  {
    if run in q.runs {
      var r := q.runs[run];
      var runs := q.runs[run := r.(superseded := true, status := if r.status == Processing then Closed else r.status)];
      RunsKeep(q, issued, runs);
      CancelKeeps(q.(runs := runs), issued, run, "", now);
      if Agreement(q) {
        CancelAgrees(q.(runs := runs), run, "", now);
      }
    }
  }

  lemma CancelPlanKeeps(q: Queue, issued: seq<Claim>, run: Key, reason: string, now: int)
    requires Inv(q, issued) && Cancellable(q, run)
    ensures Inv(CancelledPlan(q, run, reason, now), issued)
    ensures Agreement(q) ==> Agreement(CancelledPlan(q, run, reason, now))
  {
    var closed := WithStatus(q, run, Closed);
    RunsKeep(q, issued, closed.runs);
    CancelKeeps(closed, issued, run, reason, now);
    if Agreement(q) {
      CancelAgrees(closed, run, reason, now);
    }
  }

  lemma AbortKeeps(q: Queue, issued: seq<Claim>, id: Key, now: int)
    requires Inv(q, issued) && Abortable(q, id)
    ensures Inv(Aborted(q, id, now), issued)
    ensures Agreement(q) ==> Agreement(Aborted(q, id, now))
  {
    var q' := Aborted(q, id, now);
    var t := q'.tasks[id];
    var st := if t.link.Some? then Some(q'.steps[t.link.value.step]) else None;
    assert TaskOk(id, q.tasks[id], issued);
    assert q' == Write(q, id, t, st);
    WriteKeeps(q, issued, id, t, st, issued);
    if Agreement(q) {
      WriteAgrees(q, id, t, st);
    }
  }

  lemma ReopenKeeps(q: Queue, issued: seq<Claim>, id: Key, now: int)
    requires Inv(q, issued) && Reopenable(q, id)
    ensures Inv(Reopened(q, id, now), issued)
    ensures Agreement(q) ==> Agreement(Reopened(q, id, now))
  {
    var q' := Reopened(q, id, now);
    var t := q'.tasks[id];
    var st := Some(q'.steps[t.link.value.step]);
    assert q' == Write(q, id, t, st);
    WriteKeeps(q, issued, id, t, st, issued);
    if Agreement(q) {
      WriteAgrees(q, id, t, st);
    }
  }

  lemma ResetKeeps(q: Queue, issued: seq<Claim>, id: Key, newRound: bool, now: int)
    requires Inv(q, issued) && Resettable(q, id)
    ensures Inv(Reset(q, id, newRound, now), issued)
    ensures Agreement(q) ==> Agreement(Reset(q, id, newRound, now))
  {
  }

  lemma PlanLinks(q: Queue, id: Key, media: Key, l: Link, required: bool, outcome: Status, now: int)
    requires WellLinked(q) && Plannable(q, id, media, l, required, outcome)
    ensures WellLinked(Planned(q, id, media, l, required, outcome, now))
  {
    var q' := Planned(q, id, media, l, required, outcome, now);
    forall k | k in q.tasks
      ensures (q.tasks[k].link.Some? ==> q.tasks[k].link.value.step != l.step) && LinkOk(q', q.tasks[k])
    {
      assert LinkOk(q, q.tasks[k]);
    }
  }

  lemma PlanAgrees(q: Queue, id: Key, media: Key, l: Link, required: bool, outcome: Status, now: int)
    requires WellLinked(q) && Plannable(q, id, media, l, required, outcome) && Agreement(q)
    ensures Agreement(Planned(q, id, media, l, required, outcome, now))
  {
  }

  lemma PlanKeeps(q: Queue, issued: seq<Claim>, id: Key, media: Key, l: Link, required: bool, outcome: Status, now: int)
    requires Inv(q, issued) && Plannable(q, id, media, l, required, outcome)
    ensures Inv(Planned(q, id, media, l, required, outcome, now), issued)
  {
    var q' := Planned(q, id, media, l, required, outcome, now);
    PlanLinks(q, id, media, l, required, outcome, now);
    forall k | k in q'.tasks ensures TaskOk(k, q'.tasks[k], issued) {
      assert k != id ==> TaskOk(k, q.tasks[k], issued);
    }
    forall i | 0 <= i < |issued| ensures ClaimOk(q', i, issued[i]) {
      assert ClaimOk(q, i, issued[i]);
    }
  }

  lemma EnqueueKeeps(q: Queue, issued: seq<Claim>, id: Key, media: Key, now: int)
    requires Inv(q, issued) && id !in q.tasks
    ensures Inv(Enqueued(q, id, media, now), issued)
    ensures Agreement(q) ==> Agreement(Enqueued(q, id, media, now))
  {
  }

  // ---------- the reaper ----------

  lemma ReapTasksKeeps(q: Queue, issued: seq<Claim>, exhausted: bool, now: int)
    requires Inv(q, issued)
    ensures Inv(ReapTasks(q, exhausted, now), issued)
  {
    var q' := ReapTasks(q, exhausted, now);
    forall id | id in q'.tasks ensures TaskOk(id, q'.tasks[id], issued) {
      assert TaskOk(id, q.tasks[id], issued);
    }
    RewriteKeeps(q, q', issued);
  }

  lemma ReapStepsKeeps(q: Queue, issued: seq<Claim>, exhausted: bool, now: int)
    requires Inv(q, issued)
    ensures Inv(ReapSteps(q, exhausted, now), issued)
  {
  }

  lemma ReapKeeps(q: Queue, issued: seq<Claim>, m: Moments)
    requires Inv(q, issued)
    ensures Inv(Reaped(q, m), issued)
  {
    var q1 := ReapSteps(q, false, m.t1);
    var q2 := ReapTasks(q1, false, m.t2);
    var q3 := ReapSteps(q2, true, m.t3);
    ReapStepsKeeps(q, issued, false, m.t1);
    ReapTasksKeeps(q1, issued, false, m.t2);
    ReapStepsKeeps(q2, issued, true, m.t3);
    ReapTasksKeeps(q3, issued, true, m.t4);
  }

  /** The lease of a linked task runs out between the statement that looks at the steps and the one that looks at
      the tasks. */
  predicate Torn(t: Task, m: Moments) {
    && t.link.Some? && t.status == Running && t.lease.Some?
    && if t.fails < MAX_FAILURES then m.t1 <= t.lease.value < m.t2 else m.t3 <= t.lease.value < m.t4
  }

  /** A step is reaped in a pass exactly when it runs and its own task is stuck. */
  lemma StepStuckExact(q: Queue, id: Key, exhausted: bool, now: int)
    requires WellLinked(q) && id in q.tasks && q.tasks[id].link.Some?
    ensures StepStuck(q, q.tasks[id].link.value.step, exhausted, now) <==> Stuck(q.tasks[id], exhausted, now)
  {
  }

  /** What one pass over the steps and one over the tasks make of a pair of rows. */
  function PairAfter(t: Task, st: Step, exhausted: bool, early: int, late: int): (Task, Step) {
    (if Stuck(t, exhausted, late) then TaskReaped(t, exhausted, late) else t,
     if st.status == Running && Stuck(t, exhausted, early) then StepReaped(st, exhausted, early) else st)
  }

  lemma PassExact(q: Queue, issued: seq<Claim>, id: Key, exhausted: bool, early: int, late: int)
    requires Inv(q, issued) && id in q.tasks && q.tasks[id].link.Some?
    ensures var q' := ReapTasks(ReapSteps(q, exhausted, early), exhausted, late);
      && Inv(q', issued) && id in q'.tasks && q'.tasks[id].link == q.tasks[id].link && q.tasks[id].link.value.step in q.steps
      && q'.steps.Keys == q.steps.Keys
      && (q'.tasks[id], q'.steps[q.tasks[id].link.value.step])
         == PairAfter(q.tasks[id], q.steps[q.tasks[id].link.value.step], exhausted, early, late)
  {
    assert LinkOk(q, q.tasks[id]);
    StepStuckExact(q, id, exhausted, early);
    ReapStepsKeeps(q, issued, exhausted, early);
    ReapTasksKeeps(ReapSteps(q, exhausted, early), issued, exhausted, late);
  }

  /** For one linked task: the two rows agree after the reaper exactly when the lease did not run out in between. */
  lemma PairAgreesExact(t: Task, st: Step, m: Moments, id: Key, issued: seq<Claim>)
    requires TaskOk(id, t, issued) && t.link.Some? && Agrees(t, st) && Ordered(m)
    ensures var p := PairAfter(t, st, false, m.t1, m.t2); var p' := PairAfter(p.0, p.1, true, m.t3, m.t4);
            Agrees(p'.0, p'.1) <==> !Torn(t, m)
  {
  }

  lemma TornExact(q: Queue, issued: seq<Claim>, m: Moments, id: Key)
    requires Inv(q, issued) && Agreement(q) && Ordered(m) && id in q.tasks && q.tasks[id].link.Some?
    ensures var q' := Reaped(q, m); var step := q.tasks[id].link.value.step;
      && id in q'.tasks && q'.tasks[id].link == q.tasks[id].link && step in q'.steps
      && (Agrees(q'.tasks[id], q'.steps[step]) <==> !Torn(q.tasks[id], m))
  {
    PassExact(q, issued, id, false, m.t1, m.t2);
    PassExact(ReapTasks(ReapSteps(q, false, m.t1), false, m.t2), issued, id, true, m.t3, m.t4);
    assert TaskOk(id, q.tasks[id], issued);
    PairAgreesExact(q.tasks[id], q.steps[q.tasks[id].link.value.step], m, id, issued);
  }

  /** The pair of the task `id` agrees. */
  predicate InStep(q: Queue, id: Key) {
    id in q.tasks && q.tasks[id].link.Some? && q.tasks[id].link.value.step in q.steps ==>
      Agrees(q.tasks[id], q.steps[q.tasks[id].link.value.step])
  }

  lemma ReapInStepExact(q: Queue, issued: seq<Claim>, m: Moments, id: Key)
    requires Inv(q, issued) && Agreement(q) && Ordered(m) && id in q.tasks
    ensures InStep(Reaped(q, m), id) <==> !Torn(q.tasks[id], m)
  {
    if q.tasks[id].link.Some? {
      TornExact(q, issued, m, id);
    }
  }

  /** The reaper keeps every step in agreement with its task exactly when no lease of a linked task runs out
      between its statements. */
  lemma ReapAgreesExact(q: Queue, issued: seq<Claim>, m: Moments)
    requires Inv(q, issued) && Agreement(q) && Ordered(m)
    ensures Agreement(Reaped(q, m)) <==> forall id | id in q.tasks :: !Torn(q.tasks[id], m)
  {
    forall id | id in q.tasks ensures InStep(Reaped(q, m), id) <==> !Torn(q.tasks[id], m) {
      ReapInStepExact(q, issued, m, id);
    }
    assert Reaped(q, m).tasks.Keys == q.tasks.Keys;
    assert Agreement(Reaped(q, m)) <==> forall id | id in q.tasks :: InStep(Reaped(q, m), id);
  }

  /** With all four statements reading the same clock value nothing can be torn. */
  lemma SameMomentAgrees(q: Queue, issued: seq<Claim>, now: int)
    requires Inv(q, issued) && Agreement(q)
    ensures Agreement(Reaped(q, Moments(now, now, now, now)))
  {
    ReapAgreesExact(q, issued, Moments(now, now, now, now));
  }

  // ---------- the aggregation of a run ----------

  lemma ConvergeSameRows(q: Queue, run: Key, reason: string, now: int)
    ensures SameRows(q, Converged(q, run, reason, now))
  {
  }

  lemma ConvergeKeeps(q: Queue, issued: seq<Claim>, run: Key, reason: string, now: int)
    requires Inv(q, issued)
    ensures Inv(Converged(q, run, reason, now), issued)
  {
    var q' := Converged(q, run, reason, now);
    ConvergeSameRows(q, run, reason, now);
    forall id | id in q'.tasks ensures TaskOk(id, q'.tasks[id], issued) {
      assert TaskOk(id, q.tasks[id], issued);
    }
    RewriteKeeps(q, q', issued);
  }

  lemma ConvergeAgrees(q: Queue, run: Key, reason: string, now: int)
    requires WellLinked(q) && Agreement(q)
    ensures Agreement(Converged(q, run, reason, now))
  {
  }

  lemma BlockSameRows(q: Queue, run: Key, now: int)
    ensures SameRows(q, BlockTasks(BlockSteps(q, run, now), run, now))
  {
  }

  lemma BlockKeeps(q: Queue, issued: seq<Claim>, run: Key, now: int)
    requires Inv(q, issued)
    ensures Inv(BlockTasks(BlockSteps(q, run, now), run, now), issued)
  {
    var q' := BlockTasks(BlockSteps(q, run, now), run, now);
    BlockSameRows(q, run, now);
    forall id | id in q'.tasks ensures TaskOk(id, q'.tasks[id], issued) {
      assert TaskOk(id, q.tasks[id], issued);
    }
    RewriteKeeps(q, q', issued);
  }

  lemma BlockAgrees(q: Queue, issued: seq<Claim>, run: Key, now: int)
    requires Inv(q, issued) && Agreement(q)
    ensures Agreement(BlockTasks(BlockSteps(q, run, now), run, now))
  {
  }

  lemma UnblockKeeps(q: Queue, issued: seq<Claim>, run: Key, o: Siblings, now: int)
    requires Inv(q, issued) && run in q.runs
    ensures Inv(Unblocked(q, run, o, now), issued)
    ensures Agreement(q) ==> Agreement(Unblocked(q, run, o, now))
  {
    if q.runs[run].status != Closed && Failing(q, run, o) {
      BlockKeeps(q, issued, run, now);
      if Agreement(q) {
        BlockAgrees(q, issued, run, now);
      }
    }
  }

  /** What the aggregation decides about a run keeps the invariants and the agreement, whatever the other steps do. */
  lemma AggregateKeeps(q: Queue, issued: seq<Claim>, run: Key, o: Siblings, preserve: bool, reason: string, now: int)
    requires Inv(q, issued) && Aggregates(q, run)
    ensures Inv(Aggregated(q, run, o, preserve, reason, now), issued)
    ensures Agreement(q) ==> Agreement(Aggregated(q, run, o, preserve, reason, now))
  {
    UnblockKeeps(q, issued, run, o, now);
    CloseKeeps(Unblocked(q, run, o, now), issued, run, NextStatus(q, run, o, preserve), reason, now);
  }

  lemma CloseKeeps(q: Queue, issued: seq<Claim>, run: Key, next: RunStatus, reason: string, now: int)
    requires Inv(q, issued) && run in q.runs
    ensures var stated := WithStatus(q, run, next); var q' := if next == Closed then Converged(stated, run, reason, now) else stated;
            Inv(q', issued) && (Agreement(q) ==> Agreement(q'))
  {
    var stated := WithStatus(q, run, next);
    RunsKeep(q, issued, stated.runs);
    if next == Closed {
      ConvergeKeeps(stated, issued, run, reason, now);
      if Agreement(stated) {
        ConvergeAgrees(stated, run, reason, now);
      }
    }
  }

  /** The row stays, or what it stood for is given up. */
  predicate KeptOrGivenUp(t: Task, t': Task) {
    t' == t || (t'.status == Cancelled && t' == t.(status := Cancelled, owner := None, lease := None, message := t'.message,
                                                   progress := t'.progress, finished := t'.finished))
  }

  lemma UnblockedTask(q: Queue, run: Key, o: Siblings, now: int, id: Key)
    requires run in q.runs && id in q.tasks
    ensures var q' := Unblocked(q, run, o, now);
      && id in q'.tasks && KeptOrGivenUp(q.tasks[id], q'.tasks[id]) && (q.tasks[id].status == Done ==> q'.tasks[id] == q.tasks[id])
      && q'.runs == q.runs && q'.generations == q.generations && q'.tasks.Keys == q.tasks.Keys
  {
  }

  /** The aggregation changes no task but to give it up, and never a done one. */
  lemma AggregatedTask(q: Queue, run: Key, o: Siblings, preserve: bool, reason: string, now: int, id: Key)
    requires Aggregates(q, run) && id in q.tasks
    ensures var q' := Aggregated(q, run, o, preserve, reason, now);
      id in q'.tasks && KeptOrGivenUp(q.tasks[id], q'.tasks[id]) && (q.tasks[id].status == Done ==> q'.tasks[id] == q.tasks[id])
  {
    UnblockedTask(q, run, o, now, id);
  }

  lemma AggregatedStep(q: Queue, run: Key, o: Siblings, preserve: bool, reason: string, now: int, step: Key)
    requires Aggregates(q, run) && step in q.steps && q.steps[step].status == Done
    ensures var q' := Aggregated(q, run, o, preserve, reason, now); step in q'.steps && q'.steps[step] == q.steps[step]
  {
  }

  lemma AggregatedPlans(q: Queue, run: Key, o: Siblings, preserve: bool, reason: string, now: int)
    requires Aggregates(q, run)
    ensures var q' := Aggregated(q, run, o, preserve, reason, now);
      && q'.generations == q.generations && q'.tasks.Keys == q.tasks.Keys
      && q'.runs == q.runs[run := q.runs[run].(status := NextStatus(q, run, o, preserve))]
  {
  }

  /** What the aggregation makes of a processing run: it is published exactly when all required steps are through, goes on
      exactly while one runs, or waits and none has failed; and when it stops, no required step is left waiting or running. */
  lemma AggregateExact(q: Queue, run: Key, o: Siblings, preserve: bool, reason: string, now: int)
    requires Aggregates(q, run) && q.runs[run].status == Processing
    ensures var q' := Aggregated(q, run, o, preserve, reason, now); var status := q'.runs[run].status;
      && (status == Published <==>
            && !o.waiting && !o.running && !o.ended
            && forall s | s in q.steps && q.steps[s].run == run && q.steps[s].required ::
                 var st := q.steps[s].status; st != Waiting && st != Running && st != Failed && st != Cancelled)
      && (status == Processing <==>
            || o.running || Requires(q, run, Running)
            || ((o.waiting || Requires(q, run, Waiting)) && !o.ended && !Requires(q, run, Failed) && !Requires(q, run, Cancelled)))
      && (status == Degraded ==> preserve) && (status == Closed ==> !preserve)
      && (status != Processing ==>
            forall s | s in q'.steps && q'.steps[s].run == run && q'.steps[s].required ::
              q'.steps[s].status != Waiting && q'.steps[s].status != Running)
  {
    AggregatedPlans(q, run, o, preserve, reason, now);
    var q', u := Aggregated(q, run, o, preserve, reason, now), Unblocked(q, run, o, now);
    forall s | s in q'.steps && q'.steps[s].run == run && q'.steps[s].required && q'.runs[run].status != Processing
      ensures !Pending(q'.steps[s].status)
    {
      assert s in u.steps && u.steps[s].run == run && u.steps[s].required;
    }
  }

  /** A step that runs, and the task of such a step if it waits or failed, are touched only when the run is closed. */
  lemma AggregatedPair(q: Queue, run: Key, o: Siblings, preserve: bool, reason: string, now: int, id: Key)
    requires Aggregates(q, run) && WellLinked(q) && PairOf(q, id)
    requires LeftRunning(q.tasks[id], q.steps[q.tasks[id].link.value.step])
    ensures var q', l := Aggregated(q, run, o, preserve, reason, now), q.tasks[id].link.value;
      && id in q'.tasks && l.step in q'.steps && q'.tasks[id].link == q.tasks[id].link
      && if run == l.run && NextStatus(q, run, o, preserve) == Closed
         then && q'.tasks[id].status == (if q.tasks[id].status == Waiting then Cancelled else Failed)
              && q'.steps[l.step].status == Cancelled && q'.steps[l.step].owner.None? && q'.steps[l.step].lease.None?
         else q'.tasks[id] == q.tasks[id] && q'.steps[l.step] == q.steps[l.step]
  {
    assert LinkOk(q, q.tasks[id]);
    var u := Unblocked(q, run, o, now);
    assert u.tasks[id] == q.tasks[id] && u.steps[q.tasks[id].link.value.step] == q.steps[q.tasks[id].link.value.step];
  }

  lemma SkipKeeps(q: Queue, issued: seq<Claim>, id: Key, reason: string, now: int)
    requires Inv(q, issued) && Skippable(q, id)
    ensures Inv(SkippedBy(q, id, reason, now), issued)
    ensures Agreement(q) ==> Agreement(SkippedBy(q, id, reason, now))
  {
  }

  // ---------- starting the server again ----------

  lemma RestartSameRows(q: Queue, now: int)
    ensures SameRows(q, Restarted(q, now))
  {
  }

  lemma RestartTasksOk(q: Queue, issued: seq<Claim>, now: int)
    requires TasksOk(q, issued)
    ensures TasksOk(Restarted(q, now), issued)
  {
  }

  lemma RestartKeeps(q: Queue, issued: seq<Claim>, now: int)
    requires Inv(q, issued)
    ensures Inv(Restarted(q, now), issued)
  {
    RestartSameRows(q, now);
    RestartTasksOk(q, issued, now);
    RewriteKeeps(q, Restarted(q, now), issued);
  }

  /** Of every pair of rows the reset makes what it makes of these two rows alone. */
  lemma RestartedPair(q: Queue, id: Key, now: int)
    requires WellLinked(q) && id in q.tasks && q.tasks[id].link.Some?
    ensures var q' := Restarted(q, now); var step := q.tasks[id].link.value.step;
      && id in q'.tasks && q'.tasks[id] == TaskRestarted(q, q.tasks[id], now) && q'.tasks[id].link == q.tasks[id].link
      && step in q.steps && step in q'.steps && q'.steps[step] == StepRestarted(q, q.steps[step], q.tasks[id], now)
  {
    var step := q.tasks[id].link.value.step;
    assert LinkOk(q, q.tasks[id]) && LinkedTo(q, id, step);
    forall other | LinkedTo(q, other, step) ensures other == id {
    }
  }

  /** The step still runs while its task has been given up: by a reaper whose statements did not see the same leases. */
  predicate LeftRunning(t: Task, st: Step) {
    st.status == Running && (t.status == Waiting || t.status == Failed)
  }

  /** The step was then cancelled, and the task had failed. */
  predicate Parted(t: Task, st: Step) {
    t.status == Failed && st.status == Cancelled && st.owner.None? && st.lease.None?
  }

  predicate Trails(t: Task, st: Step) {
    Agrees(t, st) || LeftRunning(t, st) || Parted(t, st)
  }

  predicate PairOf(q: Queue, id: Key) {
    id in q.tasks && q.tasks[id].link.Some? && q.tasks[id].link.value.step in q.steps
  }

  ghost predicate Trailing(q: Queue) {
    forall id | PairOf(q, id) :: Trails(q.tasks[id], q.steps[q.tasks[id].link.value.step])
  }

  lemma PairTrails(t: Task, st: Step, exhausted: bool, early: int, late: int)
    requires Trails(t, st) && early <= late
    ensures var p := PairAfter(t, st, exhausted, early, late); Trails(p.0, p.1)
  {
  }

  /** Torn leases or not, the reaper leaves no step in another state than that. */
  lemma ReapTrails(q: Queue, issued: seq<Claim>, m: Moments)
    requires Inv(q, issued) && Trailing(q) && Ordered(m)
    ensures Trailing(Reaped(q, m))
  {
    var q2, q' := ReapTasks(ReapSteps(q, false, m.t1), false, m.t2), Reaped(q, m);
    forall id | PairOf(q', id) ensures Trails(q'.tasks[id], q'.steps[q'.tasks[id].link.value.step]) {
      assert id in q.tasks && q'.tasks[id].link == q.tasks[id].link;
      PassExact(q, issued, id, false, m.t1, m.t2);
      PassExact(q2, issued, id, true, m.t3, m.t4);
      var step := q.tasks[id].link.value.step;
      PairTrails(q.tasks[id], q.steps[step], false, m.t1, m.t2);
      PairTrails(q2.tasks[id], q2.steps[step], true, m.t3, m.t4);
    }
  }

  lemma RestartedPairAgrees(q: Queue, id: Key, t: Task, st: Step, issued: seq<Claim>, now: int)
    requires TaskOk(id, t, issued) && Trails(t, st)
    ensures Agrees(TaskRestarted(q, t, now), StepRestarted(q, st, t, now)) <==> !Parted(t, st)
  {
  }

  /** The step of the task `id` was cancelled after the task had failed. */
  predicate Apart(q: Queue, id: Key) {
    PairOf(q, id) && Parted(q.tasks[id], q.steps[q.tasks[id].link.value.step])
  }

  /** Starting again puts every step that was left running behind its task back in agreement, and of all steps leaves only
      those in disagreement that were cancelled after their task had failed. */
  lemma RestartHeals(q: Queue, issued: seq<Claim>, now: int, id: Key)
    requires Inv(q, issued) && Trailing(q)
    ensures InStep(Restarted(q, now), id) <==> !Apart(q, id)
  {
    if id in q.tasks && q.tasks[id].link.Some? {
      RestartedPair(q, id, now);
      RestartedPairAgrees(q, id, q.tasks[id], q.steps[q.tasks[id].link.value.step], issued, now);
    }
  }

  lemma RestartAgrees(q: Queue, issued: seq<Claim>, now: int)
    requires Inv(q, issued) && Agreement(q)
    ensures Agreement(Restarted(q, now))
  {
    var q' := Restarted(q, now);
    forall id | PairOf(q', id) ensures Agrees(q'.tasks[id], q'.steps[q'.tasks[id].link.value.step]) {
      RestartHeals(q, issued, now, id);
    }
  }

  lemma RepairKeeps(q: Queue, issued: seq<Claim>, id: Key, now: int)
    requires Inv(q, issued) && Desynced(q, id)
    ensures Inv(Repaired(q, id, now), issued)
  {
  }

  /** The repair brings exactly the pairs of current plans into agreement whose status differs. */
  lemma RepairExact(q: Queue, id: Key, other: Key, now: int)
    requires WellLinked(q) && Desynced(q, id) && other in q.tasks && q.tasks[other].link.Some?
    ensures var q' := Repaired(q, id, now); var step := q.tasks[other].link.value.step;
      && step in q.steps && step in q'.steps && q'.tasks == q.tasks
      && (Agrees(q'.tasks[other], q'.steps[step]) <==> other == id || Agrees(q.tasks[other], q.steps[step]))
  {
  }
}
