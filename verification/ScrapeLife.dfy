/** The life of a scrape task, event by event: what every event of a run makes of its status, its attempts and its round, and
    of the runs of plans; and when it can be claimed. */
module ScrapeLife {
  import opened Basics
  import opened ScrapeQueue
  import opened ScrapeInvariants
  import opened ScrapeSettled
  import opened ScrapeRuns

  /** The claim of this number is one of the task. */
  predicate Of(w: World, owner: nat, id: Key) {
    owner < |w.issued| && w.issued[owner].task == id
  }

  /** The run is not of use any more for the medium of the task: superseded, or of an earlier generation. */
  predicate Outdated(q: Queue, t: Task) {
    && t.link.Some? && t.link.value.run in q.runs && t.media in q.generations
    && (q.runs[t.link.value.run].superseded || q.generations[t.media] != t.link.value.generation)
  }

  /** The aggregation of a run gives up the tasks of a run that is closed, and of one that fails those of required steps that
      wait or were cancelled. */
  predicate GivesUp(w: World, ev: Event, t: Task)
    requires ev.Aggregate?
  {
    var q := w.queue;
    && Aggregates(q, ev.run) && t.link.Some? && t.link.value.run == ev.run
    && (|| (NextStatus(q, ev.run, ev.others, ev.preserve) == Closed && (t.status == Waiting || t.status == Running))
        || (&& q.runs[ev.run].status != Closed && Failing(q, ev.run, ev.others)
            && t.link.value.step in q.steps && q.steps[t.link.value.step].required
            && (q.steps[t.link.value.step].status == Waiting || q.steps[t.link.value.step].status == Cancelled)
            && (t.status == Waiting || t.status == Running || t.status == Failed)))
  }

  /** The status of a task after an event. */
  function StatusAfter(w: World, ev: Event, id: Key): Status
    requires id in w.queue.tasks
  {
    var t := w.queue.tasks[id];
    var pending := t.status == Waiting || t.status == Running;
    match ev
    case Take(task, _) => if task == id && Enabled(w, ev) then Running else t.status
    case Fail(owner, _, _) =>
      if Of(w, owner, id) && Enabled(w, ev) then if t.fails >= 3 then Failed else Waiting else t.status
    case Complete(owner, _, _) => if Of(w, owner, id) && Enabled(w, ev) then Done else t.status
    case Reap(gap2, gap3, gap4) =>
      if t.status != Running || t.lease.None? then t.status
      else if t.fails < 3 then if t.lease.value < w.now + gap2 then Waiting else Running
      else if t.lease.value < w.now + gap2 + gap3 + gap4 then Failed else Running
    case Supersession(run) => if t.link.Some? && t.link.value.run == run && pending then Cancelled else t.status
    case Cancellation(run, _) => if Enabled(w, ev) && t.link.Some? && t.link.value.run == run && pending then Cancelled else t.status
    case Abort(task) => if task == id && Enabled(w, ev) then Cancelled else t.status
    case Reopen(task) => if task == id && Enabled(w, ev) then Waiting else t.status
    case Requeue(task, _) => if task == id && Enabled(w, ev) then Waiting else t.status
    case Aggregate(_, _, _, _) => if GivesUp(w, ev, t) then Cancelled else t.status
    case Skip(task, _) => if task == id && Enabled(w, ev) then Skipped else t.status
    case Restart =>
      if !pending then t.status
      else if Outdated(w.queue, t) then Cancelled
      else if t.fails >= 3 then Failed
      else Waiting
    case _ => t.status
  }

  /** Attempts are counted by claims, and forgotten when the task is done or queued again. */
  function AttemptsAfter(w: World, ev: Event, id: Key): int
    requires id in w.queue.tasks
  {
    var fails := w.queue.tasks[id].fails;
    match ev
    case Take(task, _) => if task == id && Enabled(w, ev) then fails + 1 else fails
    case Complete(owner, _, _) => if Of(w, owner, id) && Enabled(w, ev) then 0 else fails
    case Reopen(task) => if task == id && Enabled(w, ev) then 0 else fails
    case Requeue(task, _) => if task == id && Enabled(w, ev) then 0 else fails
    case _ => fails
  }

  function RoundAfter(w: World, ev: Event, id: Key): nat
    requires id in w.queue.tasks
  {
    var round := w.queue.tasks[id].round;
    match ev
    case Reopen(task) => if task == id && Enabled(w, ev) then round + 1 else round
    case Requeue(task, newRound) => if task == id && newRound && Enabled(w, ev) then round + 1 else round
    case _ => round
  }

  ghost predicate Lives(w: World, ev: Event, id: Key)
    requires id in w.queue.tasks
  {
    var t, q' := w.queue.tasks[id], Next(w, ev).queue;
    && id in q'.tasks && q'.tasks[id].media == t.media && q'.tasks[id].link == t.link
    && q'.tasks[id].status == StatusAfter(w, ev, id)
    && q'.tasks[id].fails == AttemptsAfter(w, ev, id) && q'.tasks[id].round == RoundAfter(w, ev, id)
  }

  /** What the invariants say about one task. */
  ghost predicate OneOk(w: World, id: Key) {
    id in w.queue.tasks && LinkOk(w.queue, w.queue.tasks[id]) && TaskOk(id, w.queue.tasks[id], w.issued)
  }

  lemma WorkersLive(w: World, ev: Event, id: Key)
    requires OneOk(w, id) && ClaimsOk(w.queue, w.issued) && OfWorkers(ev) && !ev.Reap?
    ensures Lives(w, ev, id)
  {
  }

  lemma ReaperLives(w: World, ev: Event, id: Key)
    requires OneOk(w, id) && ev.Reap?
    ensures Lives(w, ev, id)
  {
  }

  lemma EndsLive(w: World, ev: Event, id: Key)
    requires OneOk(w, id) && (ev.Supersession? || ev.Cancellation?)
    ensures Lives(w, ev, id)
  {
  }

  lemma OthersLive(w: World, ev: Event, id: Key)
    requires OneOk(w, id) && !OfWorkers(ev) && !OfUpkeep(ev) && !ev.Supersession? && !ev.Cancellation?
    ensures Lives(w, ev, id)
  {
  }

  lemma BlockedTask(q: Queue, run: Key, o: Siblings, now: int, id: Key)
    requires run in q.runs && id in q.tasks && LinkOk(q, q.tasks[id])
    ensures var q', t := Unblocked(q, run, o, now), q.tasks[id];
      && id in q'.tasks && q'.runs == q.runs
      && var t' := q'.tasks[id];
         && t'.media == t.media && t'.link == t.link && t'.fails == t.fails && t'.round == t.round
         && t'.status == if && q.runs[run].status != Closed && Failing(q, run, o) && t.link.Some? && t.link.value.run == run
                            && q.steps[t.link.value.step].required
                            && (q.steps[t.link.value.step].status == Waiting || q.steps[t.link.value.step].status == Cancelled)
                            && (t.status == Waiting || t.status == Running || t.status == Failed)
                         then Cancelled else t.status
  {
  }

  lemma ClosedTask(q: Queue, run: Key, next: RunStatus, reason: string, now: int, id: Key)
    requires run in q.runs && id in q.tasks
    ensures var stated := WithStatus(q, run, next);
      var q', t := if next == Closed then Converged(stated, run, reason, now) else stated, q.tasks[id];
      && id in q'.tasks
      && var t' := q'.tasks[id];
         && t'.media == t.media && t'.link == t.link && t'.fails == t.fails && t'.round == t.round
         && t'.status == if next == Closed && t.link.Some? && t.link.value.run == run && (t.status == Waiting || t.status == Running)
                         then Cancelled else t.status
  {
  }

  lemma AggregateLives(w: World, ev: Event, id: Key)
    requires OneOk(w, id) && ev.Aggregate?
    ensures Lives(w, ev, id)
  {
    if Enabled(w, ev) {
      var q := w.queue;
      BlockedTask(q, ev.run, ev.others, w.now, id);
      ClosedTask(Unblocked(q, ev.run, ev.others, w.now), ev.run, NextStatus(q, ev.run, ev.others, ev.preserve), ev.reason, w.now, id);
    }
  }

  lemma UpkeepLives(w: World, ev: Event, id: Key)
    requires OneOk(w, id) && OfUpkeep(ev) && !ev.Aggregate?
    ensures Lives(w, ev, id)
  {
  }

  /** Every event does to every task exactly this. */
  lemma Lifecycle(w: World, ev: Event, id: Key)
    requires WorldOk(w) && id in w.queue.tasks
    ensures Lives(w, ev, id)
  {
    assert OneOk(w, id);
    if ev.Reap? {
      ReaperLives(w, ev, id);
    } else if OfWorkers(ev) {
      WorkersLive(w, ev, id);
    } else if ev.Aggregate? {
      AggregateLives(w, ev, id);
    } else if OfUpkeep(ev) {
      UpkeepLives(w, ev, id);
    } else if ev.Supersession? || ev.Cancellation? {
      EndsLive(w, ev, id);
    } else {
      OthersLive(w, ev, id);
    }
  }

  /** And to every run of a plan this: it is superseded by that event alone; superseding and cancelling close a run that is being
      processed, reviving reopens it, and aggregating decides over one that is not closed. */
  lemma RunCycle(w: World, ev: Event, run: Key)
    requires run in w.queue.runs
    ensures run in Next(w, ev).queue.runs && (!ev.Plan? ==> Next(w, ev).queue.generations == w.queue.generations)
    ensures var r, r' := w.queue.runs[run], Next(w, ev).queue.runs[run];
      && r'.media == r.media && r'.generation == r.generation
      && (r'.superseded <==> r.superseded || ev == Supersession(run))
      && match ev
         case Supersession(other) => r'.status == (if other == run && r.status == Processing then Closed else r.status)
         case Cancellation(other, _) => r'.status == (if other == run && Enabled(w, ev) then Closed else r.status)
         case Revive(other) => r'.status == (if other == run && Enabled(w, ev) then Processing else r.status)
         case Aggregate(other, _, _, _) =>
           (other != run || r.superseded || r.status != Processing ==> r'.status == r.status)
         case _ => r'.status == r.status
  {
    if ev.Aggregate? && Enabled(w, ev) {
      AggregatedPlans(w.queue, ev.run, ev.others, ev.preserve, ev.reason, w.now);
    }
  }

  /** The plan of the task, by the columns: its step is one of this run, medium and generation. */
  predicate Attached(q: Queue, t: Task) {
    && t.link.Some?
    && var l := t.link.value;
       && l.step in q.steps && q.steps[l.step].run == l.run && q.steps[l.step].media == t.media && q.steps[l.step].generation == l.generation
  }

  /** And the plan is the medium's current one. */
  predicate UpToDate(q: Queue, t: Task) {
    && Attached(q, t)
    && var l := t.link.value;
       && l.run in q.runs && q.runs[l.run].media == t.media && q.runs[l.run].generation == l.generation && !q.runs[l.run].superseded
       && t.media in q.generations && q.generations[t.media] == l.generation
  }

  /** When publication and the operators may act: a run is cancelled while it is being processed for its medium's current generation;
      a running task is aborted, a linked one while its step runs in a current plan; an exhausted optional step of a current plan
      that was published is reopened; a standalone task that ended is queued again; a waiting task is skipped with its waiting
      step; a run is aggregated unless it is superseded or was published; and a step of a current plan that differs from its
      task is repaired. */
  lemma GuardsExact(w: World, ev: Event)
    ensures var q := w.queue;
      match ev
      case Cancellation(run, _) =>
        Enabled(w, ev) <==>
          && run in q.runs && q.runs[run].status == Processing && !q.runs[run].superseded
          && q.runs[run].media in q.generations && q.generations[q.runs[run].media] == q.runs[run].generation
      case Abort(id) =>
        Enabled(w, ev) <==>
          && id in q.tasks && q.tasks[id].status == Running
          && (q.tasks[id].link.Some? ==> UpToDate(q, q.tasks[id]) && q.steps[q.tasks[id].link.value.step].status == Running)
      case Reopen(id) =>
        Enabled(w, ev) <==>
          && id in q.tasks && (q.tasks[id].status == Failed || q.tasks[id].status == Cancelled) && q.tasks[id].fails >= 3
          && UpToDate(q, q.tasks[id])
          && var l := q.tasks[id].link.value;
             && (q.runs[l.run].status == Published || q.runs[l.run].status == Degraded) && !q.steps[l.step].required
             && (q.steps[l.step].status == Failed || q.steps[l.step].status == Cancelled)
      case Requeue(id, _) =>
        Enabled(w, ev) <==> id in q.tasks && q.tasks[id].link.None? && q.tasks[id].status != Waiting && q.tasks[id].status != Running
      case Skip(id, _) =>
        Enabled(w, ev) <==>
          && id in q.tasks && q.tasks[id].status == Waiting && Attached(q, q.tasks[id])
          && q.steps[q.tasks[id].link.value.step].status == Waiting
      case Aggregate(run, _, _, _) =>
        Enabled(w, ev) <==> run in q.runs && !q.runs[run].superseded && (q.runs[run].status == Processing || q.runs[run].status == Closed)
      case Revive(run) => Enabled(w, ev) <==> run in q.runs && !q.runs[run].superseded
      case Resync(id) =>
        Enabled(w, ev) <==>
          id in q.tasks && UpToDate(q, q.tasks[id]) && q.steps[q.tasks[id].link.value.step].status != q.tasks[id].status
      case _ => true
  {
  }

  /** Tasks come from new plans, with a current run of their own that is being processed, and from new standalone requests; a medium
      changes its generation with a new plan only. */
  lemma Births(w: World, ev: Event, id: Key)
    requires WorldOk(w) && id !in w.queue.tasks && id in Next(w, ev).queue.tasks
    ensures Enabled(w, ev) && (ev.Plan? || ev.Enqueue?) && ev.task == id
    ensures var q', t := Next(w, ev).queue, Next(w, ev).queue.tasks[id];
      && t.media == ev.media && t.fails == 0 && t.round == 0 && t.available == Some(w.now)
      && t.link == (if ev.Plan? then Some(ev.link) else None) && t.status == (if ev.Plan? then ev.outcome else Waiting)
      && (ev.Plan? ==>
            && ev.link.run in q'.runs && q'.runs[ev.link.run] == IngestRun(ev.media, ev.link.generation, Processing, false)
            && ev.link.step in q'.steps && q'.steps[ev.link.step].required == ev.required && q'.steps[ev.link.step].status == ev.outcome
            && q'.generations == w.queue.generations[ev.media := ev.link.generation])
  {
  }

  /** Given the invariants, a task can be claimed exactly if it waits and is due, and, when it is linked, its step waits in a plan
      that is current and open, the other steps let it, and a required step's run is being processed. */
  lemma ClaimableExact(w: World, id: Key, ready: bool, at: int)
    requires WorldOk(w) && id in w.queue.tasks
    ensures var q, t := w.queue, w.queue.tasks[id];
      Claimable(q, id, ready, at) <==>
        && t.status == Waiting && (t.available.None? || t.available.value <= at)
        && (t.link.Some? ==>
              && t.link.value.run in q.runs && t.link.value.step in q.steps && t.media in q.generations
              && var r, st := q.runs[t.link.value.run], q.steps[t.link.value.step];
                 && ready && !r.superseded && q.generations[t.media] == t.link.value.generation && r.status != Closed
                 && st.status == Waiting && (st.required ==> r.status == Processing))
  {
    assert OneOk(w, id);
  }

  /** What is queued again, or reopened, is due at once; so is what a start of the server interrupts, unless it was to rest. */
  lemma DueAgain(w: World, ev: Event, id: Key)
    requires WorldOk(w) && id in w.queue.tasks && Enabled(w, ev)
    requires ev == Reopen(id) || (ev.Requeue? && ev.task == id) || (ev.Restart? && w.queue.tasks[id].available.None?)
    ensures id in Next(w, ev).queue.tasks && Next(w, ev).queue.tasks[id].status == Waiting ==> Due(Next(w, ev).queue.tasks[id], w.now)
  {
    assert OneOk(w, id);
  }

  /** What a pass of the reaper makes of the step of a running task whose lease ran out before it: due at once, or failed. */
  lemma ReapedStep(q: Queue, issued: seq<Claim>, m: Moments, id: Key)
    requires Inv(q, issued) && Agreement(q) && Ordered(m) && id in q.tasks && q.tasks[id].link.Some?
    requires q.tasks[id].status == Running && q.tasks[id].lease.Some? && q.tasks[id].lease.value < m.t1
    ensures var q', step := Reaped(q, m), q.tasks[id].link.value.step;
      && step in q'.steps && q'.steps[step].owner.None? && q'.steps[step].lease.None? && q'.steps[step].attempts == q.tasks[id].fails
      && if q.tasks[id].fails < 3 then q'.steps[step].status == Waiting && q'.steps[step].available == Some(m.t1) && q'.steps[step].finished.None?
         else q'.steps[step].status == Failed && q'.steps[step].finished == Some(m.t3)
  {
    PassExact(q, issued, id, false, m.t1, m.t2);
    PassExact(ReapTasks(ReapSteps(q, false, m.t1), false, m.t2), issued, id, true, m.t3, m.t4);
    assert LinkOk(q, q.tasks[id]);
  }

  /** The step of a claim that ends takes over how it ended: status, time of the end, and, if it failed, message, attempts and the
      time of the next one. */
  lemma EndMirrors(w: World, ev: Event)
    requires WorldOk(w) && (ev.Fail? || ev.Complete?) && Enabled(w, ev) && w.issued[ev.owner].link.Some?
    ensures var q', c := Next(w, ev).queue, w.issued[ev.owner];
      && c.task in q'.tasks && c.link.value.step in q'.steps
      && var t, st := q'.tasks[c.task], q'.steps[c.link.value.step];
         && st.status == t.status && st.finished == t.finished && st.owner.None? && st.lease.None? && t.message == ev.message
         && (t.status != Waiting ==> t.finished == Some(w.now) && t.progress == 100)
         && (ev.Fail? ==> st.error == t.message && st.attempts == t.fails && st.available == t.available)
  {
    assert TaskOk(w.issued[ev.owner].task, w.queue.tasks[w.issued[ev.owner].task], w.issued);
  }

  /** A start of the server that sets a step waiting again behind its task gives it the attempts of the task and the time from which
      that is due. */
  lemma RestartCopies(q: Queue, id: Key, now: int)
    requires WellLinked(q) && id in q.tasks && q.tasks[id].link.Some?
    ensures var q', step := Restarted(q, now), q.tasks[id].link.value.step;
      && id in q'.tasks && step in q.steps && step in q'.steps
      && var t, st := q'.tasks[id], q'.steps[step];
         q.steps[step].status == Running && st.status == Waiting ==>
           st.attempts == t.fails && st.available == t.available && st.error == "" && st.finished.None? && st.owner.None? && st.lease.None?
  {
    RestartedPair(q, id, now);
  }

  /** The repair copies onto a step all that it shares with its task; a task that may run at any time is available from now on. */
  lemma RepairCopies(q: Queue, id: Key, now: int)
    requires Desynced(q, id)
    ensures var q', t, step := Repaired(q, id, now), q.tasks[id], q.tasks[id].link.value.step;
      && step in q'.steps
      && var st := q'.steps[step];
         && st.status == t.status && st.owner == t.owner && st.lease == t.lease && st.attempts == t.fails && st.error == t.message
         && st.finished == t.finished && st.available == Some(if t.available.Some? then t.available.value else now)
  {
  }
}
