/** What a torn lease leads to. A reaper whose statements do not see the same leases gives a task up and leaves its step
    running: for good, until one of a few events takes the pair out again. */
module ScrapeTorn {
  import opened Basics
  import opened ScrapeQueue
  import opened ScrapeInvariants
  import opened ScrapeSettled
  import opened ScrapeRuns

  /** The task waits while its step still runs, */
  predicate Wedged(q: Queue, id: Key) {
    Left(q, id) && q.tasks[id].status == Waiting
  }

  /** or it has failed. */
  predicate Stranded(q: Queue, id: Key) {
    Left(q, id) && q.tasks[id].status == Failed
  }

  predicate Left(q: Queue, id: Key) {
    PairOf(q, id) && LeftRunning(q.tasks[id], q.steps[q.tasks[id].link.value.step])
  }

  /** A torn lease leaves the step running; the task waits while it has attempts left, and otherwise has failed. */
  lemma TornWedges(q: Queue, issued: seq<Claim>, m: Moments, id: Key)
    requires Inv(q, issued) && Agreement(q) && Ordered(m) && id in q.tasks && Torn(q.tasks[id], m)
    ensures if q.tasks[id].fails < MAX_FAILURES then Wedged(Reaped(q, m), id) else Stranded(Reaped(q, m), id)
  {
    var q2 := ReapTasks(ReapSteps(q, false, m.t1), false, m.t2);
    PassExact(q, issued, id, false, m.t1, m.t2);
    PassExact(q2, issued, id, true, m.t3, m.t4);
    assert LinkOk(q, q.tasks[id]);
  }

  /** A lease that ends at second 10, when the reaper looks at the steps at second 10 and at the tasks at second 11: both
      halves, by the number of the attempt. */
  lemma TornExample(attempt: int)
    requires 1 <= attempt <= MAX_FAILURES
    ensures var t := Task(Key(1), Some(Link(Key(2), Key(3), 1)), Running, Some(0), Some(10), 0, attempt, None, 15, "", None);
            var st := Step(Key(2), Key(1), 1, true, Running, Some(0), Some(10), attempt, None, "", None);
            var q := Queue(map[Key(4) := t], map[Key(3) := st], map[Key(2) := IngestRun(Key(1), 1, Processing, false)], map[Key(1) := 1]);
            var q' := Reaped(q, if attempt < MAX_FAILURES then Moments(10, 11, 11, 11) else Moments(10, 10, 10, 11));
            && Owns(q, Claim(Key(4), Key(1), t.link, 0, attempt, 0)) && Agreement(q)
            && if attempt < MAX_FAILURES then Wedged(q', Key(4)) else Stranded(q', Key(4))
  {
    var t := Task(Key(1), Some(Link(Key(2), Key(3), 1)), Running, Some(0), Some(10), 0, attempt, None, 15, "", None);
    var st := Step(Key(2), Key(1), 1, true, Running, Some(0), Some(10), attempt, None, "", None);
    var q := Queue(map[Key(4) := t], map[Key(3) := st], map[Key(2) := IngestRun(Key(1), 1, Processing, false)], map[Key(1) := 1]);
    var issued := [Claim(Key(4), Key(1), t.link, 0, attempt, 0)];
    assert Inv(q, issued) && Agreement(q);
    TornWedges(q, issued, if attempt < MAX_FAILURES then Moments(10, 11, 11, 11) else Moments(10, 10, 10, 11), Key(4));
  }

  // ---------- the ways out ----------

  /** What gets the pair out again: the end of its run, a start of the server, and the repair of a current plan. */
  predicate Frees(w: World, ev: Event, id: Key)
    requires Left(w.queue, id)
  {
    var l := w.queue.tasks[id].link.value;
    match ev
    case Supersession(run) => run == l.run
    case Cancellation(run, _) => run == l.run && Cancellable(w.queue, run)
    case Aggregate(run, others, preserve, _) =>
      run == l.run && Aggregates(w.queue, run) && NextStatus(w.queue, run, others, preserve) == Closed
    case Restart => true
    case Resync(task) => task == id && Desynced(w.queue, id)
    case _ => false
  }

  predicate SamePair(q: Queue, q': Queue, id: Key)
    requires PairOf(q, id) && PairOf(q', id)
  {
    q'.tasks[id] == q.tasks[id] && q'.steps[q'.tasks[id].link.value.step] == q.steps[q.tasks[id].link.value.step]
  }

  /** What the invariants say about one pair. */
  ghost predicate PairOk(w: World, id: Key) {
    && PairOf(w.queue, id) && LinkOk(w.queue, w.queue.tasks[id]) && TaskOk(id, w.queue.tasks[id], w.issued)
    && forall other | other in w.queue.tasks && other != id && w.queue.tasks[other].link.Some? ::
         w.queue.tasks[other].link.value.step != w.queue.tasks[id].link.value.step
  }

  lemma PairIsOk(w: World, id: Key)
    requires WorldOk(w) && PairOf(w.queue, id)
    ensures PairOk(w, id)
  {
  }

  /** The events that end a run from outside. */
  predicate OfEnds(ev: Event) {
    ev.Supersession? || ev.Cancellation?
  }

  /** Nothing moves the task, or the step stops running; then the two agree again, unless the run's end cancelled the step of
      a task that had failed. */
  ghost predicate LeftOr(w: World, ev: Event, id: Key)
    requires Left(w.queue, id)
  {
    var q, q' := w.queue, Next(w, ev).queue;
    if !Frees(w, ev, id) then Left(q', id) && SamePair(q, q', id)
    else !Left(q', id) && if Stranded(q, id) && !ev.Restart? && !ev.Resync? then Apart(q', id) else PairOf(q', id) && InStep(q', id)
  }

  lemma WorkersAndLeft(w: World, ev: Event, id: Key)
    requires PairOk(w, id) && Left(w.queue, id) && OfWorkers(ev) && !ev.Reap?
    ensures LeftOr(w, ev, id)
  {
  }

  lemma ReaperLeaves(q: Queue, issued: seq<Claim>, m: Moments, id: Key)
    requires Inv(q, issued) && Left(q, id)
    ensures Left(Reaped(q, m), id) && SamePair(q, Reaped(q, m), id)
  {
  }

  lemma CancelAndLeft(q: Queue, run: Key, reason: string, now: int, id: Key)
    requires Left(q, id) && StepOf(q, q.tasks[id].link.value, q.tasks[id].media)
    ensures var q', l := CancelRun(q, run, reason, now), q.tasks[id].link.value;
      && PairOf(q', id) && q'.tasks[id].link == q.tasks[id].link
      && if run != l.run then SamePair(q, q', id)
         else if Wedged(q, id) then q'.steps[l.step].status == Cancelled && InStep(q', id) else Apart(q', id)
  {
  }

  lemma EndsAndLeft(w: World, ev: Event, id: Key)
    requires PairOk(w, id) && Left(w.queue, id) && OfEnds(ev)
    ensures LeftOr(w, ev, id)
  {
    var q, now := w.queue, w.now;
    if ev.Supersession? && ev.run in q.runs {
      var r := q.runs[ev.run];
      var superseded := r.(superseded := true, status := if r.status == Processing then Closed else r.status);
      CancelAndLeft(q.(runs := q.runs[ev.run := superseded]), ev.run, "", now, id);
    } else if ev.Cancellation? && Cancellable(q, ev.run) {
      CancelAndLeft(WithStatus(q, ev.run, Closed), ev.run, ev.reason, now, id);
    }
  }

  lemma OthersAndLeft(w: World, ev: Event, id: Key)
    requires PairOk(w, id) && Left(w.queue, id) && !OfWorkers(ev) && !OfUpkeep(ev) && !OfEnds(ev)
    ensures LeftOr(w, ev, id)
  {
  }

  lemma AggregateAndLeft(w: World, ev: Event, id: Key)
    requires WorldOk(w) && Left(w.queue, id) && ev.Aggregate?
    ensures LeftOr(w, ev, id)
  {
    assert TaskOk(id, w.queue.tasks[id], w.issued);
    if Enabled(w, ev) {
      AggregatedPair(w.queue, ev.run, ev.others, ev.preserve, ev.reason, w.now, id);
      NextOk(w, ev);
      assert TaskOk(id, Next(w, ev).queue.tasks[id], w.issued);
    }
  }

  lemma RestartAndLeft(w: World, id: Key)
    requires WorldOk(w) && Left(w.queue, id)
    ensures LeftOr(w, Restart, id)
  {
    assert TaskOk(id, w.queue.tasks[id], w.issued);
    RestartedPair(w.queue, id, w.now);
  }

  lemma UpkeepAndLeft(w: World, ev: Event, id: Key)
    requires PairOk(w, id) && Left(w.queue, id) && OfUpkeep(ev) && !ev.Aggregate? && !ev.Restart?
    ensures LeftOr(w, ev, id)
  {
  }

  /** Of all events, these get the pair out and no others; the other events leave the two rows as they are. What a start of the
      server or the repair gets out agrees again; the end of the run leaves the step of a failed task cancelled beside it. */
  lemma FreesExact(w: World, ev: Event, id: Key)
    requires WorldOk(w) && Left(w.queue, id)
    ensures LeftOr(w, ev, id)
  {
    PairIsOk(w, id);
    if ev.Reap? {
      ReaperLeaves(w.queue, w.issued, MomentsOf(w.now, ev), id);
    } else if OfWorkers(ev) {
      WorkersAndLeft(w, ev, id);
    } else if ev.Aggregate? {
      AggregateAndLeft(w, ev, id);
    } else if ev.Restart? {
      RestartAndLeft(w, id);
    } else if OfUpkeep(ev) {
      UpkeepAndLeft(w, ev, id);
    } else if OfEnds(ev) {
      EndsAndLeft(w, ev, id);
    } else {
      OthersAndLeft(w, ev, id);
    }
  }

  ghost predicate NeverFreed(w: World, evs: seq<Event>, id: Key)
    decreases |evs|
  {
    evs != [] ==> (Left(w.queue, id) ==> !Frees(w, evs[0], id)) && NeverFreed(Next(w, evs[0]), evs[1..], id)
  }

  /** After a torn lease the pair stays as it is, and so is not claimed again, however often the workers and the reaper try,
      before its run ends, the repair runs, or the server starts again. */
  lemma {:induction false} WedgedUntilFreed(w: World, evs: seq<Event>, id: Key, ready: bool)
    requires WorldOk(w) && Left(w.queue, id) && NeverFreed(w, evs, id)
    ensures var w' := After(w, evs); Left(w'.queue, id) && SamePair(w.queue, w'.queue, id) && !Enabled(w', Take(id, ready))
    decreases |evs|
  {
    if evs != [] {
      FreesExact(w, evs[0], id);
      NextOk(w, evs[0]);
      WedgedUntilFreed(Next(w, evs[0]), evs[1..], id, ready);
    } else {
      assert TaskOk(id, w.queue.tasks[id], w.issued);
    }
  }

  /** A required step that was left running: the aggregation never closes its run, nor publishes it. */
  lemma HoldsRun(w: World, id: Key, others: Siblings, preserve: bool)
    requires WorldOk(w) && Left(w.queue, id) && w.queue.steps[w.queue.tasks[id].link.value.step].required
    ensures var run := w.queue.tasks[id].link.value.run; Aggregates(w.queue, run) ==> NextStatus(w.queue, run, others, preserve) == Processing
  {
  }

  /** So the run is being processed for as long. */
  lemma {:induction false} HeldUntilFreed(w: World, evs: seq<Event>, id: Key)
    requires WorldOk(w) && Left(w.queue, id) && NeverFreed(w, evs, id)
    requires var l := w.queue.tasks[id].link.value; w.queue.steps[l.step].required && l.run in w.queue.runs && w.queue.runs[l.run].status == Processing
    ensures var q, run := After(w, evs).queue, w.queue.tasks[id].link.value.run; run in q.runs && q.runs[run].status == Processing
    decreases |evs|
  {
    if evs != [] {
      FreesExact(w, evs[0], id);
      NextOk(w, evs[0]);
      HeldOnce(w, evs[0], id);
      HeldUntilFreed(Next(w, evs[0]), evs[1..], id);
    }
  }

  lemma HeldOnce(w: World, ev: Event, id: Key)
    requires WorldOk(w) && Left(w.queue, id) && !Frees(w, ev, id)
    requires var l := w.queue.tasks[id].link.value; w.queue.steps[l.step].required && l.run in w.queue.runs && w.queue.runs[l.run].status == Processing
    ensures var q, run := Next(w, ev).queue, w.queue.tasks[id].link.value.run; run in q.runs && q.runs[run].status == Processing
  {
    if ev.Aggregate? && Enabled(w, ev) {
      HoldsRun(w, id, ev.others, ev.preserve);
      AggregatedPlans(w.queue, ev.run, ev.others, ev.preserve, ev.reason, w.now);
    }
  }

  /** Started again, the server claims the waiting task as it would claim any other: if its plan is still current, it is due,
      and the other steps of the plan let it. The task of an outdated plan is cancelled. */
  lemma RestartFrees(w: World, id: Key, ready: bool, at: int)
    requires WorldOk(w) && Wedged(w.queue, id)
    ensures var q, q' := w.queue, Next(w, Restart).queue; var t, l := q.tasks[id], q.tasks[id].link.value;
      && InStep(q', id) && id in q'.tasks && (q'.tasks[id].status == Waiting <==> !Stale(q, t))
      && (Claimable(q', id, ready, at) <==>
            && Current(q, l, t.media) && (t.available.None? || t.available.value <= at)
            && ready && (q.steps[l.step].required ==> q.runs[l.run].status == Processing))
  {
    var q := w.queue;
    assert LinkOk(q, q.tasks[id]) && TaskOk(id, q.tasks[id], w.issued);
    RestartedPair(q, id, w.now);
  }

  /** So does the repair, which looks at current plans only. */
  lemma RepairFrees(w: World, id: Key, ready: bool, at: int)
    requires WorldOk(w) && Wedged(w.queue, id) && Current(w.queue, w.queue.tasks[id].link.value, w.queue.tasks[id].media)
    ensures var q, q' := w.queue, Next(w, Resync(id)).queue; var t, l := q.tasks[id], q.tasks[id].link.value;
      && InStep(q', id)
      && (Claimable(q', id, ready, at) <==>
            (t.available.None? || t.available.value <= at) && ready && (q.steps[l.step].required ==> q.runs[l.run].status == Processing))
  {
  }

  // ---------- a step that was cancelled after its task had failed ----------

  /** What brings such a pair together: a new round, the repair of a current plan, and the aggregation of a run in which the
      step, as a required one, blocks the others. */
  predicate Joins(w: World, ev: Event, id: Key)
    requires Apart(w.queue, id)
  {
    var q, l := w.queue, w.queue.tasks[id].link.value;
    match ev
    case Reopen(task) => task == id && Reopenable(q, id)
    case Resync(task) => task == id && Desynced(q, id)
    case Aggregate(run, others, _, _) =>
      && run == l.run && Aggregates(q, run) && q.runs[run].status == Processing && q.steps[l.step].required
      && !others.running && !Requires(q, run, ScrapeQueue.Running)
    case _ => false
  }

  ghost predicate ApartOr(w: World, ev: Event, id: Key)
    requires Apart(w.queue, id)
  {
    var q' := Next(w, ev).queue;
    if Joins(w, ev, id) then PairOf(q', id) && InStep(q', id) else Apart(q', id) && SamePair(w.queue, q', id)
  }

  lemma WorkersAndApart(w: World, ev: Event, id: Key)
    requires PairOk(w, id) && Apart(w.queue, id) && OfWorkers(ev) && !ev.Reap?
    ensures ApartOr(w, ev, id)
  {
  }

  lemma ReaperAndApart(q: Queue, issued: seq<Claim>, m: Moments, id: Key)
    requires Inv(q, issued) && Apart(q, id)
    ensures Apart(Reaped(q, m), id) && SamePair(q, Reaped(q, m), id)
  {
  }

  lemma EndsAndApart(w: World, ev: Event, id: Key)
    requires PairOk(w, id) && Apart(w.queue, id) && OfEnds(ev)
    ensures ApartOr(w, ev, id)
  {
  }

  lemma OthersAndApart(w: World, ev: Event, id: Key)
    requires PairOk(w, id) && Apart(w.queue, id) && !OfWorkers(ev) && !OfUpkeep(ev) && !OfEnds(ev)
    ensures ApartOr(w, ev, id)
  {
  }

  /** The aggregation cancels the task of such a pair exactly if its step is required and the run is failing. */
  lemma AggregatedApart(q: Queue, issued: seq<Claim>, run: Key, o: Siblings, preserve: bool, reason: string, now: int, id: Key)
    requires Inv(q, issued) && Aggregates(q, run) && Apart(q, id)
    ensures var q', l := Aggregated(q, run, o, preserve, reason, now), q.tasks[id].link.value;
      && PairOf(q', id) && q'.tasks[id].link == q.tasks[id].link && q'.steps[l.step] == q.steps[l.step]
      && if run == l.run && q.runs[run].status != Closed && q.steps[l.step].required && !o.running && !Requires(q, run, ScrapeQueue.Running)
         then q'.tasks[id].status == Cancelled && q'.tasks[id].owner.None? && q'.tasks[id].lease.None?
         else q'.tasks[id] == q.tasks[id]
  {
    assert LinkOk(q, q.tasks[id]) && TaskOk(id, q.tasks[id], issued);
    if q.steps[q.tasks[id].link.value.step].required {
      FailingApart(q, o, id);
    }
    BlockApart(q, run, o, now, id);
  }

  lemma FailingApart(q: Queue, o: Siblings, id: Key)
    requires Apart(q, id) && StepOf(q, q.tasks[id].link.value, q.tasks[id].media) && q.steps[q.tasks[id].link.value.step].required
    ensures var run := q.tasks[id].link.value.run; Failing(q, run, o) <==> !o.running && !Requires(q, run, ScrapeQueue.Running)
  {
  }

  lemma BlockApart(q: Queue, run: Key, o: Siblings, now: int, id: Key)
    requires run in q.runs && Apart(q, id) && StepOf(q, q.tasks[id].link.value, q.tasks[id].media)
    ensures var u, l := Unblocked(q, run, o, now), q.tasks[id].link.value;
      && PairOf(u, id) && u.tasks[id].link == q.tasks[id].link && u.steps[l.step] == q.steps[l.step]
      && if run == l.run && q.runs[run].status != Closed && Failing(q, run, o) && q.steps[l.step].required
         then u.tasks[id].status == Cancelled && u.tasks[id].owner.None? && u.tasks[id].lease.None?
         else u.tasks[id] == q.tasks[id]
  {
  }

  lemma AggregateAndApart(w: World, ev: Event, id: Key)
    requires WorldOk(w) && Apart(w.queue, id) && ev.Aggregate?
    ensures ApartOr(w, ev, id)
  {
    if Enabled(w, ev) {
      AggregatedApart(w.queue, w.issued, ev.run, ev.others, ev.preserve, ev.reason, w.now, id);
    }
  }

  lemma RestartedApart(q: Queue, now: int, id: Key)
    requires WellLinked(q) && Apart(q, id)
    ensures Apart(Restarted(q, now), id) && SamePair(q, Restarted(q, now), id)
  {
    RestartedPair(q, id, now);
  }

  lemma RestartAndApart(w: World, id: Key)
    requires WellLinked(w.queue) && Apart(w.queue, id)
    ensures ApartOr(w, Restart, id)
  {
    RestartedApart(w.queue, w.now, id);
  }

  lemma UpkeepAndApart(w: World, ev: Event, id: Key)
    requires PairOk(w, id) && Apart(w.queue, id) && OfUpkeep(ev) && !ev.Aggregate? && !ev.Restart?
    ensures ApartOr(w, ev, id)
  {
  }

  /** Of all events, these bring the pair together and no others; a start of the server is not among them. */
  lemma JoinsExact(w: World, ev: Event, id: Key)
    requires WorldOk(w) && Apart(w.queue, id)
    ensures ApartOr(w, ev, id)
  {
    PairIsOk(w, id);
    if ev.Reap? {
      ReaperAndApart(w.queue, w.issued, MomentsOf(w.now, ev), id);
    } else if OfWorkers(ev) {
      WorkersAndApart(w, ev, id);
    } else if ev.Aggregate? {
      AggregateAndApart(w, ev, id);
    } else if ev.Restart? {
      RestartAndApart(w, id);
    } else if OfUpkeep(ev) {
      UpkeepAndApart(w, ev, id);
    } else if OfEnds(ev) {
      EndsAndApart(w, ev, id);
    } else {
      OthersAndApart(w, ev, id);
    }
  }

  // ---------- whatever happens ----------

  lemma WorkersInStep(w: World, ev: Event, id: Key)
    requires PairOk(w, id) && InStep(w.queue, id) && OfWorkers(ev) && !ev.Reap?
    ensures InStep(Next(w, ev).queue, id)
  {
  }

  lemma EndsInStep(w: World, ev: Event, id: Key)
    requires PairOk(w, id) && InStep(w.queue, id) && OfEnds(ev)
    ensures InStep(Next(w, ev).queue, id)
  {
  }

  lemma OthersInStep(w: World, ev: Event, id: Key)
    requires PairOk(w, id) && InStep(w.queue, id) && !OfWorkers(ev) && !OfUpkeep(ev) && !OfEnds(ev)
    ensures InStep(Next(w, ev).queue, id)
  {
  }

  lemma UpkeepInStep(w: World, ev: Event, id: Key)
    requires PairOk(w, id) && InStep(w.queue, id) && OfUpkeep(ev) && !ev.Aggregate? && !ev.Restart?
    ensures InStep(Next(w, ev).queue, id)
  {
  }

  lemma RestartInStep(w: World, id: Key)
    requires WorldOk(w) && Trailing(w.queue)
    ensures InStep(Next(w, Restart).queue, id) <==> !Apart(w.queue, id)
  {
    RestartHeals(w.queue, w.issued, w.now, id);
  }

  lemma BlockInStep(q: Queue, issued: seq<Claim>, run: Key, o: Siblings, now: int, id: Key)
    requires Inv(q, issued) && run in q.runs && PairOf(q, id) && InStep(q, id)
    ensures var q' := Unblocked(q, run, o, now); PairOf(q', id) && InStep(q', id) && q'.tasks[id].link == q.tasks[id].link
  {
  }

  lemma CloseInStep(q: Queue, run: Key, reason: string, now: int, id: Key)
    requires WellLinked(q) && PairOf(q, id) && InStep(q, id)
    ensures InStep(Converged(q, run, reason, now), id)
  {
  }

  lemma AggregateInStep(q: Queue, issued: seq<Claim>, run: Key, o: Siblings, preserve: bool, reason: string, now: int, id: Key)
    requires Inv(q, issued) && Aggregates(q, run) && PairOf(q, id) && InStep(q, id)
    ensures InStep(Aggregated(q, run, o, preserve, reason, now), id)
  {
    var u := Unblocked(q, run, o, now);
    UnblockKeeps(q, issued, run, o, now);
    BlockInStep(q, issued, run, o, now, id);
    var stated := WithStatus(u, run, NextStatus(q, run, o, preserve));
    RunsKeep(u, issued, stated.runs);
    CloseInStep(stated, run, reason, now, id);
  }

  lemma PlanInStep(q: Queue, id: Key, media: Key, l: Link, required: bool, outcome: Status, now: int, other: Key)
    requires Plannable(q, id, media, l, required, outcome) && WellLinked(q) && !PairOf(q, other)
    ensures InStep(Planned(q, id, media, l, required, outcome, now), other)
  {
  }

  lemma NewInStep(w: World, ev: Event, id: Key)
    requires (id in w.queue.tasks ==> w.queue.tasks[id].link.None?) && !(ev.Plan? && Enabled(w, ev))
    ensures !PairOf(Next(w, ev).queue, id)
  {
  }

  lemma NextTrails(w: World, ev: Event)
    requires WorldOk(w) && Trailing(w.queue)
    ensures Trailing(Next(w, ev).queue)
  {
    if ev.Reap? {
      ReapTrails(w.queue, w.issued, MomentsOf(w.now, ev));
    } else {
      var q' := Next(w, ev).queue;
      forall id | PairOf(q', id) ensures Trails(q'.tasks[id], q'.steps[q'.tasks[id].link.value.step]) {
        PairMoves(w, ev, id);
      }
    }
  }

  lemma PairMoves(w: World, ev: Event, id: Key)
    requires WorldOk(w) && Trailing(w.queue) && !ev.Reap?
    ensures InStep(Next(w, ev).queue, id) || Left(Next(w, ev).queue, id) || Apart(Next(w, ev).queue, id)
  {
    if PairOf(w.queue, id) {
      PairIsOk(w, id);
    }
    if ev.Plan? && Enabled(w, ev) && !PairOf(w.queue, id) {
      PlanInStep(w.queue, ev.task, ev.media, ev.link, ev.required, ev.outcome, w.now, id);
    } else if !PairOf(w.queue, id) {
      assert id in w.queue.tasks ==> LinkOk(w.queue, w.queue.tasks[id]);
      NewInStep(w, ev, id);
    } else if Left(w.queue, id) {
      FreesExact(w, ev, id);
    } else if Apart(w.queue, id) {
      JoinsExact(w, ev, id);
    } else if OfWorkers(ev) {
      WorkersInStep(w, ev, id);
    } else if ev.Aggregate? {
      if Enabled(w, ev) {
        AggregateInStep(w.queue, w.issued, ev.run, ev.others, ev.preserve, ev.reason, w.now, id);
      }
    } else if ev.Restart? {
      RestartInStep(w, id);
    } else if OfUpkeep(ev) {
      UpkeepInStep(w, ev, id);
    } else if OfEnds(ev) {
      EndsInStep(w, ev, id);
    } else {
      OthersInStep(w, ev, id);
    }
  }

  lemma {:induction false} RunsTrail(w: World, evs: seq<Event>)
    requires WorldOk(w) && Trailing(w.queue)
    ensures Trailing(After(w, evs).queue)
    decreases |evs|
  {
    if evs != [] {
      NextOk(w, evs[0]);
      NextTrails(w, evs[0]);
      RunsTrail(Next(w, evs[0]), evs[1..]);
    }
  }

  /** Whatever happens from an empty queue on, and however many leases the reaper tears: a start of the server brings all steps
      into agreement with their tasks, but for exactly those that were cancelled after their task had failed. */
  lemma RestartHealsRuns(now: int, evs: seq<Event>, id: Key)
    ensures var w := After(Initial(now), evs); InStep(Next(w, Restart).queue, id) <==> !Apart(w.queue, id)
  {
    var w := After(Initial(now), evs);
    Reachable(now, evs);
    RunsTrail(Initial(now), evs);
    RestartInStep(w, id);
  }

  /** If the repair then goes over such a pair of a current plan, it agrees as well. */
  lemma ResyncJoins(w: World, id: Key)
    requires WorldOk(w) && Apart(w.queue, id)
    ensures InStep(Next(Next(w, Restart), Resync(id)).queue, id) <==> Current(w.queue, w.queue.tasks[id].link.value, w.queue.tasks[id].media)
  {
    NextOk(w, Restart);
    JoinsExact(w, Restart, id);
    ResyncAlone(Next(w, Restart), id);
  }

  lemma ResyncAlone(w: World, id: Key)
    requires WorldOk(w) && Apart(w.queue, id)
    ensures InStep(Next(w, Resync(id)).queue, id) <==> Current(w.queue, w.queue.tasks[id].link.value, w.queue.tasks[id].media)
  {
    PairIsOk(w, id);
    JoinsExact(w, Resync(id), id);
  }
}
