/** The plan of a medium's generation and the queue rows of its steps: what a worker may claim, and what the finalisation
    of a plan makes of it after one of its steps has changed. */
module IngestPlan {
  import opened Basics

  datatype Status = Waiting | Running | Done | Skipped | Failed | Cancelled

  datatype RunStatus = Processing | Published | Degraded | Broken | Stopped

  /** What the publication state of a medium says: in preparation; published or degraded; or anything else. */
  datatype Show = Preparing | Shown | Hidden

  datatype Medium = Medium(generation: int, published: bool, show: Show)

  datatype IngestRun = IngestRun(media: Key, generation: int, status: RunStatus, finished: bool, preserve: bool, repair: bool,
                                 superseded: bool)

  /** The barrier is the step that stands for the medium's visibility. */
  datatype Step = Step(run: Key, media: Key, generation: int, required: bool, barrier: bool, status: Status)

  /** A step waits for another to succeed, or merely to end. */
  datatype Edge = Edge(step: Key, on: Key, success: bool)

  datatype Task = Task(media: Key, generation: int, kind: string, run: Option<Key>, step: Option<Key>, status: Status, attempts: int,
                       maxAttempts: int, available: int, owner: Option<string>, scan: Option<Key>, error: string, removed: bool)

  /** `scans` are the scans that have not been cancelled. */
  datatype Queue = Queue(media: map<Key, Medium>, rows: map<Key, Task>, nextId: int, runs: map<Key, IngestRun>, steps: map<Key, Step>,
                         edges: set<Edge>, scans: set<Key>)

  // ---------- what a worker may claim ----------

  predicate Due(q: Queue, t: Task, now: int) {
    && t.status == Waiting && !t.removed && t.available <= now && t.attempts < t.maxAttempts
    && (t.scan.None? || t.scan.value in q.scans)
  }

  /** A row from before there were plans. */
  predicate Legacy(t: Task) {
    t.run.None? && t.step.None? && t.generation == 0
  }

  predicate Ended(s: Status) {
    s == Done || s == Skipped || s == Failed || s == Cancelled
  }

  predicate Satisfied(q: Queue, st: Step, e: Edge) {
    e.on in q.steps &&
    var d := q.steps[e.on];
    d.run == st.run && d.media == st.media && d.generation == st.generation && if e.success then d.status == Done else Ended(d.status)
  }

  predicate AllRequired(q: Queue, run: Key, ok: Status -> bool) {
    forall s | s in q.steps && q.steps[s].run == run && q.steps[s].required :: ok(q.steps[s].status)
  }

  /** A required step runs while its run is being processed; an optional one once the medium is published and no required
      step stands in the way. */
  predicate MayRun(q: Queue, st: Step, m: Medium, r: IngestRun) {
    if st.required then r.status == Processing
    else
      m.published &&
      match r.status
      case Processing => m.show != Hidden
      case Published => AllRequired(q, st.run, s => s == Done || s == Skipped)
      case Degraded => AllRequired(q, st.run, s => s != Waiting && s != Running)
      case _ => false
  }

  predicate Current(q: Queue, run: Key, media: Key, generation: int) {
    && run in q.runs && q.runs[run].media == media && q.runs[run].generation == generation && !q.runs[run].superseded
    && media in q.media && q.media[media].generation == generation
  }

  predicate Linked(q: Queue, t: Task) {
    && t.run.Some? && t.step.Some? && t.step.value in q.steps
    && var st := q.steps[t.step.value];
       && st.run == t.run.value && st.media == t.media && st.generation == t.generation && Current(q, st.run, st.media, st.generation)
       && st.status == Waiting && MayRun(q, st, q.media[st.media], q.runs[st.run])
       && forall e | e in q.edges && e.step == t.step.value :: Satisfied(q, st, e)
  }

  /** The repair of a poster belongs to a run, but to none of its steps. */
  predicate Repairs(q: Queue, t: Task) {
    && t.kind == "poster_repair" && t.run.Some? && t.step.None? && t.generation > 0
    && Current(q, t.run.value, t.media, t.generation) && q.media[t.media].show == Shown && q.media[t.media].published
  }

  predicate Claimable(q: Queue, t: Task, now: int) {
    Due(q, t, now) && (Legacy(t) || Linked(q, t) || Repairs(q, t))
  }

  /** Which rows a worker may claim, by the columns: a row that is due and is from before there were plans; or repairs the poster
      of a medium that is shown; or waits for a step of the current plan of its medium, whose steps before it are through,
      where a required step needs the plan in process, and an optional one a published medium and a plan whose required
      steps are not in its way. */
  lemma ClaimExact(q: Queue, t: Task, now: int)
    ensures Claimable(q, t, now) <==>
      && t.status == Waiting && !t.removed && t.available <= now && t.attempts < t.maxAttempts && (t.scan.Some? ==> t.scan.value in q.scans)
      && if t.run.None? then t.step.None? && t.generation == 0
         else
           && t.run.value in q.runs && t.media in q.media
           && var r, m := q.runs[t.run.value], q.media[t.media];
              && r.media == t.media && r.generation == t.generation && !r.superseded && m.generation == t.generation
              && if t.step.None? then t.kind == "poster_repair" && t.generation > 0 && m.show == Shown && m.published
                 else
                   && t.step.value in q.steps
                   && var st := q.steps[t.step.value];
                      && st.run == t.run.value && st.media == t.media && st.generation == t.generation && st.status == Waiting
                      && (st.required ==> r.status == Processing)
                      && (!st.required ==>
                            && m.published
                            && (|| (r.status == Processing && (m.show == Preparing || m.show == Shown))
                                || (r.status == Published && !RequiredIn(q, t.run.value, {Waiting, Running, Failed, Cancelled}))
                                || (r.status == Degraded && !RequiredIn(q, t.run.value, {Waiting, Running}))))
                      && forall e | e in q.edges && e.step == t.step.value ::
                           && e.on in q.steps && q.steps[e.on].run == st.run && q.steps[e.on].media == st.media
                           && q.steps[e.on].generation == st.generation
                           && (q.steps[e.on].status == Done || (!e.success && q.steps[e.on].status in {Skipped, Failed, Cancelled}))
  {
  }

  /** A required step of the run has one of these statuses. */
  ghost predicate RequiredIn(q: Queue, run: Key, statuses: set<Status>) {
    exists s | s in q.steps :: q.steps[s].run == run && q.steps[s].required && q.steps[s].status in statuses
  }

  // ---------- steps whose turn can no longer come ----------

  predicate Dead(s: Status) {
    s == Failed || s == Cancelled || s == Skipped
  }

  predicate Doomed(q: Queue, k: Key) {
    exists e | e in q.edges :: e.step == k && e.success && e.on in q.steps && Dead(q.steps[e.on].status)
  }

  predicate Impossible(q: Queue, run: Key, k: Key) {
    k in q.steps && q.steps[k].run == run && q.steps[k].status == Waiting && Doomed(q, k)
  }

  predicate OfStep(q: Queue, run: Key, t: Task) {
    && t.run == Some(run) && t.step.Some? && t.step.value in q.steps && q.steps[t.step.value].generation == t.generation
  }

  function GivenUp(t: Task, status: Status): Task {
    t.(status := status, owner := None)
  }

  /** One pass of the propagation. */
  function SkipPass(q: Queue, run: Key): Queue {
    q.(steps := map k | k in q.steps :: if Impossible(q, run, k) then q.steps[k].(status := Skipped) else q.steps[k],
       rows := map id | id in q.rows ::
         if OfStep(q, run, q.rows[id]) && q.rows[id].status == Waiting && Impossible(q, run, q.rows[id].step.value)
         then GivenUp(q.rows[id], Skipped) else q.rows[id])
  }

  function WaitingSteps(q: Queue): set<Key> {
    set k | k in q.steps && q.steps[k].status == Waiting
  }

  lemma PassShrinks(q: Queue, run: Key)
    requires exists k | k in q.steps :: Impossible(q, run, k)
    ensures |WaitingSteps(SkipPass(q, run))| < |WaitingSteps(q)|
  {
    var k :| k in q.steps && Impossible(q, run, k);
    var before, after := WaitingSteps(q), WaitingSteps(SkipPass(q, run));
    assert k in before && k !in after && after <= before - {k};
    Cardinality(after, before - {k});
  }

  lemma Cardinality(a: set<Key>, b: set<Key>)
    requires a <= b
    ensures |a| <= |b|
  {
    if k :| k in a {
      Cardinality(a - {k}, b - {k});
    }
  }

  /** Skipping a step may doom others; the passes go on until none is left. */
  function Propagated(q: Queue, run: Key): Queue
    decreases |WaitingSteps(q)|
  {
    if exists k | k in q.steps :: Impossible(q, run, k) then
      PassShrinks(q, run);
      Propagated(SkipPass(q, run), run)
    else q
  }

  // ---------- the aggregation ----------

  predicate Required(q: Queue, run: Key, status: Status) {
    exists s :: s in q.steps && q.steps[s].run == run && q.steps[s].required && q.steps[s].status == status
  }

  /** No required step runs, and one failed or was cancelled. */
  predicate Failing(q: Queue, run: Key) {
    !Required(q, run, Running) && (Required(q, run, Failed) || Required(q, run, Cancelled))
  }

  predicate Over(r: RunStatus) {
    r == Broken || r == Stopped
  }

  function NextStatus(q: Queue, run: Key): RunStatus
    requires run in q.runs
  {
    var r := q.runs[run];
    if Over(r.status) then r.status
    else if Failing(q, run) then if r.preserve then Degraded else Broken
    else if Required(q, run, Running) || Required(q, run, Waiting) then Processing
    else Published
  }

  /** A superseded run, and one that was published and finished, stay as they are. */
  predicate Aggregates(q: Queue, run: Key) {
    run in q.runs && !q.runs[run].superseded && !(q.runs[run].finished && (q.runs[run].status == Published || q.runs[run].status == Degraded))
  }

  predicate Pending(s: Status) {
    s == Waiting || s == Running
  }

  /** The required steps that wait are cancelled, and the rows of cancelled required steps. */
  function Blocked(q: Queue, run: Key): Queue {
    var steps := map k | k in q.steps ::
      if q.steps[k].run == run && q.steps[k].required && q.steps[k].status == Waiting then q.steps[k].(status := Cancelled) else q.steps[k];
    q.(steps := steps,
       rows := map id | id in q.rows ::
         if BlockedRow(steps, run, q.rows[id]) then GivenUp(q.rows[id], Cancelled) else q.rows[id])
  }

  predicate BlockedRow(steps: map<Key, Step>, run: Key, t: Task) {
    && t.run == Some(run) && t.step.Some? && Pending(t.status) && t.step.value in steps
    && var st := steps[t.step.value]; st.run == run && st.required && st.status == Cancelled
  }

  /** A run that is over takes all its rows and steps with it. */
  function Converged(q: Queue, run: Key): Queue
    requires run in q.runs
  {
    var g := q.runs[run].generation;
    q.(steps := map k | k in q.steps ::
         if q.steps[k].run == run && q.steps[k].generation == g && Pending(q.steps[k].status)
         then q.steps[k].(status := Cancelled) else q.steps[k],
       rows := map id | id in q.rows ::
         if q.rows[id].run == Some(run) && q.rows[id].generation == g && Pending(q.rows[id].status)
         then GivenUp(q.rows[id], Cancelled) else q.rows[id])
  }

  /** What the outcome means for the medium. */
  function MediumAfter(m: Medium, r: IngestRun, next: RunStatus): Medium {
    match next
    case Published => m.(show := Shown, published := true)
    case Degraded => m.(show := Shown)
    case Stopped => if r.preserve then m.(show := Shown) else m.(show := Hidden, published := false)
    case Broken => m.(show := Hidden, published := m.published && r.repair)
    case Processing => if r.preserve then m else m.(show := Preparing)
  }

  function Unblocked(q: Queue, run: Key): Queue
    requires run in q.runs
  {
    if !Over(q.runs[run].status) && Failing(q, run) then Blocked(q, run) else q
  }

  function Stated(q: Queue, run: Key, next: RunStatus): Queue
    requires run in q.runs
  {
    var stated := q.(runs := q.runs[run := q.runs[run].(status := next, finished := next != Processing)]);
    if Over(next) then Converged(stated, run) else stated
  }

  /** Only the run of the medium's current generation shows. */
  function Displayed(q: Queue, run: Key, was: IngestRun, next: RunStatus): Queue
    requires run in q.runs
  {
    var media := q.runs[run].media;
    if media in q.media && q.media[media].generation == q.runs[run].generation
    then Barriers(q.(media := q.media[media := MediumAfter(q.media[media], was, next)]), run, next) else q
  }

  function Aggregated(q: Queue, run: Key): Queue
    requires Aggregates(q, run)
  {
    var next := NextStatus(q, run);
    Displayed(Stated(Unblocked(q, run), run, next), run, q.runs[run], next)
  }

  /** Once the medium is visible, so is its barrier. */
  function Barriers(q: Queue, run: Key, next: RunStatus): Queue
    requires run in q.runs && q.runs[run].media in q.media
  {
    var r := q.runs[run];
    if (next == Published || next == Degraded) && q.media[r.media].published && q.media[r.media].show == Shown then
      q.(steps := map k | k in q.steps ::
           if q.steps[k].run == run && q.steps[k].media == r.media && q.steps[k].generation == r.generation && q.steps[k].barrier
              && q.steps[k].status == Waiting
           then q.steps[k].(status := Done) else q.steps[k])
    else q
  }

  /** What follows, in the same transaction, every change of a step. */
  function Finalized(q: Queue, run: Key): Queue {
    var p := Propagated(q, run);
    if Aggregates(p, run) then Aggregated(p, run) else p
  }

  // ---------- what finalising keeps ----------

  /** A row stays, or it was waiting or running for this run and is given up. */
  predicate RowKept(run: Key, t: Task, t': Task) {
    t' == t || (t.run == Some(run) && Pending(t.status) && (t' == GivenUp(t, Skipped) || t' == GivenUp(t, Cancelled)))
  }

  predicate StepKept(run: Key, st: Step, st': Step) {
    st' == st || (st.run == run && Pending(st.status) && Ended(st'.status) && st' == st.(status := st'.status))
  }

  predicate MediumKept(m: Medium, m': Medium) {
    m'.generation == m.generation
  }

  /** Other runs are untouched, and in this one nothing starts to wait or run. */
  ghost predicate Kept(q: Queue, run: Key, q': Queue) {
    && q'.nextId == q.nextId && q'.edges == q.edges && q'.scans == q.scans
    && q'.rows.Keys == q.rows.Keys && q'.steps.Keys == q.steps.Keys && q'.media.Keys == q.media.Keys && q'.runs.Keys == q.runs.Keys
    && (forall id | id in q.rows :: RowKept(run, q.rows[id], q'.rows[id]))
    && (forall k | k in q.steps :: StepKept(run, q.steps[k], q'.steps[k]))
    && (forall m | m in q.media :: MediumKept(q.media[m], q'.media[m]))
    && (forall r | r in q.runs && r != run :: q'.runs[r] == q.runs[r])
  }

  lemma KeptTwice(q: Queue, run: Key, q1: Queue, q2: Queue)
    requires Kept(q, run, q1) && Kept(q1, run, q2)
    ensures Kept(q, run, q2)
  {
  }

  lemma PassKeeps(q: Queue, run: Key)
    ensures Kept(q, run, SkipPass(q, run))
  {
  }

  lemma {:induction false} PropagationKeeps(q: Queue, run: Key)
    ensures Kept(q, run, Propagated(q, run)) && Propagated(q, run).runs == q.runs && Propagated(q, run).media == q.media
    decreases |WaitingSteps(q)|
  {
    if exists k | k in q.steps :: Impossible(q, run, k) {
      PassShrinks(q, run);
      PassKeeps(q, run);
      PropagationKeeps(SkipPass(q, run), run);
      KeptTwice(q, run, SkipPass(q, run), Propagated(q, run));
    }
  }

  lemma BlockKeeps(q: Queue, run: Key)
    ensures Kept(q, run, Blocked(q, run)) && Blocked(q, run).runs == q.runs && Blocked(q, run).media == q.media
  {
  }

  lemma ConvergeKeeps(q: Queue, run: Key)
    requires run in q.runs
    ensures Kept(q, run, Converged(q, run)) && Converged(q, run).runs == q.runs && Converged(q, run).media == q.media
  {
  }

  lemma BarriersKeep(q: Queue, run: Key, next: RunStatus)
    requires run in q.runs && q.runs[run].media in q.media
    ensures Kept(q, run, Barriers(q, run, next))
  {
  }

  lemma UnblockKeeps(q: Queue, run: Key)
    requires run in q.runs
    ensures Kept(q, run, Unblocked(q, run))
  {
  }

  lemma StatedKeeps(q: Queue, run: Key, next: RunStatus)
    requires run in q.runs
    ensures Kept(q, run, Stated(q, run, next))
  {
  }

  lemma DisplayedKeeps(q: Queue, run: Key, was: IngestRun, next: RunStatus)
    requires run in q.runs
    ensures Kept(q, run, Displayed(q, run, was, next))
  {
    var media := q.runs[run].media;
    if media in q.media && q.media[media].generation == q.runs[run].generation {
      var shown := q.(media := q.media[media := MediumAfter(q.media[media], was, next)]);
      assert Kept(q, run, shown);
      BarriersKeep(shown, run, next);
      KeptTwice(q, run, shown, Barriers(shown, run, next));
    }
  }

  lemma AggregationKeeps(q: Queue, run: Key)
    requires Aggregates(q, run)
    ensures Kept(q, run, Aggregated(q, run))
  {
    var next := NextStatus(q, run);
    var unblocked := Unblocked(q, run);
    var stated := Stated(unblocked, run, next);
    UnblockKeeps(q, run);
    StatedKeeps(unblocked, run, next);
    KeptTwice(q, run, unblocked, stated);
    DisplayedKeeps(stated, run, q.runs[run], next);
    KeptTwice(q, run, stated, Aggregated(q, run));
  }

  /** Finalising a plan touches no row, step or run of another plan; within the plan it only gives up what waits or runs,
      and starts nothing. */
  lemma FinalizationKeeps(q: Queue, run: Key)
    ensures Kept(q, run, Finalized(q, run))
  {
    PropagationKeeps(q, run);
    var p := Propagated(q, run);
    if Aggregates(p, run) {
      AggregationKeeps(p, run);
      KeptTwice(q, run, p, Aggregated(p, run));
    }
  }

  // ---------- what propagating and aggregating mean ----------

  /** The passes skip exactly the waiting steps of the run that have been doomed, by the steps that were dead or by those
      that are skipped with them: afterwards no step waits for one that can no longer succeed. */
  lemma {:induction false} PropagationExact(q: Queue, run: Key, k: Key)
    requires k in q.steps && q.steps[k].run == run && q.steps[k].status == Waiting
    ensures var q' := Propagated(q, run);
      && k in q'.steps && q'.steps[k].status == (if Doomed(q', k) then Skipped else Waiting)
      && (Doomed(q', k) <==> exists on ::
            Edge(k, on, true) in q'.edges && on in q'.steps
            && (q'.steps[on].status == Failed || q'.steps[on].status == Cancelled || q'.steps[on].status == Skipped))
    decreases |WaitingSteps(q)|
  {
    if exists j | j in q.steps :: Impossible(q, run, j) {
      PassShrinks(q, run);
      var p := SkipPass(q, run);
      if Impossible(q, run, k) {
        SkippedStays(p, run, k);
        var e :| e in q.edges && e.step == k && e.success && e.on in q.steps && Dead(q.steps[e.on].status);
        DeadStays(p, run, e.on);
      } else {
        PropagationExact(p, run, k);
      }
    }
  }

  lemma {:induction false} DeadStays(q: Queue, run: Key, k: Key)
    requires k in q.steps && Dead(q.steps[k].status)
    ensures var q' := Propagated(q, run); k in q'.steps && Dead(q'.steps[k].status) && q'.edges == q.edges
    decreases |WaitingSteps(q)|
  {
    PropagationKeeps(q, run);
    assert StepKept(run, q.steps[k], Propagated(q, run).steps[k]);
  }

  lemma SkippedStays(q: Queue, run: Key, k: Key)
    requires k in q.steps && q.steps[k].status == Skipped
    ensures var q' := Propagated(q, run); k in q'.steps && q'.steps[k].status == Skipped
  {
    PropagationKeeps(q, run);
    assert StepKept(run, q.steps[k], Propagated(q, run).steps[k]);
  }

  /** What the aggregation makes of a plan that is not over: it is published exactly when all required steps are through, and
      then its medium is shown; and when it stops being processed, no required step of its generation waits or runs. */
  lemma AggregationExact(q: Queue, run: Key)
    requires Aggregates(q, run) && !Over(q.runs[run].status)
    ensures var q', r := Aggregated(q, run), q.runs[run];
      && run in q'.runs
      && (q'.runs[run].status == Published <==>
            forall k | k in q.steps && q.steps[k].run == run && q.steps[k].required :: q.steps[k].status == Done || q.steps[k].status == Skipped)
      && (q'.runs[run].status == Processing <==>
            Required(q, run, Running) || (Required(q, run, Waiting) && !Required(q, run, Failed) && !Required(q, run, Cancelled)))
      && (q'.runs[run].status == Published && r.media in q.media && q.media[r.media].generation == r.generation ==>
            r.media in q'.media && q'.media[r.media].published && q'.media[r.media].show == Shown)
      && (q'.runs[run].status != Processing ==>
            forall k | k in q'.steps && q'.steps[k].run == run && q'.steps[k].required && q'.steps[k].generation == r.generation ::
              q'.steps[k].status != Waiting && q'.steps[k].status != Running)
  {
    AggregatedRun(q, run);
    if NextStatus(q, run) != Processing {
      RequiredRest(q, run);
    }
  }

  lemma StatedRun(q: Queue, run: Key, next: RunStatus)
    requires run in q.runs
    ensures var r := q.runs[run].(status := next, finished := next != Processing);
      Stated(q, run, next).runs == q.runs[run := r] && Stated(q, run, next).media == q.media
  {
  }

  lemma DisplayedRun(q: Queue, run: Key, was: IngestRun, next: RunStatus)
    requires run in q.runs
    ensures var q', media := Displayed(q, run, was, next), q.runs[run].media;
      && q'.runs == q.runs
      && (media in q.media && q.media[media].generation == q.runs[run].generation ==>
            media in q'.media && q'.media[media] == MediumAfter(q.media[media], was, next))
  {
  }

  lemma AggregatedRun(q: Queue, run: Key)
    requires Aggregates(q, run)
    ensures var q', r := Aggregated(q, run), q.runs[run];
      && run in q'.runs && q'.runs[run].status == NextStatus(q, run)
      && (r.media in q.media && q.media[r.media].generation == r.generation ==>
            r.media in q'.media && q'.media[r.media] == MediumAfter(q.media[r.media], r, NextStatus(q, run)))
  {
    var next, unblocked := NextStatus(q, run), Unblocked(q, run);
    BlockKeeps(q, run);
    StatedRun(unblocked, run, next);
    DisplayedRun(Stated(unblocked, run, next), run, q.runs[run], next);
  }

  lemma RequiredRest(q: Queue, run: Key)
    requires Aggregates(q, run) && !Over(q.runs[run].status) && NextStatus(q, run) != Processing
    ensures var q' := Aggregated(q, run);
      forall k | k in q'.steps && q'.steps[k].run == run && q'.steps[k].required && q'.steps[k].generation == q.runs[run].generation ::
        !Pending(q'.steps[k].status)
  {
    AggregationKeeps(q, run);
    forall k | k in q.steps && q.steps[k].run == run && q.steps[k].required && q.steps[k].generation == q.runs[run].generation
      ensures k in Aggregated(q, run).steps && !Pending(Aggregated(q, run).steps[k].status)
    {
      AggregatedStep(q, run, k);
    }
  }

  // ---------- the outcome, foretold ----------

  /** A path over success edges from a step of the run, through waiting steps of it, to a dead one. What the first step
      itself is up to plays no part. */
  ghost predicate Leads(q: Queue, run: Key, path: seq<Key>) {
    && |path| >= 2 && path[0] in q.steps && q.steps[path[0]].run == run
    && (forall i | 0 <= i < |path| - 1 :: Edge(path[i], path[i + 1], true) in q.edges)
    && (forall i | 0 < i < |path| - 1 :: path[i] != path[0] && Waits(q, run, path[i]))
    && path[|path| - 1] != path[0] && path[|path| - 1] in q.steps
    && var end := q.steps[path[|path| - 1]].status; end == Failed || end == Cancelled || end == Skipped
  }

  predicate Waits(q: Queue, run: Key, k: Key) {
    k in q.steps && q.steps[k].run == run && q.steps[k].status == Waiting
  }

  ghost predicate Hopeless(q: Queue, run: Key, k: Key) {
    exists path :: Leads(q, run, path) && path[0] == k
  }

  lemma {:induction false} PathSkips(q: Queue, run: Key, path: seq<Key>, i: nat)
    requires Leads(q, run, path) && Waits(q, run, path[0]) && i < |path|
    ensures var q' := Propagated(q, run); path[i] in q'.steps && Dead(q'.steps[path[i]].status)
    decreases |path| - i
  {
    if i == |path| - 1 {
      DeadStays(q, run, path[i]);
    } else {
      PathSkips(q, run, path, i + 1);
      PropagationKeeps(q, run);
      assert Waits(q, run, path[i]) && Edge(path[i], path[i + 1], true) in Propagated(q, run).edges;
      assert Doomed(Propagated(q, run), path[i]);
      PropagationExact(q, run, path[i]);
    }
  }

  lemma ImpossibleIsHopeless(q: Queue, run: Key, k: Key)
    requires Impossible(q, run, k)
    ensures Hopeless(q, run, k)
  {
    var e :| e in q.edges && e.step == k && e.success && e.on in q.steps && Dead(q.steps[e.on].status);
    assert e == Edge(k, e.on, true);
    assert Leads(q, run, [k, e.on]);
  }

  /** A path that exists after one pass exists before it, if need be with one step more. */
  lemma PathBefore(q: Queue, run: Key, path: seq<Key>)
    requires Leads(SkipPass(q, run), run, path) && Waits(q, run, path[0])
    ensures Hopeless(q, run, path[0])
  {
    var last := path[|path| - 1];
    if Dead(q.steps[last].status) {
      assert Leads(q, run, path);
    } else {
      assert Impossible(q, run, last);
      var e :| e in q.edges && e.step == last && e.success && e.on in q.steps && Dead(q.steps[e.on].status);
      var longer := path + [e.on];
      assert e == Edge(last, e.on, true);
      forall i | 0 <= i < |longer| - 1 ensures Edge(longer[i], longer[i + 1], true) in q.edges {
        assert i < |path| - 1 ==> Edge(path[i], path[i + 1], true) in q.edges;
      }
      assert Leads(q, run, longer);
    }
  }

  lemma {:induction false} SkippedIsHopeless(q: Queue, run: Key, k: Key)
    requires Waits(q, run, k) && k in Propagated(q, run).steps && Propagated(q, run).steps[k].status == Skipped
    ensures Hopeless(q, run, k)
    decreases |WaitingSteps(q)|
  {
    if Impossible(q, run, k) {
      ImpossibleIsHopeless(q, run, k);
    } else {
      assert exists j | j in q.steps :: Impossible(q, run, j);
      PassShrinks(q, run);
      SkippedIsHopeless(SkipPass(q, run), run, k);
      var path :| Leads(SkipPass(q, run), run, path) && path[0] == k;
      PathBefore(q, run, path);
    }
  }

  /** The passes skip exactly the waiting steps from which such a path leads. */
  lemma HopelessExact(q: Queue, run: Key, k: Key)
    requires Waits(q, run, k)
    ensures var q' := Propagated(q, run); k in q'.steps && q'.steps[k].status == (if Hopeless(q, run, k) then Skipped else Waiting)
  {
    PropagationExact(q, run, k);
    if path :| Leads(q, run, path) && path[0] == k {
      PathSkips(q, run, path, 0);
    }
    if Propagated(q, run).steps[k].status == Skipped {
      SkippedIsHopeless(q, run, k);
    }
  }

  ghost function AfterSkips(q: Queue, run: Key, k: Key): Status
    requires k in q.steps
  {
    if Waits(q, run, k) && Hopeless(q, run, k) then Skipped else q.steps[k].status
  }

  lemma PropagatedStep(q: Queue, run: Key, k: Key)
    requires k in q.steps
    ensures var q' := Propagated(q, run); k in q'.steps && q'.steps[k] == q.steps[k].(status := AfterSkips(q, run, k))
  {
    PropagationKeeps(q, run);
    assert StepKept(run, q.steps[k], Propagated(q, run).steps[k]);
    if Waits(q, run, k) {
      HopelessExact(q, run, k);
    } else {
      NotWaitingStays(q, run, k);
    }
  }

  lemma {:induction false} NotWaitingStays(q: Queue, run: Key, k: Key)
    requires k in q.steps && !Waits(q, run, k)
    ensures var q' := Propagated(q, run); k in q'.steps && q'.steps[k] == q.steps[k]
    decreases |WaitingSteps(q)|
  {
    if exists j | j in q.steps :: Impossible(q, run, j) {
      PassShrinks(q, run);
      NotWaitingStays(SkipPass(q, run), run, k);
    }
  }

  /** The row waits for its step, and the step has no hope. */
  ghost predicate RowSkips(q: Queue, run: Key, t: Task) {
    OfStep(q, run, t) && t.status == Waiting && Waits(q, run, t.step.value) && Hopeless(q, run, t.step.value)
  }

  lemma {:induction false} PropagatedRow(q: Queue, run: Key, id: Key)
    requires id in q.rows
    ensures var q' := Propagated(q, run);
      id in q'.rows && q'.rows[id] == if RowSkips(q, run, q.rows[id]) then GivenUp(q.rows[id], Skipped) else q.rows[id]
    decreases |WaitingSteps(q)|
  {
    var t := q.rows[id];
    if exists j | j in q.steps :: Impossible(q, run, j) {
      var p := SkipPass(q, run);
      PassShrinks(q, run);
      PropagatedRow(p, run, id);
      if OfStep(q, run, t) && t.status == Waiting && Waits(q, run, t.step.value) {
        var k := t.step.value;
        if Impossible(q, run, k) {
          ImpossibleIsHopeless(q, run, k);
        } else {
          HopelessExact(q, run, k);
          HopelessExact(p, run, k);
        }
      }
    } else if RowSkips(q, run, t) {
      HopelessExact(q, run, t.step.value);
    }
  }

  // ---------- what the aggregation then does ----------

  ghost predicate StillWaits(q: Queue, run: Key) {
    exists k | k in q.steps :: Waits(q, run, k) && q.steps[k].required && !Hopeless(q, run, k)
  }

  ghost function NextFate(q: Queue, run: Key): RunStatus
    requires run in q.runs
  {
    var r := q.runs[run];
    if Over(r.status) then r.status
    else if Failing(q, run) then if r.preserve then Degraded else Broken
    else if Required(q, run, Running) || StillWaits(q, run) then Processing
    else Published
  }

  lemma PropagatedRequired(q: Queue, run: Key, status: Status)
    requires status != Waiting && status != Skipped
    ensures Required(Propagated(q, run), run, status) <==> Required(q, run, status)
  {
    var q' := Propagated(q, run);
    PropagationKeeps(q, run);
    forall k | k in q.steps ensures k in q'.steps && q'.steps[k] == q.steps[k].(status := AfterSkips(q, run, k)) {
      PropagatedStep(q, run, k);
    }
  }

  lemma PropagatedWaiting(q: Queue, run: Key)
    ensures Required(Propagated(q, run), run, Waiting) <==> StillWaits(q, run)
  {
    var q' := Propagated(q, run);
    PropagationKeeps(q, run);
    forall k | k in q.steps ensures k in q'.steps && q'.steps[k] == q.steps[k].(status := AfterSkips(q, run, k)) {
      PropagatedStep(q, run, k);
    }
  }

  lemma NextFateExact(q: Queue, run: Key)
    requires run in q.runs
    ensures run in Propagated(q, run).runs && NextStatus(Propagated(q, run), run) == NextFate(q, run)
    ensures Failing(Propagated(q, run), run) <==> Failing(q, run)
  {
    PropagationKeeps(q, run);
    PropagatedRequired(q, run, Running);
    PropagatedRequired(q, run, Failed);
    PropagatedRequired(q, run, Cancelled);
    PropagatedWaiting(q, run);
  }

  ghost function RunFate(q: Queue, run: Key): IngestRun
    requires run in q.runs
  {
    if Aggregates(q, run) then q.runs[run].(status := NextFate(q, run), finished := NextFate(q, run) != Processing) else q.runs[run]
  }

  predicate Shows(q: Queue, run: Key, media: Key) {
    run in q.runs && q.runs[run].media == media && media in q.media && q.media[media].generation == q.runs[run].generation
  }

  ghost function MediumFate(q: Queue, run: Key, media: Key): Medium
    requires media in q.media
  {
    if Aggregates(q, run) && Shows(q, run, media) then MediumAfter(q.media[media], q.runs[run], NextFate(q, run)) else q.media[media]
  }

  /** The barrier of the run is lifted by this outcome. */
  ghost predicate Lifts(q: Queue, run: Key, st: Step)
    requires run in q.runs
  {
    var r := q.runs[run];
    && (NextFate(q, run) == Published || NextFate(q, run) == Degraded) && Shows(q, run, r.media)
    && MediumFate(q, run, r.media).published && MediumFate(q, run, r.media).show == Shown
    && st.barrier && st.media == r.media && st.generation == r.generation
  }

  ghost function StepFate(q: Queue, run: Key, k: Key): Status
    requires k in q.steps
  {
    var skipped := AfterSkips(q, run, k);
    if !Aggregates(q, run) || q.steps[k].run != run || !Pending(skipped) then skipped
    else if !Over(q.runs[run].status) && Failing(q, run) && q.steps[k].required && skipped == Waiting then Cancelled
    else if Over(NextFate(q, run)) && q.steps[k].generation == q.runs[run].generation then Cancelled
    else if Lifts(q, run, q.steps[k]) && skipped == Waiting then Done
    else skipped
  }

  predicate OwnStep(q: Queue, t: Task) {
    t.run.Some? && t.step.Some? && t.step.value in q.steps && q.steps[t.step.value].run == t.run.value
  }

  ghost function RowFate(q: Queue, run: Key, t: Task): Status {
    if RowSkips(q, run, t) then Skipped
    else if !Aggregates(q, run) || t.run != Some(run) || !Pending(t.status) then t.status
    else if !Over(q.runs[run].status) && Failing(q, run) && OwnStep(q, t) && q.steps[t.step.value].required
            && (AfterSkips(q, run, t.step.value) == Waiting || AfterSkips(q, run, t.step.value) == Cancelled) then Cancelled
    else if Over(NextFate(q, run)) && t.generation == q.runs[run].generation then Cancelled
    else t.status
  }

  // ---------- the forecasts are exact ----------

  lemma UnblockedStep(q: Queue, run: Key, k: Key)
    requires run in q.runs && k in q.steps
    ensures var q' := Unblocked(q, run);
      k in q'.steps && q'.steps[k] ==
        if !Over(q.runs[run].status) && Failing(q, run) && q.steps[k].run == run && q.steps[k].required && q.steps[k].status == Waiting
        then q.steps[k].(status := Cancelled) else q.steps[k]
  {
  }

  lemma StatedStep(q: Queue, run: Key, next: RunStatus, k: Key)
    requires run in q.runs && k in q.steps
    ensures var q' := Stated(q, run, next);
      k in q'.steps && q'.steps[k] ==
        if Over(next) && q.steps[k].run == run && q.steps[k].generation == q.runs[run].generation && Pending(q.steps[k].status)
        then q.steps[k].(status := Cancelled) else q.steps[k]
  {
  }

  lemma DisplayedStep(q: Queue, run: Key, was: IngestRun, next: RunStatus, k: Key)
    requires run in q.runs && k in q.steps
    ensures var q', r := Displayed(q, run, was, next), q.runs[run];
      k in q'.steps && q'.steps[k] ==
        if && Shows(q, run, r.media) && (next == Published || next == Degraded)
           && MediumAfter(q.media[r.media], was, next).published && MediumAfter(q.media[r.media], was, next).show == Shown
           && q.steps[k].run == run && q.steps[k].media == r.media && q.steps[k].generation == r.generation && q.steps[k].barrier
           && q.steps[k].status == Waiting
        then q.steps[k].(status := Done) else q.steps[k]
  {
  }

  /** The outcome of finalising for a run is foretold from the queue as it is. */
  lemma FinalizedRun(q: Queue, run: Key)
    requires run in q.runs
    ensures Finalized(q, run).runs == q.runs[run := RunFate(q, run)]
  {
    PropagationKeeps(q, run);
    NextFateExact(q, run);
    var p := Propagated(q, run);
    if Aggregates(p, run) {
      BlockKeeps(p, run);
      StatedRun(Unblocked(p, run), run, NextStatus(p, run));
      DisplayedRun(Stated(Unblocked(p, run), run, NextStatus(p, run)), run, p.runs[run], NextStatus(p, run));
    } else {
      assert q.runs[run := q.runs[run]] == q.runs;
    }
  }

  lemma DisplayedMedium(q: Queue, run: Key, was: IngestRun, next: RunStatus, media: Key)
    requires run in q.runs && media in q.media
    ensures var q' := Displayed(q, run, was, next);
      media in q'.media && q'.media[media] == if Shows(q, run, media) then MediumAfter(q.media[media], was, next) else q.media[media]
  {
  }

  lemma AggregatedMedium(q: Queue, run: Key, media: Key)
    requires Aggregates(q, run) && media in q.media
    ensures var q' := Aggregated(q, run);
      media in q'.media && q'.media[media] ==
        if Shows(q, run, media) then MediumAfter(q.media[media], q.runs[run], NextStatus(q, run)) else q.media[media]
  {
    var next, unblocked := NextStatus(q, run), Unblocked(q, run);
    BlockKeeps(q, run);
    StatedRun(unblocked, run, next);
    DisplayedMedium(Stated(unblocked, run, next), run, q.runs[run], next, media);
  }

  /** So is that for its medium, */
  lemma FinalizedMedium(q: Queue, run: Key, media: Key)
    requires media in q.media
    ensures var q' := Finalized(q, run); media in q'.media && q'.media[media] == MediumFate(q, run, media)
  {
    PropagationKeeps(q, run);
    if Aggregates(q, run) {
      NextFateExact(q, run);
      AggregatedMedium(Propagated(q, run), run, media);
    }
  }

  /** What finalising makes of a run that is not superseded and not yet published and finished. One that is over stays so. Any
      other goes on while a required step runs, or waits with hope and none has failed or was cancelled; fails, or is degraded
      if it is to be preserved, once a required step has failed or was cancelled and none runs; and is published otherwise. */
  lemma FinalizedOutcome(q: Queue, run: Key)
    requires run in q.runs && !q.runs[run].superseded
    requires !(q.runs[run].finished && (q.runs[run].status == Published || q.runs[run].status == Degraded))
    ensures run in Finalized(q, run).runs
    ensures var r, r' := q.runs[run], Finalized(q, run).runs[run];
      var bad := Required(q, run, Failed) || Required(q, run, Cancelled);
      && (r'.finished <==> r'.status != Processing)
      && (r.status == Broken || r.status == Stopped ==> r'.status == r.status)
      && (r.status != Broken && r.status != Stopped ==>
            && (r'.status == Processing <==> Required(q, run, Running) || (!bad && StillWaits(q, run)))
            && (r'.status == Degraded <==> !Required(q, run, Running) && bad && r.preserve)
            && (r'.status == Broken <==> !Required(q, run, Running) && bad && !r.preserve)
            && r'.status != Stopped)
  {
    FinalizedRun(q, run);
  }

  /** A run that is superseded, or published and finished, stays as it is, and so do all media. */
  lemma FinalizedRests(q: Queue, run: Key)
    requires run in q.runs
    requires q.runs[run].superseded || (q.runs[run].finished && (q.runs[run].status == Published || q.runs[run].status == Degraded))
    ensures Finalized(q, run).runs == q.runs && Finalized(q, run).media == q.media
  {
    PropagationKeeps(q, run);
  }

  /** What the medium shows after any other run, if that is of its current generation; no other medium changes. It is shown once
      the run was published, degraded, or stopped and preserved, hidden once it failed or was stopped otherwise, and in
      preparation, or left alone, while the run goes on. It becomes published exactly when its run is; it ceases to be when the
      run is stopped without being preserved, or fails without being a repair. */
  lemma FinalizedShows(q: Queue, run: Key, media: Key)
    requires run in q.runs && !q.runs[run].superseded && media in q.media
    requires !(q.runs[run].finished && (q.runs[run].status == Published || q.runs[run].status == Degraded))
    ensures media in Finalized(q, run).media && run in Finalized(q, run).runs
    ensures var was, now, r, status := q.media[media], Finalized(q, run).media[media], q.runs[run], Finalized(q, run).runs[run].status;
      if r.media != media || r.generation != was.generation then now == was
      else
        && now.generation == was.generation
        && (status == Published ==> now.show == Shown && now.published)
        && (status == Degraded ==> now.show == Shown && now.published == was.published)
        && (status == Broken ==> now.show == Hidden && now.published == (was.published && r.repair))
        && (status == Stopped && r.preserve ==> now.show == Shown && now.published == was.published)
        && (status == Stopped && !r.preserve ==> now.show == Hidden && !now.published)
        && (status == Processing ==> now.published == was.published && now.show == if r.preserve then was.show else Preparing)
        && (!was.published ==> (now.published <==> status == Published))
  {
    FinalizedRun(q, run);
    FinalizedMedium(q, run, media);
  }

  lemma AggregatedStep(q: Queue, run: Key, k: Key)
    requires Aggregates(q, run) && k in q.steps
    ensures var q', st, r, next := Aggregated(q, run), q.steps[k], q.runs[run], NextStatus(q, run);
      k in q'.steps && q'.steps[k] ==
        if st.run != run || !Pending(st.status) then st
        else if !Over(r.status) && Failing(q, run) && st.required && st.status == Waiting then st.(status := Cancelled)
        else if Over(next) && st.generation == r.generation then st.(status := Cancelled)
        else if && Shows(q, run, r.media) && (next == Published || next == Degraded)
                && MediumAfter(q.media[r.media], r, next).published && MediumAfter(q.media[r.media], r, next).show == Shown
                && st.media == r.media && st.generation == r.generation && st.barrier && st.status == Waiting
             then st.(status := Done)
        else st
  {
    var next, unblocked := NextStatus(q, run), Unblocked(q, run);
    BlockKeeps(q, run);
    UnblockedStep(q, run, k);
    StatedStep(unblocked, run, next, k);
    StatedRun(unblocked, run, next);
    DisplayedStep(Stated(unblocked, run, next), run, q.runs[run], next, k);
  }

  /** for each step, */
  lemma FinalizedStep(q: Queue, run: Key, k: Key)
    requires k in q.steps
    ensures var q' := Finalized(q, run); k in q'.steps && q'.steps[k] == q.steps[k].(status := StepFate(q, run, k))
  {
    PropagationKeeps(q, run);
    PropagatedStep(q, run, k);
    if Aggregates(q, run) {
      NextFateExact(q, run);
      AggregatedStep(Propagated(q, run), run, k);
    }
  }

  lemma AggregatedRow(q: Queue, run: Key, id: Key)
    requires Aggregates(q, run) && id in q.rows
    ensures var q', t := Aggregated(q, run), q.rows[id];
      id in q'.rows && q'.rows[id] ==
        if t.run != Some(run) || !Pending(t.status) then t
        else if && !Over(q.runs[run].status) && Failing(q, run) && OwnStep(q, t) && q.steps[t.step.value].required
                && (q.steps[t.step.value].status == Waiting || q.steps[t.step.value].status == Cancelled) then GivenUp(t, Cancelled)
        else if Over(NextStatus(q, run)) && t.generation == q.runs[run].generation then GivenUp(t, Cancelled)
        else t
  {
    var unblocked := Unblocked(q, run);
    assert id in unblocked.rows;
    assert Stated(unblocked, run, NextStatus(q, run)).rows == Aggregated(q, run).rows;
  }

  /** and for each row. */
  lemma FinalizedRow(q: Queue, run: Key, id: Key)
    requires id in q.rows
    ensures var q', t := Finalized(q, run), q.rows[id];
      id in q'.rows && q'.rows[id] == if RowFate(q, run, t) == t.status then t else t.(status := RowFate(q, run, t), owner := None)
  {
    PropagationKeeps(q, run);
    PropagatedRow(q, run, id);
    var p, t := Propagated(q, run), q.rows[id];
    if Aggregates(p, run) {
      NextFateExact(q, run);
      AggregatedRow(p, run, id);
      if OwnStep(q, t) {
        PropagatedStep(q, run, t.step.value);
      }
    }
  }

  // ---------- what a worker may then claim ----------

  ghost predicate SatisfiedAfter(q: Queue, run: Key, st: Step, e: Edge) {
    e.on in q.steps &&
    var d, status := q.steps[e.on], StepFate(q, run, e.on);
    d.run == st.run && d.media == st.media && d.generation == st.generation && if e.success then status == Done else Ended(status)
  }

  ghost predicate AllRequiredAfter(q: Queue, run: Key, ok: Status -> bool) {
    forall s | s in q.steps && q.steps[s].run == run && q.steps[s].required :: ok(StepFate(q, run, s))
  }

  ghost predicate MayRunAfter(q: Queue, run: Key, st: Step)
    requires run in q.runs && st.media in q.media
  {
    var m, r := MediumFate(q, run, st.media), RunFate(q, run);
    if st.required then r.status == Processing
    else
      m.published &&
      match r.status
      case Processing => m.show != Hidden
      case Published => AllRequiredAfter(q, run, s => s == Done || s == Skipped)
      case Degraded => AllRequiredAfter(q, run, s => s != Waiting && s != Running)
      case _ => false
  }

  ghost predicate LinkedAfter(q: Queue, run: Key, t: Task) {
    && t.run == Some(run) && t.step.Some? && t.step.value in q.steps
    && var st := q.steps[t.step.value];
       && st.run == run && st.media == t.media && st.generation == t.generation && Current(q, run, st.media, st.generation)
       && StepFate(q, run, t.step.value) == Waiting && MayRunAfter(q, run, st)
       && forall e | e in q.edges && e.step == t.step.value :: SatisfiedAfter(q, run, st, e)
  }

  ghost predicate RepairsAfter(q: Queue, run: Key, t: Task) {
    && t.kind == "poster_repair" && t.run == Some(run) && t.step.None? && t.generation > 0 && Current(q, run, t.media, t.generation)
    && MediumFate(q, run, t.media).show == Shown && MediumFate(q, run, t.media).published
  }

  lemma CurrentAfter(q: Queue, run: Key, media: Key, generation: int)
    requires run in q.runs
    ensures Current(Finalized(q, run), run, media, generation) <==> Current(q, run, media, generation)
  {
    FinalizationKeeps(q, run);
    FinalizedRun(q, run);
  }

  lemma SatisfiedExact(q: Queue, run: Key, st: Step, e: Edge)
    ensures Satisfied(Finalized(q, run), st, e) <==> SatisfiedAfter(q, run, st, e)
  {
    FinalizationKeeps(q, run);
    if e.on in q.steps {
      FinalizedStep(q, run, e.on);
    }
  }

  lemma AllRequiredExact(q: Queue, run: Key, ok: Status -> bool)
    ensures AllRequired(Finalized(q, run), run, ok) <==> AllRequiredAfter(q, run, ok)
  {
    FinalizationKeeps(q, run);
    forall s | s in q.steps ensures s in Finalized(q, run).steps && Finalized(q, run).steps[s] == q.steps[s].(status := StepFate(q, run, s)) {
      FinalizedStep(q, run, s);
    }
  }

  lemma MayRunExact(q: Queue, run: Key, st: Step, st': Step)
    requires run in q.runs && st.media in q.media && st.run == run && st' == st.(status := st'.status)
    ensures var q' := Finalized(q, run);
      run in q'.runs && st.media in q'.media && (MayRun(q', st', q'.media[st.media], q'.runs[run]) <==> MayRunAfter(q, run, st))
  {
    FinalizedRun(q, run);
    FinalizedMedium(q, run, st.media);
    AllRequiredExact(q, run, s => s == Done || s == Skipped);
    AllRequiredExact(q, run, s => s != Waiting && s != Running);
  }

  /** Whether the claim lets a row through once its plan is finalised is foretold, too. */
  lemma LinkedExact(q: Queue, run: Key, t: Task)
    requires run in q.runs && t.run == Some(run)
    ensures Linked(Finalized(q, run), t) <==> LinkedAfter(q, run, t)
  {
    var q' := Finalized(q, run);
    FinalizationKeeps(q, run);
    if t.step.Some? && t.step.value in q.steps {
      var st := q.steps[t.step.value];
      FinalizedStep(q, run, t.step.value);
      CurrentAfter(q, run, st.media, st.generation);
      if st.run == run && Current(q, run, st.media, st.generation) {
        MayRunExact(q, run, st, q'.steps[t.step.value]);
        forall e: Edge ensures Satisfied(q', q'.steps[t.step.value], e) <==> SatisfiedAfter(q, run, st, e) {
          SatisfiedExact(q, run, st, e);
        }
      }
    }
  }

  lemma RepairsExact(q: Queue, run: Key, t: Task)
    requires run in q.runs && t.run == Some(run)
    ensures Repairs(Finalized(q, run), t) <==> RepairsAfter(q, run, t)
  {
    CurrentAfter(q, run, t.media, t.generation);
    if t.media in q.media {
      FinalizedMedium(q, run, t.media);
    }
  }

  /** A run that is over leaves none of its rows waiting or running. */
  lemma OverLeavesNothing(q: Queue, run: Key, id: Key)
    requires run in q.runs && !q.runs[run].superseded && Over(q.runs[run].status)
    requires id in q.rows && q.rows[id].run == Some(run) && q.rows[id].generation == q.runs[run].generation
    ensures var q' := Finalized(q, run); id in q'.rows && q'.rows[id].status != Waiting && q'.rows[id].status != Running
  {
    PropagationKeeps(q, run);
    var p := Propagated(q, run);
    assert RowKept(run, q.rows[id], p.rows[id]);
    OverAggregation(p, run, id);
  }

  lemma OverAggregation(q: Queue, run: Key, id: Key)
    requires Aggregates(q, run) && Over(q.runs[run].status)
    requires id in q.rows && q.rows[id].run == Some(run) && q.rows[id].generation == q.runs[run].generation
    ensures var q' := Aggregated(q, run); id in q'.rows && !Pending(q'.rows[id].status)
  {
  }
}
