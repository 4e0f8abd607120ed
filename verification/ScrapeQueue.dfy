/** The two linked rows behind a scrape claim: the task in the queue and, for a task that belongs to an
    ingest plan, the plan's step. Times are seconds. */
module ScrapeQueue {
  import opened Basics

  const MAX_FAILURES := 3
  const LEASE_SECONDS := 90

  datatype Status = Waiting | Running | Done | Skipped | Failed | Abandoned | Cancelled

  /** What ties a task to its plan; a task without one is standalone. */
  datatype Link = Link(run: Key, step: Key, generation: int)

  datatype Task = Task(media: Key, link: Option<Link>, status: Status, owner: Option<nat>, lease: Option<int>, round: nat,
                       fails: int, available: Option<int>, progress: int, message: string, finished: Option<int>)

  datatype Step = Step(run: Key, media: Key, generation: int, required: bool, status: Status, owner: Option<nat>,
                       lease: Option<int>, attempts: int, available: Option<int>, error: string, finished: Option<int>)

  /** Any run status other than the three that let work go on is Closed. */
  datatype RunStatus = Processing | Published | Degraded | Closed

  datatype IngestRun = IngestRun(media: Key, generation: int, status: RunStatus, superseded: bool)

  datatype Queue = Queue(tasks: map<Key, Task>, steps: map<Key, Step>, runs: map<Key, IngestRun>, generations: map<Key, int>)

  /** What a worker remembers of its claim. The owner is a token that no other claim was given. */
  datatype Claim = Claim(task: Key, media: Key, link: Option<Link>, owner: nat, attempts: int, round: nat)

  // ---------- who owns a task ----------

  predicate StepOf(q: Queue, l: Link, media: Key) {
    l.step in q.steps && q.steps[l.step].run == l.run && q.steps[l.step].media == media && q.steps[l.step].generation == l.generation
  }

  /** The plan is still the one for the medium's current generation. */
  predicate Current(q: Queue, l: Link, media: Key) {
    && l.run in q.runs && q.runs[l.run].media == media && q.runs[l.run].generation == l.generation && !q.runs[l.run].superseded
    && media in q.generations && q.generations[media] == l.generation
  }

  predicate Open(q: Queue, l: Link) {
    l.run in q.runs && q.runs[l.run].status != Closed
  }

  /** The task row carries the claim's token. */
  predicate Carries(q: Queue, c: Claim) {
    c.task in q.tasks && q.tasks[c.task].status == Running && q.tasks[c.task].owner == Some(c.owner)
  }

  predicate StepHeld(q: Queue, l: Link, c: Claim) {
    && StepOf(q, l, c.media) && q.steps[l.step].status == Running
    && q.steps[l.step].owner == Some(c.owner) && q.steps[l.step].attempts == c.attempts
  }

  /** The guard of renew, complete and fail. The end of the lease plays no part in it. */
  predicate Owns(q: Queue, c: Claim) {
    && Carries(q, c)
    && q.tasks[c.task].media == c.media && q.tasks[c.task].round == c.round && q.tasks[c.task].link == c.link
    && (c.link.Some? ==> StepHeld(q, c.link.value, c) && Current(q, c.link.value, c.media) && Open(q, c.link.value))
  }

  // ---------- the transitions ----------

  /** Writes a task row and, when it is linked, its step row. */
  function Write(q: Queue, id: Key, t: Task, st: Option<Step>): Queue {
    q.(tasks := q.tasks[id := t],
       steps := if t.link.Some? && st.Some? then q.steps[t.link.value.step := st.value] else q.steps)
  }

  function StepRow(q: Queue, t: Task): Option<Step> {
    if t.link.Some? && t.link.value.step in q.steps then Some(q.steps[t.link.value.step]) else None
  }

  predicate Expired(lease: Option<int>, now: int) {
    lease.None? || lease.value < now
  }

  predicate Due(t: Task, now: int) {
    && (t.status == Waiting || t.status == Failed) && t.fails < MAX_FAILURES
    && (t.available.None? || t.available.value <= now) && Expired(t.lease, now)
  }

  /** A standalone task may always run. A linked one needs its step waiting and its plan current; `ready` stands
      for what the publication rules decide from the other steps of the plan. */
  predicate Eligible(q: Queue, t: Task, ready: bool) {
    t.link.Some? ==>
      var l := t.link.value;
      && ready && StepOf(q, l, t.media) && Current(q, l, t.media) && Open(q, l)
      && q.steps[l.step].status == Waiting && (q.steps[l.step].required ==> q.runs[l.run].status == Processing)
  }

  function TaskClaimed(t: Task, owner: nat, now: int): Task {
    t.(status := Running, fails := t.fails + 1, progress := 15, message := "scraping...", owner := Some(owner),
       lease := Some(now + LEASE_SECONDS))
  }

  function StepClaimed(st: Step, t: Task): Step {
    st.(status := Running, attempts := t.fails, owner := t.owner, lease := t.lease)
  }

  predicate Claimable(q: Queue, id: Key, ready: bool, now: int) {
    id in q.tasks && Due(q.tasks[id], now) && Eligible(q, q.tasks[id], ready)
  }

  function Claimed(q: Queue, id: Key, owner: nat, now: int): Queue
    requires id in q.tasks
  {
    var t := TaskClaimed(q.tasks[id], owner, now);
    var st := StepRow(q, t);
    Write(q, id, t, if st.Some? then Some(StepClaimed(st.value, t)) else None)
  }

  function ClaimOf(q: Queue, id: Key, owner: nat): Claim
    requires id in q.tasks
  {
    var t := q.tasks[id];
    Claim(id, t.media, t.link, owner, t.fails + 1, t.round)
  }

  function Renewed(q: Queue, c: Claim, now: int): Queue
    requires Owns(q, c)
  {
    var lease := Some(now + LEASE_SECONDS);
    var st := StepRow(q, q.tasks[c.task]);
    Write(q, c.task, q.tasks[c.task].(lease := lease), if st.Some? then Some(st.value.(lease := lease)) else None)
  }

  predicate Final(c: Claim) {
    c.attempts >= MAX_FAILURES
  }

  /** The first failure waits five seconds, a later one thirty. */
  function TaskFailed(t: Task, c: Claim, message: string, now: int): Task {
    t.(status := if Final(c) then Failed else Waiting, fails := c.attempts, progress := if Final(c) then 100 else t.progress,
       finished := if Final(c) then Some(now) else None, message := message, owner := None, lease := None,
       available := if Final(c) then t.available else Some(now + if c.attempts == 1 then 5 else 30))
  }

  function StepFailed(st: Step, t: Task, c: Claim): Step {
    st.(status := t.status, attempts := c.attempts, error := t.message, finished := t.finished, owner := None, lease := None,
        available := t.available)
  }

  function FailedBy(q: Queue, c: Claim, message: string, now: int): Queue
    requires Owns(q, c)
  {
    var t := TaskFailed(q.tasks[c.task], c, message, now);
    var st := StepRow(q, t);
    Write(q, c.task, t, if st.Some? then Some(StepFailed(st.value, t, c)) else None)
  }

  function TaskDone(t: Task, message: string, now: int): Task {
    t.(status := Done, fails := 0, progress := 100, finished := Some(now), message := message, owner := None, lease := None)
  }

  function StepDone(st: Step, now: int): Step {
    st.(status := Done, finished := Some(now), owner := None, lease := None)
  }

  function DoneBy(q: Queue, c: Claim, message: string, now: int): Queue
    requires Owns(q, c)
  {
    var st := StepRow(q, q.tasks[c.task]);
    Write(q, c.task, TaskDone(q.tasks[c.task], message, now), if st.Some? then Some(StepDone(st.value, now)) else None)
  }

  // ---------- the reaper ----------

  predicate Stuck(t: Task, exhausted: bool, now: int) {
    t.status == Running && Expired(t.lease, now) && (t.fails >= MAX_FAILURES) == exhausted
  }

  predicate StepStuck(q: Queue, step: Key, exhausted: bool, now: int) {
    exists id :: id in q.tasks && q.tasks[id].link.Some? && q.tasks[id].link.value.step == step && Stuck(q.tasks[id], exhausted, now)
  }

  function StepReaped(st: Step, exhausted: bool, now: int): Step {
    if exhausted then
      st.(status := Failed, owner := None, lease := None, error := "exhausted retries after expired scrape leases", finished := Some(now))
    else
      st.(status := Waiting, owner := None, lease := None, available := Some(now), error := "recovered expired scrape lease",
          finished := None)
  }

  function TaskReaped(t: Task, exhausted: bool, now: int): Task {
    if exhausted then
      t.(status := Failed, progress := 100, finished := Some(now), message := "exhausted retries after expired leases",
         owner := None, lease := None)
    else
      t.(status := Waiting, progress := 0, message := "recovered expired lease", owner := None, lease := None, available := Some(now))
  }

  function ReapSteps(q: Queue, exhausted: bool, now: int): Queue {
    q.(steps := map s | s in q.steps ::
         if q.steps[s].status == Running && StepStuck(q, s, exhausted, now) then StepReaped(q.steps[s], exhausted, now) else q.steps[s])
  }

  function ReapTasks(q: Queue, exhausted: bool, now: int): Queue {
    q.(tasks := map id | id in q.tasks ::
         if Stuck(q.tasks[id], exhausted, now) then TaskReaped(q.tasks[id], exhausted, now) else q.tasks[id])
  }

  /** The moments at which the four statements of the reaper read the clock. */
  datatype Moments = Moments(t1: int, t2: int, t3: int, t4: int)

  predicate Ordered(m: Moments) {
    m.t1 <= m.t2 <= m.t3 <= m.t4
  }

  function Reaped(q: Queue, m: Moments): Queue {
    ReapTasks(ReapSteps(ReapTasks(ReapSteps(q, false, m.t1), false, m.t2), true, m.t3), true, m.t4)
  }

  // ---------- what publication and the operators do ----------

  predicate Pending(s: Status) {
    s == Waiting || s == Running
  }

  function OrReason(message: string, reason: string): string {
    if message == "" then reason else message
  }

  function OrNow(at: Option<int>, now: int): Option<int> {
    if at.Some? then at else Some(now)
  }

  function TaskCancelled(t: Task, reason: string, now: int): Task {
    t.(status := Cancelled, owner := None, lease := None, message := OrReason(t.message, reason), finished := OrNow(t.finished, now))
  }

  function StepCancelled(st: Step, reason: string, now: int): Step {
    st.(status := Cancelled, owner := None, lease := None, error := OrReason(st.error, reason), finished := OrNow(st.finished, now))
  }

  /** Cancels the waiting and running tasks and steps of a run; a message that is there stays. */
  function CancelRun(q: Queue, run: Key, reason: string, now: int): Queue {
    q.(tasks := map id | id in q.tasks ::
         if q.tasks[id].link.Some? && q.tasks[id].link.value.run == run && Pending(q.tasks[id].status)
         then TaskCancelled(q.tasks[id], reason, now) else q.tasks[id],
       steps := map s | s in q.steps ::
         if q.steps[s].run == run && Pending(q.steps[s].status) then StepCancelled(q.steps[s], reason, now) else q.steps[s])
  }

  function WithStatus(q: Queue, run: Key, status: RunStatus): Queue
    requires run in q.runs
  {
    q.(runs := q.runs[run := q.runs[run].(status := status)])
  }

  function Supersede(q: Queue, run: Key, now: int): Queue {
    if run !in q.runs then q
    else
      var r := q.runs[run];
      CancelRun(q.(runs := q.runs[run := r.(superseded := true, status := if r.status == Processing then Closed else r.status)]),
                run, "", now)
  }

  /** Only a processing run of the medium's current generation is cancelled. */
  predicate Cancellable(q: Queue, run: Key) {
    && run in q.runs && q.runs[run].status == Processing && !q.runs[run].superseded
    && q.runs[run].media in q.generations && q.generations[q.runs[run].media] == q.runs[run].generation
  }

  function CancelledPlan(q: Queue, run: Key, reason: string, now: int): Queue
    requires Cancellable(q, run)
  {
    CancelRun(WithStatus(q, run, Closed), run, reason, now)
  }

  /** A linked task is aborted while its plan is current, a standalone one always. */
  predicate Abortable(q: Queue, id: Key) {
    && id in q.tasks && q.tasks[id].status == Running
    && (q.tasks[id].link.Some? ==>
          var l := q.tasks[id].link.value;
          Current(q, l, q.tasks[id].media) && StepOf(q, l, q.tasks[id].media) && q.steps[l.step].status == Running)
  }

  function Aborted(q: Queue, id: Key, now: int): Queue
    requires id in q.tasks
  {
    var t := q.tasks[id].(status := Cancelled, progress := 100, message := "cancelled by user", owner := None, lease := None,
                          finished := Some(now));
    var st := StepRow(q, t);
    Write(q, id, t, if st.Some? then Some(st.value.(status := Cancelled, error := "cancelled by user", owner := None, lease := None,
                                                    finished := Some(now)))
                    else None)
  }

  /** The retry of an exhausted optional step of a current plan: a new round for both rows. */
  predicate Reopenable(q: Queue, id: Key) {
    && id in q.tasks && (q.tasks[id].status == Failed || q.tasks[id].status == Cancelled) && q.tasks[id].fails >= MAX_FAILURES
    && q.tasks[id].link.Some?
    && var l := q.tasks[id].link.value;
       && StepOf(q, l, q.tasks[id].media) && Current(q, l, q.tasks[id].media)
       && (q.runs[l.run].status == Published || q.runs[l.run].status == Degraded)
       && !q.steps[l.step].required && (q.steps[l.step].status == Failed || q.steps[l.step].status == Cancelled)
  }

  function Reopened(q: Queue, id: Key, now: int): Queue
    requires id in q.tasks
  {
    var t := q.tasks[id].(status := Waiting, fails := 0, round := q.tasks[id].round + 1, progress := 0, message := "", owner := None,
                          lease := None, finished := None, available := Some(now));
    var st := StepRow(q, t);
    Write(q, id, t, if st.Some? then Some(st.value.(status := Waiting, attempts := 0, error := "", owner := None, lease := None,
                                                    finished := None, available := Some(now)))
                    else None)
  }

  predicate Terminal(s: Status) {
    s == Done || s == Skipped || s == Cancelled || s == Failed || s == Abandoned
  }

  /** A standalone task that came to an end may be queued again. */
  predicate Resettable(q: Queue, id: Key) {
    id in q.tasks && q.tasks[id].link.None? && Terminal(q.tasks[id].status)
  }

  /** Queueing a medium again by hand keeps the retry round; the operator's reset starts a new one. */
  function Reset(q: Queue, id: Key, newRound: bool, now: int): Queue
    requires id in q.tasks
  {
    var t := q.tasks[id];
    q.(tasks := q.tasks[id := t.(status := Waiting, fails := 0, progress := 0, message := "", owner := None, lease := None,
                                 available := Some(now), finished := None, round := if newRound then t.round + 1 else t.round)])
  }

  function FreshTask(media: Key, link: Option<Link>, now: int): Task {
    Task(media, link, Waiting, None, None, 0, 0, Some(now), 0, "", None)
  }

  /** A repair plan takes over an optional step whose result is already there, or that has nothing to do, at once. */
  predicate Plannable(q: Queue, id: Key, media: Key, l: Link, required: bool, outcome: Status) {
    && id !in q.tasks && l.step !in q.steps && l.run !in q.runs && (media in q.generations ==> q.generations[media] < l.generation)
    && (outcome == Waiting || (!required && (outcome == Done || outcome == Skipped)))
  }

  /** A new generation of a medium: a run with a scrape step and its task. */
  function Planned(q: Queue, id: Key, media: Key, l: Link, required: bool, outcome: Status, now: int): Queue {
    var t := FreshTask(media, Some(l), now);
    var st := Step(l.run, media, l.generation, required, outcome, None, None, 0, Some(now), "", if outcome == Waiting then None else Some(now));
    Queue(q.tasks[id := if outcome == Waiting then t else t.(status := outcome, progress := 100, finished := Some(now))],
          q.steps[l.step := st], q.runs[l.run := IngestRun(media, l.generation, Processing, false)], q.generations[media := l.generation])
  }

  function Enqueued(q: Queue, id: Key, media: Key, now: int): Queue {
    q.(tasks := q.tasks[id := FreshTask(media, None, now)])
  }

  // ---------- the aggregation of a run ----------

  const BLOCKED := "cancelled: blocked by required failure"

  /** What the required steps of the run outside the model are up to. */
  datatype Siblings = Siblings(waiting: bool, running: bool, ended: bool)

  predicate Requires(q: Queue, run: Key, status: Status) {
    exists s :: s in q.steps && q.steps[s].run == run && q.steps[s].required && q.steps[s].status == status
  }

  /** A required step failed or was cancelled, and none is running. */
  predicate Failing(q: Queue, run: Key, o: Siblings) {
    && !o.running && !Requires(q, run, Running)
    && (o.ended || Requires(q, run, Failed) || Requires(q, run, Cancelled))
  }

  function NextStatus(q: Queue, run: Key, o: Siblings, preserve: bool): RunStatus
    requires run in q.runs
  {
    if q.runs[run].status == Closed then Closed
    else if Failing(q, run, o) then if preserve then Degraded else Closed
    else if o.running || o.waiting || Requires(q, run, Running) || Requires(q, run, Waiting) then Processing
    else Published
  }

  /** A superseded run and one that was published stay as they are. */
  predicate Aggregates(q: Queue, run: Key) {
    run in q.runs && !q.runs[run].superseded && (q.runs[run].status == Processing || q.runs[run].status == Closed)
  }

  function OrBlocked(message: string): string {
    if forall i | 0 <= i < |message| :: message[i] == ' ' then BLOCKED else message
  }

  /** A required failure does not wait for the required steps that still wait. */
  function BlockSteps(q: Queue, run: Key, now: int): Queue {
    q.(steps := map s | s in q.steps ::
         if q.steps[s].run == run && q.steps[s].required && q.steps[s].status == Waiting
         then StepCancelled(q.steps[s], "", now).(error := OrBlocked(q.steps[s].error)) else q.steps[s])
  }

  predicate Blocks(q: Queue, run: Key, t: Task) {
    && t.link.Some? && t.link.value.run == run && (Pending(t.status) || t.status == Failed)
    && t.link.value.step in q.steps && var st := q.steps[t.link.value.step]; st.run == run && st.required && st.status == Cancelled
  }

  function BlockTasks(q: Queue, run: Key, now: int): Queue {
    q.(tasks := map id | id in q.tasks ::
         if Blocks(q, run, q.tasks[id])
         then TaskCancelled(q.tasks[id], "", now).(message := OrBlocked(q.tasks[id].message), progress := 100) else q.tasks[id])
  }

  function Unblocked(q: Queue, run: Key, o: Siblings, now: int): Queue
    requires run in q.runs
  {
    if q.runs[run].status != Closed && Failing(q, run, o) then BlockTasks(BlockSteps(q, run, now), run, now) else q
  }

  /** A closed run takes all its work with it. */
  function Converged(q: Queue, run: Key, reason: string, now: int): Queue {
    q.(tasks := map id | id in q.tasks ::
         if q.tasks[id].link.Some? && q.tasks[id].link.value.run == run && Pending(q.tasks[id].status)
         then TaskCancelled(q.tasks[id], reason, now).(message := reason, progress := 100) else q.tasks[id],
       steps := map s | s in q.steps ::
         if q.steps[s].run == run && Pending(q.steps[s].status)
         then StepCancelled(q.steps[s], reason, now).(error := reason) else q.steps[s])
  }

  function Aggregated(q: Queue, run: Key, o: Siblings, preserve: bool, reason: string, now: int): Queue
    requires Aggregates(q, run)
  {
    var next := NextStatus(q, run, o, preserve);
    var stated := WithStatus(Unblocked(q, run, o, now), run, next);
    if next == Closed then Converged(stated, run, reason, now) else stated
  }

  /** A step that can no longer come to its turn is skipped together with its waiting task. */
  predicate Skippable(q: Queue, id: Key) {
    && id in q.tasks && q.tasks[id].status == Waiting && q.tasks[id].link.Some?
    && StepOf(q, q.tasks[id].link.value, q.tasks[id].media) && q.steps[q.tasks[id].link.value.step].status == Waiting
  }

  function SkippedBy(q: Queue, id: Key, reason: string, now: int): Queue
    requires Skippable(q, id)
  {
    var t, st := q.tasks[id], q.steps[q.tasks[id].link.value.step];
    Write(q, id, t.(status := Skipped, message := reason, owner := None, lease := None, finished := OrNow(t.finished, now)),
          Some(st.(status := Skipped, error := reason, owner := None, lease := None, finished := OrNow(st.finished, now))))
  }

  // ---------- starting the server again ----------

  const STALE := "stale linked scrape cancelled during startup"
  const RESTARTED := "服务重启，任务已复位"
  const EXHAUSTED := "服务重启，任务已耗尽重试次数"

  /** The task's plan is known, and no longer the medium's current one. */
  predicate Stale(q: Queue, t: Task) {
    && t.link.Some?
    && var l := t.link.value;
       && l.run in q.runs && q.runs[l.run].media == t.media && q.runs[l.run].generation == l.generation && t.media in q.generations
       && (q.runs[l.run].superseded || q.generations[t.media] != l.generation)
  }

  function TaskRestarted(q: Queue, t: Task, now: int): Task {
    if !Pending(t.status) then t
    else if Stale(q, t) then
      t.(status := Cancelled, progress := 100, message := STALE, owner := None, lease := None, finished := Some(now))
    else if t.fails >= MAX_FAILURES then
      t.(status := Failed, progress := 100, message := EXHAUSTED, owner := None, lease := None, finished := Some(now))
    else if t.status == Running then
      t.(status := Waiting, progress := 0, message := RESTARTED, owner := None, lease := None, available := OrNow(t.available, now))
    else t
  }

  /** The step of the task `t`. */
  function StepRestarted(q: Queue, st: Step, t: Task, now: int): Step {
    var t' := TaskRestarted(q, t, now);
    if !Pending(st.status) then st
    else if Pending(t.status) && Stale(q, t) then
      st.(status := Cancelled, error := STALE, owner := None, lease := None, finished := Some(now))
    else if t'.status == Failed && t'.fails >= MAX_FAILURES then
      st.(status := Failed, error := EXHAUSTED, owner := None, lease := None, finished := Some(now))
    else if t'.status == Waiting && st.status == Running then
      st.(status := Waiting, attempts := t'.fails, error := "", owner := None, lease := None, available := t'.available, finished := None)
    else st
  }

  predicate LinkedTo(q: Queue, id: Key, step: Key) {
    id in q.tasks && q.tasks[id].link.Some? && q.tasks[id].link.value.step == step
  }

  /** Work of outdated plans is cancelled, exhausted work fails, everything else that was interrupted waits again. */
  ghost function Restarted(q: Queue, now: int): Queue {
    q.(tasks := map id | id in q.tasks :: TaskRestarted(q, q.tasks[id], now),
       steps := map s | s in q.steps ::
         if exists id :: LinkedTo(q, id, s) then
           var id :| LinkedTo(q, id, s);
           StepRestarted(q, q.steps[s], q.tasks[id], now)
         else q.steps[s])
  }

  /** A step of a current plan whose status is not that of its task. */
  predicate Desynced(q: Queue, id: Key) {
    && id in q.tasks && q.tasks[id].link.Some?
    && var l := q.tasks[id].link.value;
       StepOf(q, l, q.tasks[id].media) && Current(q, l, q.tasks[id].media) && q.steps[l.step].status != q.tasks[id].status
  }

  /** The repair copies the task onto such a step. */
  function Repaired(q: Queue, id: Key, now: int): Queue
    requires Desynced(q, id)
  {
    var t := q.tasks[id];
    var step := t.link.value.step;
    q.(steps := q.steps[step := q.steps[step].(status := t.status, owner := t.owner, lease := t.lease, attempts := t.fails,
                                               error := t.message, available := OrNow(t.available, now), finished := t.finished)])
  }
}
