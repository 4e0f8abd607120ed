/** Queueing a post-ingest task by hand: a small state machine over the rows of the queue and the plans behind them. Calls
    for one medium and type are serialised by a lock, so a call is one step here. */
module ExplicitEnqueue {
  import opened Basics
  import opened IngestPlan

  datatype Outcome = Queued | AlreadyQueued | AlreadyRunning | AlreadyDone | Refused

  datatype Call = Call(media: Key, kind: string, maxAttempts: int, allowDone: bool)

  /** UNIQUE(media_id, generation, task_type), and ids that only grow. */
  ghost predicate Valid(q: Queue) {
    && (forall a, b | a in q.rows && b in q.rows && SameSlot(q.rows[a], q.rows[b]) :: a == b)
    && (forall a | a in q.rows :: a.n < q.nextId)
  }

  predicate SameSlot(t: Task, u: Task) {
    t.media == u.media && t.generation == u.generation && t.kind == u.kind
  }

  /** The row of the medium's current generation and this type. Rows of older generations are not looked at. */
  predicate Targets(q: Queue, c: Call, id: Key) {
    && id in q.rows && q.rows[id].media == c.media && q.rows[id].kind == c.kind
    && c.media in q.media && q.rows[id].generation == q.media[c.media].generation
  }

  function Restarted(t: Task, now: int): Task {
    t.(status := Waiting, scan := None, error := "", owner := None, attempts := 0, available := now)
  }

  function Fresh(c: Call, generation: int, now: int): Task {
    Task(c.media, generation, c.kind, None, None, Waiting, 0, c.maxAttempts, now, None, None, "", false)
  }

  predicate MayRestart(s: Status, allowDone: bool) {
    s == Failed || s == Cancelled || (s == Done && allowDone)
  }

  /** The linked step follows its row. */
  function Mirrored(q: Queue, id: Key): Queue
    requires id in q.rows
  {
    var step := q.rows[id].step;
    if step.Some? && step.value in q.steps
    then q.(steps := q.steps[step.value := q.steps[step.value].(status := q.rows[id].status)]) else q
  }

  /** The row waits again, its step with it, and the plan is finalised. */
  function Again(q: Queue, id: Key, now: int): Queue
    requires id in q.rows
  {
    var t := q.rows[id];
    var mirrored := Mirrored(q.(rows := q.rows[id := Restarted(t, now)]), id);
    if t.run.Some? then Finalized(mirrored, t.run.value) else mirrored
  }

  function Inserted(q: Queue, c: Call, now: int): Queue
    requires c.media in q.media
  {
    q.(rows := q.rows[Key(q.nextId) := Fresh(c, q.media[c.media].generation, now)], nextId := q.nextId + 1)
  }

  /** A link to a run that is not there makes finalising fail. */
  predicate Finalizable(q: Queue, t: Task) {
    t.run.Some? ==> t.run.value in q.runs
  }

  /** What the call does to the queue, and what it answers. `ok` stands for the parts of the transaction outside the
      queue and the plans: resetting the domain row, and the database itself. */
  ghost predicate Called(q: Queue, c: Call, ok: bool, now: int, q': Queue, r: Outcome) {
    if exists id :: Targets(q, c, id) then
      var id :| Targets(q, c, id);
      match q.rows[id].status
      case Waiting => q' == q && r == (if ok then AlreadyQueued else Refused)
      case Running => q' == q && r == AlreadyRunning
      case s =>
        if s == Done && !c.allowDone then q' == q && r == AlreadyDone
        else if !MayRestart(s, c.allowDone) || !ok || !Finalizable(q, q.rows[id]) then q' == q && r == Refused
        else q' == Again(q, id, now) && r == Queued
    else if !ok then q' == q && r == Refused
    else if c.media !in q.media then q' == q && r == AlreadyQueued
    else q' == Inserted(q, c, now) && r == Queued
  }

  class PostIngest {
    var queue: Queue

    constructor (queue: Queue)
      ensures this.queue == queue
    {
      this.queue := queue;
    }

    method Restart(id: Key, now: int)
      requires id in queue.rows
      modifies `queue
      ensures queue == Again(old(queue), id, now)
    {
      queue := queue.(rows := queue.rows[id := Restarted(queue.rows[id], now)]);
      queue := Mirrored(queue, id);
      if queue.rows[id].run.Some? {
        queue := Finalized(queue, queue.rows[id].run.value);
      }
    }

    method Enqueue(c: Call, ok: bool, now: int) returns (r: Outcome)
      requires Valid(queue)
      modifies `queue
      ensures Called(old(queue), c, ok, now, queue, r)
      ensures Valid(queue)
    {
      ghost var was := queue;
      if id :| id in queue.rows && Targets(queue, c, id) {
        var status := queue.rows[id].status;
        match status {
          case Waiting =>
            return if ok then AlreadyQueued else Refused;
          case Running =>
            return AlreadyRunning;
          case Done =>
            if !c.allowDone {
              return AlreadyDone;
            }
          case _ =>
        }
        if !(status == Failed || status == Cancelled || (c.allowDone && status == Done)) || !ok || !Finalizable(queue, queue.rows[id]) {
          return Refused;
        }
        Restart(id, now);
        r := Queued;
      } else {
        if !ok {
          return Refused;
        }
        if c.media !in queue.media {
          return AlreadyQueued;
        }
        queue := queue.(rows := queue.rows[Key(queue.nextId) := Fresh(c, queue.media[c.media].generation, now)],
                        nextId := queue.nextId + 1);
        r := Queued;
      }
      CallKeepsValid(was, c, ok, now, queue, r);
    }
  }

  // ---------- one call ----------

  /** The rows of the target's run are kept or given up; the target itself is restarted first. */
  predicate RowAfter(run: Option<Key>, t: Task, t': Task) {
    t' == t || (run.Some? && RowKept(run.value, t, t'))
  }

  ghost predicate Rows(q: Queue, id: Key, now: int, q': Queue)
    requires id in q.rows
  {
    && q'.nextId == q.nextId && q'.rows.Keys == q.rows.Keys
    && (forall a | a in q.rows && a != id :: RowAfter(q.rows[id].run, q.rows[a], q'.rows[a]))
    && RowAfter(q.rows[id].run, Restarted(q.rows[id], now), q'.rows[id])
  }

  ghost predicate SameGenerations(q: Queue, q': Queue) {
    q'.media.Keys == q.media.Keys && forall m | m in q.media :: q'.media[m].generation == q.media[m].generation
  }

  lemma AgainKeeps(q: Queue, id: Key, now: int)
    requires id in q.rows
    ensures Rows(q, id, now, Again(q, id, now)) && SameGenerations(q, Again(q, id, now))
  {
    var t := q.rows[id];
    if t.run.Some? {
      var mirrored := Mirrored(q.(rows := q.rows[id := Restarted(t, now)]), id);
      FinalizationKeeps(mirrored, t.run.value);
      KeptRows(mirrored, t.run.value, Again(q, id, now), id, q, now);
    }
  }

  lemma KeptRows(mirrored: Queue, run: Key, q': Queue, id: Key, q: Queue, now: int)
    requires id in q.rows && q.rows[id].run == Some(run) && Kept(mirrored, run, q')
    requires mirrored.rows == q.rows[id := Restarted(q.rows[id], now)] && mirrored.nextId == q.nextId && mirrored.media == q.media
    ensures Rows(q, id, now, q') && SameGenerations(q, q')
  {
  }

  /** With a target, a call restarts it or changes nothing. */
  lemma CalledTarget(q: Queue, c: Call, ok: bool, now: int, q': Queue, r: Outcome, id: Key)
    requires Valid(q) && Called(q, c, ok, now, q', r) && Targets(q, c, id)
    ensures if r == Queued then MayRestart(q.rows[id].status, c.allowDone) && Finalizable(q, q.rows[id]) && q' == Again(q, id, now)
            else q' == q
    ensures r == Queued ==> Rows(q, id, now, q') && SameGenerations(q, q')
  {
    AgainKeeps(q, id, now);
  }

  lemma SlotsStay(q: Queue, id: Key, now: int, q': Queue)
    requires Valid(q) && id in q.rows && Rows(q, id, now, q')
    ensures Valid(q')
  {
    forall a | a in q.rows ensures SameSlot(q.rows[a], q'.rows[a]) {
    }
  }

  lemma InsertKeepsValid(q: Queue, c: Call, now: int)
    requires Valid(q) && c.media in q.media && forall id :: !Targets(q, c, id)
    ensures Valid(Inserted(q, c, now))
  {
    forall a | a in q.rows ensures !SameSlot(q.rows[a], Fresh(c, q.media[c.media].generation, now)) {
      assert !Targets(q, c, a);
    }
  }

  lemma CallKeepsValid(q: Queue, c: Call, ok: bool, now: int, q': Queue, r: Outcome)
    requires Valid(q) && Called(q, c, ok, now, q', r)
    ensures Valid(q')
  {
    if id :| Targets(q, c, id) {
      CalledTarget(q, c, ok, now, q', r, id);
      if r == Queued {
        SlotsStay(q, id, now, q');
      }
    } else if c.media in q.media {
      InsertKeepsValid(q, c, now);
    }
  }

  /** The row became waiting in this call. */
  ghost predicate BecameWaiting(q: Queue, q': Queue, id: Key) {
    id in q'.rows && q'.rows[id].status == Waiting && (id in q.rows ==> q.rows[id].status != Waiting)
  }

  // ---------- what becomes of the restarted row ----------

  /** The queue before its plan is finalised: the row waits again, and its step with it. */
  function Woken(q: Queue, id: Key, now: int): Queue
    requires id in q.rows
  {
    Mirrored(q.(rows := q.rows[id := Restarted(q.rows[id], now)]), id)
  }

  /** A required step of the run, other than the given one, has this status. */
  ghost predicate Beside(q: Queue, run: Key, step: Option<Key>, status: Status) {
    exists k | k in q.steps :: step != Some(k) && q.steps[k].run == run && q.steps[k].required && q.steps[k].status == status
  }

  ghost predicate FailingBeside(q: Queue, run: Key, step: Option<Key>) {
    !Beside(q, run, step, Running) && (Beside(q, run, step, Failed) || Beside(q, run, step, Cancelled))
  }

  /** The status that a row has after it was restarted, from the queue before the call. It is skipped if its step waits, over
      whatever waiting steps, for one that is dead. It is cancelled if its run is aggregated and is over, or if the run fails
      because of another required step, and the step is required or the run is not preserved. Otherwise it waits. */
  ghost function Fate(q: Queue, t: Task): Status
    requires Finalizable(q, t)
  {
    if t.run.None? then Waiting
    else
      var run := t.run.value;
      var r := q.runs[run];
      if OwnStep(q, t) && q.steps[t.step.value].generation == t.generation && Hopeless(q, run, t.step.value) then Skipped
      else if !Aggregates(q, run) then Waiting
      else if Over(r.status) then if r.generation == t.generation then Cancelled else Waiting
      else if !FailingBeside(q, run, t.step) then Waiting
      else if OwnStep(q, t) && q.steps[t.step.value].required && !Hopeless(q, run, t.step.value) then Cancelled
      else if !r.preserve && r.generation == t.generation then Cancelled
      else Waiting
  }

  lemma HopelessWoken(q: Queue, id: Key, now: int)
    requires id in q.rows && OwnStep(q, q.rows[id])
    ensures var run, step := q.rows[id].run.value, q.rows[id].step.value;
      Hopeless(Woken(q, id, now), run, step) <==> Hopeless(q, run, step)
  {
  }

  lemma FailingWoken(q: Queue, id: Key, now: int, run: Key)
    requires id in q.rows
    ensures Failing(Woken(q, id, now), run) <==> FailingBeside(q, run, q.rows[id].step)
  {
    var step := q.rows[id].step;
    forall status | status != Waiting ensures Required(Woken(q, id, now), run, status) <==> Beside(q, run, step, status) {
      RequiredWoken(q, id, now, run, status);
    }
  }

  lemma RequiredWoken(q: Queue, id: Key, now: int, run: Key, status: Status)
    requires id in q.rows && status != Waiting
    ensures Required(Woken(q, id, now), run, status) <==> Beside(q, run, q.rows[id].step, status)
  {
    var w, step := Woken(q, id, now), q.rows[id].step;
    assert w.steps.Keys == q.steps.Keys;
    if k :| k in w.steps && w.steps[k].run == run && w.steps[k].required && w.steps[k].status == status {
      assert step != Some(k) && q.steps[k] == w.steps[k];
    }
    if k :| k in q.steps && step != Some(k) && q.steps[k].run == run && q.steps[k].required && q.steps[k].status == status {
      assert w.steps[k] == q.steps[k];
    }
  }

  /** The forecast is right. */
  lemma FateExact(q: Queue, id: Key, now: int)
    requires id in q.rows && Finalizable(q, q.rows[id])
    ensures var q', t := Again(q, id, now), q.rows[id]; id in q'.rows && q'.rows[id] == Restarted(t, now).(status := Fate(q, t))
  {
    if q.rows[id].run.Some? {
      FinalizedRow(Woken(q, id, now), q.rows[id].run.value, id);
      FateWoken(q, id, now);
    }
  }

  lemma FateWoken(q: Queue, id: Key, now: int)
    requires id in q.rows && q.rows[id].run.Some? && Finalizable(q, q.rows[id])
    ensures RowFate(Woken(q, id, now), q.rows[id].run.value, Restarted(q.rows[id], now)) == Fate(q, q.rows[id])
  {
    FailingWoken(q, id, now, q.rows[id].run.value);
    if OwnStep(q, q.rows[id]) {
      HopelessWoken(q, id, now);
    }
  }

  lemma TargetAfter(q: Queue, c: Call, now: int, q': Queue, id: Key)
    requires Targets(q, c, id) && q.rows[id].status != Waiting && Rows(q, id, now, q') && SameGenerations(q, q')
    ensures Targets(q', c, id) && forall a | BecameWaiting(q, q', a) :: a == id
  {
  }

  /** The row that the call restarts, if it does, stays waiting. */
  ghost predicate StaysQueued(q: Queue, c: Call) {
    forall id | Targets(q, c, id) && MayRestart(q.rows[id].status, c.allowDone) && Finalizable(q, q.rows[id]) :: Fate(q, q.rows[id]) == Waiting
  }

  /** Every answer but "queued" leaves everything as it was. "Queued" is the answer whenever a row becomes waiting; but the
      row does so exactly if there was none, or if its plan, as it was before the call, does not give it up again. */
  lemma QueuedExact(q: Queue, c: Call, ok: bool, now: int, q': Queue, r: Outcome)
    requires Valid(q) && Called(q, c, ok, now, q', r)
    ensures r != Queued ==> q' == q
    ensures (exists id :: BecameWaiting(q, q', id)) <==> r == Queued && StaysQueued(q, c)
    ensures forall id | BecameWaiting(q, q', id) :: Targets(q', c, id)
    ensures forall id | Targets(q, c, id) && r == Queued ::
      && Finalizable(q, q.rows[id]) && id in q'.rows
      && q'.rows[id] == q.rows[id].(status := Fate(q, q.rows[id]), scan := None, error := "", owner := None, attempts := 0, available := now)
    ensures forall id | id in q'.rows && id !in q.rows ::
      && c.media in q.media && (forall a :: !Targets(q, c, a))
      && q'.rows[id] == Task(c.media, q.media[c.media].generation, c.kind, None, None, Waiting, 0, c.maxAttempts, now, None, None, "", false)
  {
    if id :| Targets(q, c, id) {
      CalledTarget(q, c, ok, now, q', r, id);
      assert forall a | Targets(q, c, a) :: a == id;
      if r == Queued {
        FateExact(q, id, now);
        TargetAfter(q, c, now, q', id);
        assert BecameWaiting(q, q', id) <==> Fate(q, q.rows[id]) == Waiting;
      }
    } else if r == Queued {
      assert BecameWaiting(q, q', Key(q.nextId)) && Targets(q', c, Key(q.nextId));
    }
  }

  /** In particular a row of a run that failed or was cancelled is answered "queued" and given up before the answer is given. */
  lemma RestartInOverRun(q: Queue, c: Call, ok: bool, now: int, q': Queue, r: Outcome, id: Key)
    requires Valid(q) && Called(q, c, ok, now, q', r) && r == Queued && Targets(q, c, id) && q.rows[id].run.Some?
    requires var run := q.rows[id].run.value;
      run in q.runs && !q.runs[run].superseded && Over(q.runs[run].status) && q.runs[run].generation == q.rows[id].generation
    ensures id in q'.rows && (q'.rows[id].status == Cancelled || q'.rows[id].status == Skipped)
    ensures forall at :: !Claimable(q', q'.rows[id], at)
  {
    QueuedExact(q, c, ok, now, q', r);
  }

  /** A call touches no row of another run, and none that has no run, but its target; of the target's run it gives up
      what waits or runs, and of the target nothing while it runs. */
  lemma CallFrame(q: Queue, c: Call, ok: bool, now: int, q': Queue, r: Outcome, id: Key)
    requires Valid(q) && Called(q, c, ok, now, q', r) && id in q.rows && q'.rows != q.rows
    requires !(Targets(q, c, id) && MayRestart(q.rows[id].status, c.allowDone))
    ensures id in q'.rows
    ensures q'.rows[id] == q.rows[id]
         || (&& q.rows[id].run.Some? && Pending(q.rows[id].status) && (q'.rows[id].status == Skipped || q'.rows[id].status == Cancelled)
             && exists a :: Targets(q, c, a) && q.rows[a].run == q.rows[id].run)
  {
    if a :| Targets(q, c, a) {
      CalledTarget(q, c, ok, now, q', r, a);
    }
  }

  /** A medium that does not exist is answered "already_queued" without any row; otherwise that answer means
      that the row is waiting. */
  lemma AlreadyQueuedExact(q: Queue, c: Call, ok: bool, now: int, q': Queue, r: Outcome)
    requires Valid(q) && Called(q, c, ok, now, q', r)
    ensures r == AlreadyQueued <==>
      ok && (c.media !in q.media || exists id :: Targets(q, c, id) && q.rows[id].status == Waiting)
    ensures c.media !in q.media ==> forall id :: !Targets(q', c, id)
  {
  }

  /** Calling again at once changes nothing and answers "already_queued", exactly if the row stayed queued. If it was
      skipped the repeat is refused, and if it was cancelled the repeat answers "queued" once more. */
  lemma RepeatExact(q: Queue, c: Call, ok: bool, now: int, q': Queue, r: Outcome, later: int, q'': Queue, r': Outcome)
    requires Valid(q) && Called(q, c, ok, now, q', r) && (r == Queued || r == AlreadyQueued)
    requires Called(q', c, true, later, q'', r')
    ensures r' == AlreadyQueued <==> r == AlreadyQueued || StaysQueued(q, c)
    ensures forall id | Targets(q, c, id) && r == Queued && Fate(q, q.rows[id]) == Skipped :: r' == Refused
    ensures forall id | Targets(q, c, id) && r == Queued && Fate(q, q.rows[id]) == Cancelled :: r' == Queued
    ensures r' != Queued ==> q'' == q'
  {
    CallKeepsValid(q, c, ok, now, q', r);
    if id :| Targets(q, c, id) {
      RepeatTarget(q, c, ok, now, q', r, id, later, q'', r');
      assert forall a | Targets(q, c, a) :: a == id;
    } else {
      RepeatUntargeted(q, c, ok, now, q', r, later, q'', r');
    }
  }

  lemma RepeatUntargeted(q: Queue, c: Call, ok: bool, now: int, q': Queue, r: Outcome, later: int, q'': Queue, r': Outcome)
    requires Valid(q') && Called(q, c, ok, now, q', r) && (r == Queued || r == AlreadyQueued) && forall id :: !Targets(q, c, id)
    requires Called(q', c, true, later, q'', r')
    ensures r' == AlreadyQueued && q'' == q'
  {
    if r == Queued {
      assert Targets(q', c, Key(q.nextId));
      Answer(q', c, true, later, q'', r', Key(q.nextId));
    }
  }

  lemma RepeatTarget(q: Queue, c: Call, ok: bool, now: int, q': Queue, r: Outcome, id: Key, later: int, q'': Queue, r': Outcome)
    requires Valid(q) && Valid(q') && Called(q, c, ok, now, q', r) && (r == Queued || r == AlreadyQueued) && Targets(q, c, id)
    requires Called(q', c, true, later, q'', r')
    ensures r == Queued ==> MayRestart(q.rows[id].status, c.allowDone) && Finalizable(q, q.rows[id])
    ensures r' == if r == AlreadyQueued then AlreadyQueued
                  else match Fate(q, q.rows[id]) case Waiting => AlreadyQueued case Skipped => Refused case _ => Queued
    ensures r' != Queued ==> q'' == q'
  {
    CalledTarget(q, c, ok, now, q', r, id);
    if r == Queued {
      RepeatRestarted(q, c, now, id, later, q'', r');
    } else {
      Answer(q, c, ok, now, q', r, id);
      Answer(q, c, true, later, q'', r', id);
    }
  }

  lemma RepeatRestarted(q: Queue, c: Call, now: int, id: Key, later: int, q'': Queue, r': Outcome)
    requires Targets(q, c, id) && Finalizable(q, q.rows[id]) && Valid(Again(q, id, now))
    requires Called(Again(q, id, now), c, true, later, q'', r')
    ensures r' == match Fate(q, q.rows[id]) case Waiting => AlreadyQueued case Skipped => Refused case _ => Queued
    ensures r' != Queued ==> q'' == Again(q, id, now)
  {
    var q' := Again(q, id, now);
    AgainKeeps(q, id, now);
    FateExact(q, id, now);
    if q.rows[id].run.Some? {
      AgainKeepsRuns(q, id, now);
    }
    assert Targets(q', c, id);
    Answer(q', c, true, later, q'', r', id);
  }

  lemma AgainKeepsRuns(q: Queue, id: Key, now: int)
    requires id in q.rows && q.rows[id].run.Some? && q.rows[id].run.value in q.runs
    ensures q.rows[id].run.value in Again(q, id, now).runs
  {
    FinalizedRun(Woken(q, id, now), q.rows[id].run.value);
  }

  /** The answer to a call with a target: by its status, and for one that ended by what the call allows and whether the
      transaction goes through. A skipped row is never restarted. */
  lemma Answer(q: Queue, c: Call, ok: bool, now: int, q': Queue, r: Outcome, id: Key)
    requires Valid(q) && Called(q, c, ok, now, q', r) && Targets(q, c, id)
    ensures var t := q.rows[id];
      var passes := ok && (t.run.Some? ==> t.run.value in q.runs);
      r == match t.status
        case Waiting => if ok then AlreadyQueued else Refused
        case Running => AlreadyRunning
        case Done => if !c.allowDone then AlreadyDone else if passes then Queued else Refused
        case Skipped => Refused
        case _ => if passes then Queued else Refused
    ensures r != Queued ==> q' == q
  {
  }

  // ---------- can a worker pick it up ----------

  /** The part of the claim's condition that is about the row's link, from the queue before the row was restarted: a row
      without a link must be from before there were plans; another must stay waiting, and its step and its run, or for the
      repair of a poster its medium, must come to stand as the claim demands. */
  ghost predicate Eligible(q: Queue, id: Key, now: int)
    requires id in q.rows && Finalizable(q, q.rows[id])
  {
    var t := q.rows[id];
    if t.run.None? then t.step.None? && t.generation == 0
    else
      var run, woken := t.run.value, Woken(q, id, now);
      Fate(q, t) == Waiting && (LinkedAfter(woken, run, t) || RepairsAfter(woken, run, t))
  }

  lemma EligibleExact(q: Queue, id: Key, now: int)
    requires id in q.rows && Finalizable(q, q.rows[id]) && q.rows[id].maxAttempts > 0
    ensures var q' := Again(q, id, now);
      id in q'.rows && (Claimable(q', q'.rows[id], now) <==> !q.rows[id].removed && Eligible(q, id, now))
  {
    var t, q' := q.rows[id], Again(q, id, now);
    FateExact(q, id, now);
    if t.run.Some? {
      LinkedExact(Woken(q, id, now), t.run.value, t);
      RepairsExact(Woken(q, id, now), t.run.value, t);
      assert Linked(q', q'.rows[id]) <==> Linked(q', t);
      assert Repairs(q', q'.rows[id]) <==> Repairs(q', t);
    }
  }

  /** A row that was just queued can be claimed exactly if it had not been removed before, because restarting leaves the
      mark of its removal in place, and its link lets it. A row that was just inserted has no link, and can be claimed exactly
      if its medium has never had a plan. */
  lemma QueuedClaimExact(q: Queue, c: Call, ok: bool, now: int, q': Queue, r: Outcome, id: Key)
    requires Valid(q) && Called(q, c, ok, now, q', r) && r == Queued && Targets(q', c, id) && q'.rows[id].maxAttempts > 0
    ensures if id in q.rows
            then Finalizable(q, q.rows[id]) && (Claimable(q', q'.rows[id], now) <==> !q.rows[id].removed && Eligible(q, id, now))
            else c.media in q.media && (Claimable(q', q'.rows[id], now) <==> q.media[c.media].generation == 0)
  {
    if a :| Targets(q, c, a) {
      CalledTarget(q, c, ok, now, q', r, a);
      SlotsStay(q, a, now, q');
      assert SameSlot(q'.rows[a], q'.rows[id]);
      EligibleExact(q, a, now);
    } else {
      InsertKeepsValid(q, c, now);
      assert SameSlot(q'.rows[Key(q.nextId)], q'.rows[id]);
    }
  }

  /** In particular a row of a required step is beyond the workers' reach once its run was published and finished: it is
      answered "queued" and may wait, but its run is not processing any more. */
  lemma FinishedRunIsStuck(q: Queue, c: Call, ok: bool, now: int, q': Queue, r: Outcome, id: Key, at: int)
    requires Valid(q) && Called(q, c, ok, now, q', r) && r == Queued && Targets(q, c, id) && OwnStep(q, q.rows[id])
    requires q.steps[q.rows[id].step.value].required && q.rows[id].run.value in q.runs
    requires var run := q.runs[q.rows[id].run.value]; run.finished && (run.status == Published || run.status == Degraded)
    ensures id in q'.rows && !Claimable(q', q'.rows[id], at)
  {
    CalledTarget(q, c, ok, now, q', r, id);
    FateExact(q, id, now);
    LinkedExact(Woken(q, id, now), q.rows[id].run.value, q'.rows[id]);
  }

  /** A current run that was published, with a failed optional step, another that waited for it and was cancelled, and the
      cancelled row of the latter. */
  function Abandoned(): Queue {
    Queue(map[Key(1) := Medium(4, true, Shown)],
          map[Key(5) := Task(Key(1), 4, "preview", Some(Key(2)), Some(Key(21)), Cancelled, 0, 3, 0, None, None, "", false)], 6,
          map[Key(2) := IngestRun(Key(1), 4, Published, true, false, false, false)],
          map[Key(20) := IngestPlan.Step.Step(Key(2), Key(1), 4, false, false, Failed),
              Key(21) := IngestPlan.Step.Step(Key(2), Key(1), 4, false, false, Cancelled)],
          {Edge(Key(21), Key(20), true)}, {})
  }

  lemma AbandonedFate()
    ensures Valid(Abandoned()) && Finalizable(Abandoned(), Abandoned().rows[Key(5)])
    ensures Fate(Abandoned(), Abandoned().rows[Key(5)]) == Skipped
  {
    assert Leads(Abandoned(), Key(2), [Key(21), Key(20)]);
  }

  /** A failed or cancelled row without hope is answered "queued", skipped in the same transaction, and the repeat is refused. */
  lemma SkippedAtOnce(q: Queue, c: Call, now: int, q': Queue, r: Outcome, id: Key, later: int, q'': Queue, r': Outcome)
    requires Valid(q) && Targets(q, c, id) && MayRestart(q.rows[id].status, c.allowDone)
    requires Finalizable(q, q.rows[id]) && Fate(q, q.rows[id]) == Skipped
    requires Called(q, c, true, now, q', r) && Called(q', c, true, later, q'', r')
    ensures r == Queued && id in q'.rows && q'.rows[id].status == Skipped && r' == Refused && q'' == q'
  {
    Answer(q, c, true, now, q', r, id);
    CalledTarget(q, c, true, now, q', r, id);
    FateExact(q, id, now);
    CallKeepsValid(q, c, true, now, q', r);
    RepeatRestarted(q, c, now, id, later, q'', r');
  }

  lemma AbandonedIsSkipped(q': Queue, r: Outcome, q'': Queue, r': Outcome)
    requires Called(Abandoned(), Call(Key(1), "preview", 3, false), true, 9, q', r)
    requires Called(q', Call(Key(1), "preview", 3, false), true, 10, q'', r')
    ensures r == Queued && Key(5) in q'.rows && q'.rows[Key(5)].status == Skipped && r' == Refused && q'' == q'
  {
    AbandonedFate();
    SkippedAtOnce(Abandoned(), Call(Key(1), "preview", 3, false), 9, q', r, Key(5), 10, q'', r');
  }

  /** A failed row that an operator removed: queued, and out of every worker's reach. */
  lemma RemovedIsStuck()
    ensures var t := Task(Key(1), 0, "preview", None, None, Failed, 3, 3, 0, None, None, "boom", true);
            var q := Queue(map[Key(1) := Medium(0, true, Shown)], map[Key(5) := t], 6, map[], map[], {}, {});
            var q' := Again(q, Key(5), 9);
            Called(q, Call(Key(1), "preview", 3, false), true, 9, q', Queued) && forall at :: !Claimable(q', q'.rows[Key(5)], at)
  {
    var t := Task(Key(1), 0, "preview", None, None, Failed, 3, 3, 0, None, None, "boom", true);
    var q := Queue(map[Key(1) := Medium(0, true, Shown)], map[Key(5) := t], 6, map[], map[], {}, {});
    assert Targets(q, Call(Key(1), "preview", 3, false), Key(5));
  }

  // ---------- runs ----------

  /** Besides the calls: workers and operators rewrite rows, plans come and go with their media and scans, a start of the
      server binds a row to a step that lacks one, and rows come from elsewhere. */
  datatype Event =
    | Ask(call: Call, ok: bool)
    | Rewrite(id: Key, task: Task)
    | Plan(queue: Queue)
    | Bind(id: Key, run: Key, step: Key)
    | Insert(task: Task)

  ghost predicate Step(q: Queue, ev: Event, now: int, q': Queue) {
    match ev
    case Ask(c, ok) => exists r :: Called(q, c, ok, now, q', r)
    case Rewrite(id, t) =>
      if id in q.rows && SameSlot(t, q.rows[id]) && t.run == q.rows[id].run && t.step == q.rows[id].step
      then q' == q.(rows := q.rows[id := t]) else q' == q
    case Plan(p) => q' == p.(rows := q.rows, nextId := q.nextId)
    case Bind(id, run, step) =>
      if id in q.rows then q' == q.(rows := q.rows[id := q.rows[id].(run := Some(run), step := Some(step))]) else q' == q
    case Insert(t) =>
      if forall id | id in q.rows :: !SameSlot(t, q.rows[id])
      then q' == q.(rows := q.rows[Key(q.nextId) := t], nextId := q.nextId + 1) else q' == q
  }

  ghost predicate Run(states: seq<Queue>, events: seq<Event>, times: seq<int>) {
    && |states| == |events| + 1 && |times| == |events|
    && forall i | 0 <= i < |events| :: Step(states[i], events[i], times[i], states[i + 1])
  }

  lemma StepKeepsValid(q: Queue, ev: Event, now: int, q': Queue)
    requires Valid(q) && Step(q, ev, now, q')
    ensures Valid(q')
  {
    if ev.Ask? {
      var r :| Called(q, ev.call, ev.ok, now, q', r);
      CallKeepsValid(q, ev.call, ev.ok, now, q', r);
    }
  }

  /** Over any run there is at most one row for each medium, generation and type. */
  lemma {:induction false} OneRowPerSlot(states: seq<Queue>, events: seq<Event>, times: seq<int>, i: nat)
    requires Run(states, events, times) && Valid(states[0]) && i < |states|
    ensures Valid(states[i])
  {
    if i > 0 {
      OneRowPerSlot(states, events, times, i - 1);
      StepKeepsValid(states[i - 1], events[i - 1], times[i - 1], states[i]);
    }
  }

  /** A row without a link, of a generation that has a plan. */
  predicate Unbound(q: Queue, id: Key) {
    id in q.rows && q.rows[id].run.None? && q.rows[id].step.None? && q.rows[id].generation > 0
  }

  lemma UnboundStays(q: Queue, ev: Event, now: int, q': Queue, id: Key)
    requires Valid(q) && Step(q, ev, now, q') && Unbound(q, id) && !(ev.Bind? && ev.id == id)
    ensures Unbound(q', id)
  {
    if ev.Ask? {
      var r :| Called(q, ev.call, ev.ok, now, q', r);
      if a :| Targets(q, ev.call, a) {
        CalledTarget(q, ev.call, ev.ok, now, q', r, a);
      }
    }
  }

  /** Queueing a type of which a medium that has a plan, and so a generation above 0, has no row inserts one that no worker
      claims: not now and not later, whatever happens to it, its medium and its plans, and however often it is queued again,
      unless a start of the server binds it to a step. */
  lemma FreshIsNeverClaimed(q: Queue, c: Call, now: int, states: seq<Queue>, events: seq<Event>, times: seq<int>, i: nat, at: int)
    requires Valid(q) && c.media in q.media && q.media[c.media].generation > 0 && forall id :: !Targets(q, c, id)
    requires Run(states, events, times) && Called(q, c, true, now, states[0], Queued) && i < |states|
    requires forall ev | ev in events :: !(ev.Bind? && ev.id == Key(q.nextId))
    ensures Unbound(states[i], Key(q.nextId)) && !Claimable(states[i], states[i].rows[Key(q.nextId)], at)
  {
    CallKeepsValid(q, c, true, now, states[0], Queued);
    UnboundForever(states, events, times, i, Key(q.nextId));
  }

  lemma {:induction false} UnboundForever(states: seq<Queue>, events: seq<Event>, times: seq<int>, i: nat, id: Key)
    requires Run(states, events, times) && Valid(states[0]) && Unbound(states[0], id) && i < |states|
    requires forall ev | ev in events :: !(ev.Bind? && ev.id == id)
    ensures Unbound(states[i], id)
  {
    if i > 0 {
      UnboundForever(states, events, times, i - 1, id);
      OneRowPerSlot(states, events, times, i - 1);
      assert events[i - 1] in events;
      UnboundStays(states[i - 1], events[i - 1], times[i - 1], states[i], id);
    }
  }

  /** The row itself, for any medium whose generation has a plan. */
  lemma FreshExample(generation: int)
    requires generation > 0
    ensures var q := Queue(map[Key(1) := Medium(generation, true, Shown)], map[], 6, map[], map[], {}, {});
            var c := Call(Key(1), "preview", 3, false);
            Called(q, c, true, 9, Inserted(q, c, 9), Queued) && forall at :: !Claimable(Inserted(q, c, 9), Inserted(q, c, 9).rows[Key(6)], at)
  {
  }
}
