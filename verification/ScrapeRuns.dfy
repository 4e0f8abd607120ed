/** Runs of the scrape queue: any number of workers, the reaper, publication, the operators and starts of the server,
    interleaved in any order. A worker that crashes is one of which no further event is seen. */
module ScrapeRuns {
  import opened Basics
  import opened ScrapeQueue
  import opened ScrapeInvariants
  import opened ScrapeSettled

  /** Claims are numbered as they are handed out; the number is the owner token. */
  datatype World = World(queue: Queue, issued: seq<Claim>, now: int)

  /** `ok` says whether the rest of the transaction, which the queue does not see, goes through. A run is revived when a
      required step of another kind is reset, or when it failed although its required steps still wait. The last two
      events belong to a start of the server; the repair, which goes over all rows, is one event for each. */
  datatype Event =
    | Tick(seconds: nat)
    | Take(task: Key, ready: bool)
    | Renew(owner: nat)
    | Fail(owner: nat, message: string, ok: bool)
    | Complete(owner: nat, message: string, ok: bool)
    | Reap(gap2: nat, gap3: nat, gap4: nat)
    | Supersession(run: Key)
    | Cancellation(run: Key, reason: string)
    | Abort(task: Key)
    | Reopen(task: Key)
    | Requeue(task: Key, newRound: bool)
    | Plan(task: Key, media: Key, link: Link, required: bool, outcome: Status)
    | Enqueue(task: Key, media: Key)
    | Aggregate(run: Key, others: Siblings, preserve: bool, reason: string)
    | Revive(run: Key)
    | Skip(task: Key, reason: string)
    | Restart
    | Resync(task: Key)

  predicate OwnedBy(w: World, owner: nat) {
    owner < |w.issued| && Owns(w.queue, w.issued[owner])
  }

  /** The claim of `owner` ends with this event. */
  predicate Ends(w: World, ev: Event, owner: nat) {
    match ev
    case Fail(o, _, ok) => o == owner && ok && OwnedBy(w, owner)
    case Complete(o, _, ok) => o == owner && ok && OwnedBy(w, owner)
    case _ => false
  }

  predicate Enabled(w: World, ev: Event) {
    match ev
    case Tick(_) => true
    case Take(task, ready) => Claimable(w.queue, task, ready, w.now)
    case Renew(owner) => OwnedBy(w, owner)
    case Fail(owner, _, ok) => ok && OwnedBy(w, owner)
    case Complete(owner, _, ok) => ok && OwnedBy(w, owner)
    case Reap(_, _, _) => true
    case Supersession(_) => true
    case Cancellation(run, _) => Cancellable(w.queue, run)
    case Abort(task) => Abortable(w.queue, task)
    case Reopen(task) => Reopenable(w.queue, task)
    case Requeue(task, _) => Resettable(w.queue, task)
    case Plan(task, media, link, required, outcome) => Plannable(w.queue, task, media, link, required, outcome)
    case Enqueue(task, _) => task !in w.queue.tasks
    case Aggregate(run, _, _, _) => Aggregates(w.queue, run)
    case Revive(run) => run in w.queue.runs && !w.queue.runs[run].superseded
    case Skip(task, _) => Skippable(w.queue, task)
    case Restart => true
    case Resync(task) => Desynced(w.queue, task)
  }

  function MomentsOf(now: int, ev: Event): Moments
    requires ev.Reap?
  {
    Moments(now, now + ev.gap2, now + ev.gap2 + ev.gap3, now + ev.gap2 + ev.gap3 + ev.gap4)
  }

  ghost function QueueAfter(w: World, ev: Event): Queue
    requires Enabled(w, ev)
  {
    var q, now := w.queue, w.now;
    match ev
    case Tick(_) => q
    case Take(task, _) => Claimed(q, task, |w.issued|, now)
    case Renew(owner) => Renewed(q, w.issued[owner], now)
    case Fail(owner, message, _) => FailedBy(q, w.issued[owner], message, now)
    case Complete(owner, message, _) => DoneBy(q, w.issued[owner], message, now)
    case Reap(_, _, _) => Reaped(q, MomentsOf(now, ev))
    case Supersession(run) => Supersede(q, run, now)
    case Cancellation(run, reason) => CancelledPlan(q, run, reason, now)
    case Abort(task) => Aborted(q, task, now)
    case Reopen(task) => Reopened(q, task, now)
    case Requeue(task, newRound) => Reset(q, task, newRound, now)
    case Plan(task, media, link, required, outcome) => Planned(q, task, media, link, required, outcome, now)
    case Enqueue(task, media) => Enqueued(q, task, media, now)
    case Aggregate(run, others, preserve, reason) => Aggregated(q, run, others, preserve, reason, now)
    case Revive(run) => WithStatus(q, run, Processing)
    case Skip(task, reason) => SkippedBy(q, task, reason, now)
    case Restart => Restarted(q, now)
    case Resync(task) => Repaired(q, task, now)
  }

  function ClaimsAfter(w: World, ev: Event): seq<Claim> {
    if ev.Take? && Enabled(w, ev) then w.issued + [ClaimOf(w.queue, ev.task, |w.issued|)] else w.issued
  }

  function ClockAfter(now: int, ev: Event): int {
    if ev.Tick? then now + ev.seconds else if ev.Reap? then MomentsOf(now, ev).t4 else now
  }

  /** An event that is not enabled is refused and changes nothing. */
  ghost function Next(w: World, ev: Event): World {
    World(if Enabled(w, ev) then QueueAfter(w, ev) else w.queue, ClaimsAfter(w, ev), ClockAfter(w.now, ev))
  }

  ghost function After(w: World, evs: seq<Event>): World
    decreases |evs|
  {
    if evs == [] then w else After(Next(w, evs[0]), evs[1..])
  }

  function Initial(now: int): World {
    World(Queue(map[], map[], map[], map[]), [], now)
  }

  // ---------- invariants over runs ----------

  ghost predicate WorldOk(w: World) {
    Inv(w.queue, w.issued) && Settled(w.queue)
  }

  predicate OfWorkers(ev: Event) {
    ev.Tick? || ev.Take? || ev.Renew? || ev.Fail? || ev.Complete? || ev.Reap?
  }

  /** The publication rules at work, and the server's start. */
  predicate OfUpkeep(ev: Event) {
    ev.Aggregate? || ev.Revive? || ev.Skip? || ev.Restart? || ev.Resync?
  }

  ghost predicate InvAfter(w: World, ev: Event) {
    Inv(Next(w, ev).queue, Next(w, ev).issued)
  }

  lemma WorkersOk(w: World, ev: Event)
    requires WorldOk(w) && OfWorkers(ev)
    ensures InvAfter(w, ev)
  {
    if Enabled(w, ev) {
      var q, issued, now := w.queue, w.issued, w.now;
      match ev
      case Tick(_) =>
      case Take(task, ready) => ClaimKeeps(q, issued, task, ready, now);
      case Renew(owner) => RenewKeeps(q, issued, issued[owner], now);
      case Fail(owner, message, _) =>
        assert ClaimOk(q, owner, issued[owner]);
        FailKeeps(q, issued, issued[owner], message, now);
      case Complete(owner, message, _) => DoneKeeps(q, issued, issued[owner], message, now);
      case Reap(_, _, _) => ReapKeeps(q, issued, MomentsOf(now, ev));
    }
  }

  lemma OthersOk(w: World, ev: Event)
    requires WorldOk(w) && !OfWorkers(ev) && !OfUpkeep(ev)
    ensures InvAfter(w, ev)
  {
    if Enabled(w, ev) {
      var q, issued, now := w.queue, w.issued, w.now;
      match ev
      case Supersession(run) => SupersedeKeeps(q, issued, run, now);
      case Cancellation(run, reason) => CancelPlanKeeps(q, issued, run, reason, now);
      case Abort(task) => AbortKeeps(q, issued, task, now);
      case Reopen(task) => ReopenKeeps(q, issued, task, now);
      case Requeue(task, newRound) => ResetKeeps(q, issued, task, newRound, now);
      case Plan(task, media, link, required, outcome) => PlanKeeps(q, issued, task, media, link, required, outcome, now);
      case Enqueue(task, media) => EnqueueKeeps(q, issued, task, media, now);
    }
  }

  lemma UpkeepOk(w: World, ev: Event)
    requires WorldOk(w) && OfUpkeep(ev)
    ensures InvAfter(w, ev)
  {
    if Enabled(w, ev) {
      var q, issued, now := w.queue, w.issued, w.now;
      match ev
      case Aggregate(run, others, preserve, reason) => AggregateKeeps(q, issued, run, others, preserve, reason, now);
      case Revive(run) => RunsKeep(q, issued, WithStatus(q, run, Processing).runs);
      case Skip(task, reason) => SkipKeeps(q, issued, task, reason, now);
      case Restart => RestartKeeps(q, issued, now);
      case Resync(task) => RepairKeeps(q, issued, task, now);
    }
  }

  lemma WorkersSettle(w: World, ev: Event)
    requires WorldOk(w) && OfWorkers(ev)
    ensures Settled(Next(w, ev).queue)
  {
    if Enabled(w, ev) {
      var q, issued, now := w.queue, w.issued, w.now;
      match ev
      case Tick(_) =>
      case Take(task, ready) => ClaimSettles(q, task, |issued|, ready, now);
      case Renew(owner) => RenewSettles(q, issued[owner], now);
      case Fail(owner, message, _) => FailSettles(q, issued[owner], message, now);
      case Complete(owner, message, _) => DoneSettles(q, issued[owner], message, now);
      case Reap(_, _, _) => ReapSettles(q, MomentsOf(now, ev));
    }
  }

  lemma OthersSettle(w: World, ev: Event)
    requires WorldOk(w) && !OfWorkers(ev) && !OfUpkeep(ev)
    ensures Settled(Next(w, ev).queue)
  {
    if Enabled(w, ev) {
      var q, now := w.queue, w.now;
      match ev
      case Supersession(run) => SupersedeSettles(q, run, now);
      case Cancellation(run, reason) => CancelPlanSettles(q, run, reason, now);
      case Abort(task) => AbortSettles(q, task, now);
      case Reopen(task) => ReopenSettles(q, task, now);
      case Requeue(task, newRound) => ResetSettles(q, task, newRound, now);
      case Plan(task, media, link, required, outcome) => PlanSettles(q, task, media, link, required, outcome, now);
      case Enqueue(task, media) => EnqueueSettles(q, task, media, now);
    }
  }

  lemma UpkeepSettles(w: World, ev: Event)
    requires WorldOk(w) && OfUpkeep(ev)
    ensures Settled(Next(w, ev).queue)
  {
    if Enabled(w, ev) {
      var q, now := w.queue, w.now;
      match ev
      case Aggregate(run, others, preserve, reason) => AggregateSettles(q, run, others, preserve, reason, now);
      case Revive(run) => OpenSettles(q, run, Processing);
      case Skip(task, reason) => SkipSettles(q, task, reason, now);
      case Restart => RestartSettles(q, now);
      case Resync(task) => RepairSettles(q, task, now);
    }
  }

  lemma NextOk(w: World, ev: Event)
    requires WorldOk(w)
    ensures WorldOk(Next(w, ev))
  {
    if OfWorkers(ev) {
      WorkersOk(w, ev);
      WorkersSettle(w, ev);
    } else if OfUpkeep(ev) {
      UpkeepOk(w, ev);
      UpkeepSettles(w, ev);
    } else {
      OthersOk(w, ev);
      OthersSettle(w, ev);
    }
  }

  lemma {:induction false} RunsAreOk(w: World, evs: seq<Event>)
    requires WorldOk(w)
    ensures WorldOk(After(w, evs))
    decreases |evs|
  {
    if evs != [] {
      NextOk(w, evs[0]);
      RunsAreOk(Next(w, evs[0]), evs[1..]);
    }
  }

  /** Whatever happens from an empty queue on, the invariants hold. */
  lemma Reachable(now: int, evs: seq<Event>)
    ensures WorldOk(After(Initial(now), evs))
  {
    RunsAreOk(Initial(now), evs);
  }

  /** Once a run is closed or superseded, no task or step of it waits or runs: the statement with which a start of the server
      cancels the steps of superseded runs finds no scrape step. */
  lemma DeadRunsRest(now: int, evs: seq<Event>, run: Key)
    requires var q := After(Initial(now), evs).queue; run in q.runs && (q.runs[run].superseded || q.runs[run].status == Closed)
    ensures var q := After(Initial(now), evs).queue;
      && (forall id | id in q.tasks && q.tasks[id].link.Some? && q.tasks[id].link.value.run == run ::
            q.tasks[id].status != Waiting && q.tasks[id].status != Running)
      && (forall s | s in q.steps && q.steps[s].run == run :: q.steps[s].status != Waiting && q.steps[s].status != Running)
  {
    Reachable(now, evs);
    var q := After(Initial(now), evs).queue;
    forall id | id in q.tasks && OfRun(q.tasks[id], run) ensures !Pending(q.tasks[id].status) {
      assert TaskSettled(q, q.tasks[id]);
    }
    forall s | s in q.steps && q.steps[s].run == run ensures !Pending(q.steps[s].status) {
      assert StepSettled(q, q.steps[s]);
    }
  }

  // ---------- task and step agree ----------

  /** The reaper does not find a lease running out between its statements. */
  ghost predicate Untorn(w: World, ev: Event) {
    ev.Reap? ==> forall id | id in w.queue.tasks :: !Torn(w.queue.tasks[id], MomentsOf(w.now, ev))
  }

  lemma WorkersAgree(w: World, ev: Event)
    requires WorldOk(w) && Agreement(w.queue) && OfWorkers(ev)
    ensures Agreement(Next(w, ev).queue) <==> Untorn(w, ev)
  {
    if Enabled(w, ev) {
      var q, issued, now := w.queue, w.issued, w.now;
      match ev
      case Tick(_) =>
      case Take(task, ready) => ClaimKeeps(q, issued, task, ready, now);
      case Renew(owner) => RenewKeeps(q, issued, issued[owner], now);
      case Fail(owner, message, _) =>
        assert ClaimOk(q, owner, issued[owner]);
        FailKeeps(q, issued, issued[owner], message, now);
      case Complete(owner, message, _) => DoneKeeps(q, issued, issued[owner], message, now);
      case Reap(_, _, _) => ReapAgreesExact(q, issued, MomentsOf(now, ev));
    }
  }

  lemma OthersAgree(w: World, ev: Event)
    requires WorldOk(w) && Agreement(w.queue) && !OfWorkers(ev) && !OfUpkeep(ev)
    ensures Agreement(Next(w, ev).queue)
  {
    if Enabled(w, ev) {
      var q, issued, now := w.queue, w.issued, w.now;
      match ev
      case Supersession(run) => SupersedeKeeps(q, issued, run, now);
      case Cancellation(run, reason) => CancelPlanKeeps(q, issued, run, reason, now);
      case Abort(task) => AbortKeeps(q, issued, task, now);
      case Reopen(task) => ReopenKeeps(q, issued, task, now);
      case Requeue(task, newRound) => ResetKeeps(q, issued, task, newRound, now);
      case Plan(task, media, link, required, outcome) => PlanAgrees(q, task, media, link, required, outcome, now);
      case Enqueue(task, media) => EnqueueKeeps(q, issued, task, media, now);
    }
  }

  lemma UpkeepAgrees(w: World, ev: Event)
    requires WorldOk(w) && Agreement(w.queue) && OfUpkeep(ev)
    ensures Agreement(Next(w, ev).queue)
  {
    if Enabled(w, ev) {
      var q, issued, now := w.queue, w.issued, w.now;
      match ev
      case Aggregate(run, others, preserve, reason) => AggregateKeeps(q, issued, run, others, preserve, reason, now);
      case Revive(run) => RunsKeep(q, issued, WithStatus(q, run, Processing).runs);
      case Skip(task, reason) => SkipKeeps(q, issued, task, reason, now);
      case Restart => RestartAgrees(q, issued, now);
      case Resync(task) =>
    }
  }

  /** One event keeps steps and tasks in agreement, unless it is a reaper pass that tears a lease. */
  lemma NextAgrees(w: World, ev: Event)
    requires WorldOk(w) && Agreement(w.queue)
    ensures Agreement(Next(w, ev).queue) <==> Untorn(w, ev)
  {
    if OfWorkers(ev) {
      WorkersAgree(w, ev);
    } else if OfUpkeep(ev) {
      UpkeepAgrees(w, ev);
    } else {
      OthersAgree(w, ev);
    }
  }

  ghost predicate NeverTorn(w: World, evs: seq<Event>)
    decreases |evs|
  {
    evs != [] ==> Untorn(w, evs[0]) && NeverTorn(Next(w, evs[0]), evs[1..])
  }

  /** In every run in which the reaper never tears a lease, each step tells the story of its task. */
  lemma {:induction false} StepsFollowTasks(w: World, evs: seq<Event>)
    requires WorldOk(w) && Agreement(w.queue) && NeverTorn(w, evs)
    ensures Agreement(After(w, evs).queue)
    decreases |evs|
  {
    if evs != [] {
      NextOk(w, evs[0]);
      NextAgrees(w, evs[0]);
      StepsFollowTasks(Next(w, evs[0]), evs[1..]);
    }
  }

  // ---------- fencing ----------

  /** The claim's plan has been overtaken: by a newer generation of the medium, or superseded outright. */
  predicate Outdated(q: Queue, c: Claim) {
    c.link.Some? &&
    (|| (c.link.value.run in q.runs && q.runs[c.link.value.run].superseded)
     || (c.media in q.generations && q.generations[c.media] > c.link.value.generation))
  }

  predicate Lost(q: Queue, c: Claim) {
    !Carries(q, c) || Outdated(q, c)
  }

  /** A running row carries either the token it had, or the newest one. */
  ghost predicate TokensMove(q: Queue, q': Queue, newest: nat) {
    forall id | id in q'.tasks && q'.tasks[id].status == Running ::
      || q'.tasks[id].owner == Some(newest)
      || (id in q.tasks && q.tasks[id].status == Running && q'.tasks[id].owner == q.tasks[id].owner)
  }

  /** Superseding is final, and generations only grow. */
  ghost predicate PlansMove(q: Queue, q': Queue) {
    && (forall r | r in q.runs && q.runs[r].superseded :: r in q'.runs && q'.runs[r].superseded)
    && (forall m | m in q.generations :: m in q'.generations && q'.generations[m] >= q.generations[m])
  }

  ghost predicate Moves(w: World, ev: Event) {
    TokensMove(w.queue, Next(w, ev).queue, |w.issued|) && PlansMove(w.queue, Next(w, ev).queue)
  }

  lemma WorkersMove(w: World, ev: Event)
    requires OfWorkers(ev)
    ensures Moves(w, ev)
  {
  }

  lemma OthersMove(w: World, ev: Event)
    requires !OfWorkers(ev) && !OfUpkeep(ev)
    ensures Moves(w, ev)
  {
  }

  lemma AggregateMoves(w: World, ev: Event)
    requires ev.Aggregate? && Enabled(w, ev)
    ensures Moves(w, ev)
  {
    AggregatedPlans(w.queue, ev.run, ev.others, ev.preserve, ev.reason, w.now);
    forall id | id in w.queue.tasks ensures KeptOrGivenUp(w.queue.tasks[id], Next(w, ev).queue.tasks[id]) {
      AggregatedTask(w.queue, ev.run, ev.others, ev.preserve, ev.reason, w.now, id);
    }
  }

  lemma UpkeepMoves(w: World, ev: Event)
    requires OfUpkeep(ev)
    ensures Moves(w, ev)
  {
    if ev.Aggregate? && Enabled(w, ev) {
      AggregateMoves(w, ev);
    }
  }

  lemma TokensAndPlansMove(w: World, ev: Event)
    ensures Moves(w, ev) && w.issued <= Next(w, ev).issued
  {
    if OfWorkers(ev) {
      WorkersMove(w, ev);
    } else if OfUpkeep(ev) {
      UpkeepMoves(w, ev);
    } else {
      OthersMove(w, ev);
    }
  }

  lemma LostStays(w: World, ev: Event, c: Claim)
    requires c.owner < |w.issued| && Lost(w.queue, c)
    ensures Lost(Next(w, ev).queue, c)
  {
    TokensAndPlansMove(w, ev);
  }

  /** A claim that is lost is lost for good. */
  lemma {:induction false} LostForever(w: World, evs: seq<Event>, c: Claim)
    requires c.owner < |w.issued| && Lost(w.queue, c)
    ensures Lost(After(w, evs).queue, c)
    decreases |evs|
  {
    if evs != [] {
      LostStays(w, evs[0], c);
      TokensAndPlansMove(w, evs[0]);
      LostForever(Next(w, evs[0]), evs[1..], c);
    }
  }

  /** Nothing but the loss of the claim stands between it and its task. In particular a run that is closed has lost
      all its claims, so that asking for the run to be open refuses no claim that still carries its token. */
  lemma OwnsExact(w: World, owner: nat)
    requires WorldOk(w) && Agreement(w.queue) && owner < |w.issued|
    ensures OwnedBy(w, owner) <==> !Lost(w.queue, w.issued[owner])
  {
  }

  /** Fencing: after a claim is lost, every renew, fail and complete of its worker, at any later time and
      whatever the others do, is refused and leaves all rows as they are. */
  lemma Fenced(w: World, evs: seq<Event>, owner: nat, ev: Event)
    requires WorldOk(w) && owner < |w.issued| && Lost(w.queue, w.issued[owner])
    requires ev.Renew? || ev.Fail? || ev.Complete?
    requires ev.owner == owner
    ensures var v := After(w, evs); Next(v, ev) == v
  {
    assert ClaimOk(w.queue, owner, w.issued[owner]);
    LostForever(w, evs, w.issued[owner]);
    ClaimsGrow(w, evs);
  }

  lemma {:induction false} ClaimsGrow(w: World, evs: seq<Event>)
    ensures w.issued <= After(w, evs).issued
    decreases |evs|
  {
    if evs != [] {
      TokensAndPlansMove(w, evs[0]);
      ClaimsGrow(Next(w, evs[0]), evs[1..]);
    }
  }

  /** No two claims own the same task. */
  lemma MutualExclusion(w: World, a: nat, b: nat)
    requires WorldOk(w) && OwnedBy(w, a) && OwnedBy(w, b) && w.issued[a].task == w.issued[b].task
    ensures a == b
  {
  }

  // ---------- at most one end ----------

  ghost function Endings(w: World, evs: seq<Event>, owner: nat): nat
    decreases |evs|
  {
    if evs == [] then 0
    else (if Ends(w, evs[0], owner) then 1 else 0) + Endings(Next(w, evs[0]), evs[1..], owner)
  }

  lemma EndLoses(w: World, ev: Event, owner: nat)
    requires Ends(w, ev, owner)
    ensures Lost(Next(w, ev).queue, w.issued[owner])
  {
  }

  lemma {:induction false} LostNeverEnds(w: World, evs: seq<Event>, owner: nat)
    requires WorldOk(w) && owner < |w.issued| && Lost(w.queue, w.issued[owner])
    ensures Endings(w, evs, owner) == 0
    decreases |evs|
  {
    if evs != [] {
      assert ClaimOk(w.queue, owner, w.issued[owner]);
      LostStays(w, evs[0], w.issued[owner]);
      TokensAndPlansMove(w, evs[0]);
      NextOk(w, evs[0]);
      LostNeverEnds(Next(w, evs[0]), evs[1..], owner);
    }
  }

  /** Over any run a claim brings about at most one terminal transition. */
  lemma {:induction false} AtMostOneEnd(w: World, evs: seq<Event>, owner: nat)
    requires WorldOk(w)
    ensures Endings(w, evs, owner) <= 1
    decreases |evs|
  {
    if evs != [] {
      var v := Next(w, evs[0]);
      NextOk(w, evs[0]);
      if Ends(w, evs[0], owner) {
        EndLoses(w, evs[0], owner);
        TokensAndPlansMove(w, evs[0]);
        LostNeverEnds(v, evs[1..], owner);
      } else {
        AtMostOneEnd(v, evs[1..], owner);
      }
    }
  }

  // ---------- bounded attempts ----------

  function OfRound(task: Key, round: nat): Claim -> bool {
    (c: Claim) => c.task == task && c.round == round
  }

  /** How often a task was claimed in a retry round. */
  function Tally(w: World, task: Key, round: nat): nat {
    Count(w.issued, OfRound(task, round))
  }

  /** How many of the claims of a round the task row accounts for. */
  function Used(q: Queue, task: Key, round: nat): int {
    if task !in q.tasks || round > q.tasks[task].round then 0
    else if round < q.tasks[task].round || q.tasks[task].status == Done then MAX_FAILURES
    else q.tasks[task].fails
  }

  /** The task is queued again by hand, without a new round. */
  predicate Requeues(w: World, ev: Event, task: Key, round: nat) {
    ev == Requeue(task, false) && Enabled(w, ev) && w.queue.tasks[task].round == round
  }

  ghost function Requeued(w: World, evs: seq<Event>, task: Key, round: nat): nat
    decreases |evs|
  {
    if evs == [] then 0
    else (if Requeues(w, evs[0], task, round) then 1 else 0) + Requeued(Next(w, evs[0]), evs[1..], task, round)
  }

  predicate Takes(w: World, ev: Event, task: Key, round: nat) {
    ev.Take? && ev.task == task && Enabled(w, ev) && w.queue.tasks[task].round == round
  }

  /** No event gives the row back a claim, except queueing the task again by hand. */
  ghost predicate UsedKept(w: World, ev: Event, task: Key, round: nat) {
    Used(Next(w, ev).queue, task, round) + (if Requeues(w, ev, task, round) then MAX_FAILURES else 0)
    >= Used(w.queue, task, round) + (if Takes(w, ev, task, round) then 1 else 0)
  }

  lemma WorkersUse(w: World, ev: Event, task: Key, round: nat)
    requires task in w.queue.tasks && TaskOk(task, w.queue.tasks[task], w.issued) && OfWorkers(ev) && ClaimsOk(w.queue, w.issued)
    ensures UsedKept(w, ev, task, round)
  {
  }

  lemma OthersUse(w: World, ev: Event, task: Key, round: nat)
    requires task in w.queue.tasks && TaskOk(task, w.queue.tasks[task], w.issued) && !OfWorkers(ev) && !OfUpkeep(ev)
    ensures UsedKept(w, ev, task, round)
  {
  }

  lemma UpkeepUses(w: World, ev: Event, task: Key, round: nat)
    requires task in w.queue.tasks && OfUpkeep(ev)
    ensures UsedKept(w, ev, task, round)
  {
    if ev.Aggregate? && Enabled(w, ev) {
      AggregatedTask(w.queue, ev.run, ev.others, ev.preserve, ev.reason, w.now, task);
    }
  }

  lemma UsedMoves(w: World, ev: Event, task: Key, round: nat)
    requires WorldOk(w)
    ensures UsedKept(w, ev, task, round)
  {
    if task !in w.queue.tasks {
      NewRowsUnused(w, ev, task, round);
    } else if OfWorkers(ev) {
      WorkersUse(w, ev, task, round);
    } else if OfUpkeep(ev) {
      UpkeepUses(w, ev, task, round);
    } else {
      OthersUse(w, ev, task, round);
    }
  }

  lemma NewRowsUnused(w: World, ev: Event, task: Key, round: nat)
    requires task !in w.queue.tasks && WorldOk(w)
    ensures UsedKept(w, ev, task, round)
  {
    NextOk(w, ev);
    if task in Next(w, ev).queue.tasks {
      assert TaskOk(task, Next(w, ev).queue.tasks[task], Next(w, ev).issued);
    }
  }

  lemma TallyMoves(w: World, ev: Event, task: Key, round: nat)
    ensures Tally(Next(w, ev), task, round) == Tally(w, task, round) + (if Takes(w, ev, task, round) then 1 else 0)
  {
    if ev.Take? && Enabled(w, ev) {
      CountAppend(w.issued, ClaimOf(w.queue, ev.task, |w.issued|), OfRound(task, round));
    }
  }

  lemma {:induction false} TallyBounded(w: World, evs: seq<Event>, task: Key, round: nat, k: nat)
    requires WorldOk(w) && Tally(w, task, round) <= MAX_FAILURES * k + Used(w.queue, task, round)
    ensures Tally(After(w, evs), task, round)
         <= MAX_FAILURES * (k + Requeued(w, evs, task, round)) + Used(After(w, evs).queue, task, round)
    decreases |evs|
  {
    if evs != [] {
      var ev := evs[0];
      UsedMoves(w, ev, task, round);
      TallyMoves(w, ev, task, round);
      NextOk(w, ev);
      TallyBounded(Next(w, ev), evs[1..], task, round, k + if Requeues(w, ev, task, round) then 1 else 0);
    }
  }

  /** A task is claimed at most three times in a retry round, plus three times for each time that it is queued again
      by hand in that round. */
  lemma AttemptsBounded(now: int, evs: seq<Event>, task: Key, round: nat)
    ensures Tally(After(Initial(now), evs), task, round) <= MAX_FAILURES * (1 + Requeued(Initial(now), evs, task, round))
  {
    TallyBounded(Initial(now), evs, task, round, 0);
    Reachable(now, evs);
    var w := After(Initial(now), evs);
    if task in w.queue.tasks {
      assert TaskOk(task, w.queue.tasks[task], w.issued);
    }
  }

  /** After the third claim of a round that nobody queued again, once the task runs no more it is done, failed, cancelled
      or in a later round: it never waits. */
  lemma ThirdIsLast(now: int, evs: seq<Event>, task: Key, round: nat)
    requires Tally(After(Initial(now), evs), task, round) >= MAX_FAILURES && Requeued(Initial(now), evs, task, round) == 0
    ensures var q := After(Initial(now), evs).queue;
      && task in q.tasks && (q.tasks[task].round > round || (q.tasks[task].round == round && q.tasks[task].status != Waiting))
      && (q.tasks[task].round == round ==> forall ready, at :: !Claimable(q, task, ready, at))
  {
    TallyBounded(Initial(now), evs, task, round, 0);
    Reachable(now, evs);
    var w := After(Initial(now), evs);
    if task in w.queue.tasks {
      assert TaskOk(task, w.queue.tasks[task], w.issued);
    }
  }

  // ---------- leases and delays ----------

  /** A failed attempt can be claimed again five seconds after a first failure, thirty after a second, and after a
      third never. */
  lemma RetryDelayExact(q: Queue, c: Claim, message: string, now: int, at: int)
    requires Owns(q, c) && c.attempts >= 1
    ensures var t := FailedBy(q, c, message, now).tasks[c.task];
      Due(t, at) <==> c.attempts < MAX_FAILURES && at >= now + (if c.attempts == 1 then 5 else 30)
  {
  }

  /** For ninety seconds after a claim or a renewal the reaper leaves the task alone; afterwards it takes it. */
  lemma LeaseProtects(w: World, ev: Event, id: Key, at: int)
    requires WorldOk(w) && Enabled(w, ev)
    requires (ev.Take? && ev.task == id) || (ev.Renew? && w.issued[ev.owner].task == id)
    ensures var t := Next(w, ev).queue.tasks[id]; (exists exhausted :: Stuck(t, exhausted, at)) <==> at > w.now + LEASE_SECONDS
  {
    var t := Next(w, ev).queue.tasks[id];
    assert Stuck(t, t.fails >= MAX_FAILURES, at) <==> at > w.now + LEASE_SECONDS;
  }

  /** What one pass of the reaper makes of a task: an expired lease is taken back, so that the task is due at once or,
      after the third attempt, failed; every other task stays as it is. */
  lemma ReapExact(q: Queue, issued: seq<Claim>, m: Moments, id: Key)
    requires Inv(q, issued) && Ordered(m) && id in q.tasks
    ensures var t, t' := q.tasks[id], Reaped(q, m).tasks[id];
      if Stuck(t, false, m.t2) then Due(t', m.t2) && t'.owner.None? && t'.fails == t.fails && t'.round == t.round
      else if Stuck(t, true, m.t4) then t'.status == Failed && t'.owner.None? && (forall at :: !Due(t', at))
      else t' == t
  {
  }
}
