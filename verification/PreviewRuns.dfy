/** Whole runs of the scheduler: enqueuing goroutines and workers that interleave at the points
    where the mutex is free, the one-slot wake channel, and shutdown. Every guarantee here is
    about all reachable states or all runs of this small-step system. */
module PreviewRuns {
  import opened PreviewState

  /** Where a worker is between two locked sections. */
  datatype Worker =
    | Idle                        // blocked on the wake channel
    | Ready                       // about to take
    | Starting(id: LibraryId)     // took `id`, saw more pending, about to signal and then run it
    | Busy(id: LibraryId)         // running `id`
    | Ending                      // finished, saw more pending, about to signal
    | Looping                     // about to check for shutdown and take again
    | Exited

  /** `token` is the wake channel's single slot; `posters` counts enqueuers between unlock and signal. */
  datatype System = System(shared: Shared, token: bool, workers: seq<Worker>, posters: nat, cancelled: bool)

  datatype Config = Config(maxPending: nat, options: Options)

  datatype Event =
    | Enqueue(id: LibraryId, dirty: bool, now: Time, accepted: bool)
    | Post                                // an enqueuer signals
    | Wake(w: nat)                        // a worker receives from the wake channel
    | Take(w: nat, id: LibraryId)
    | TakeNone(w: nat)
    | Signal(w: nat)
    | Finish(w: nat, id: LibraryId, failed: bool, now: Time)
    | Loop(w: nat)
    | Cancel                              // shutdown begins
    | Leave(w: nat)                       // an idle worker sees the shutdown

  ghost predicate At(s: System, w: nat, pc: Worker) {
    w < |s.workers| && s.workers[w] == pc
  }

  ghost function Goto(s: System, w: nat, pc: Worker): System
    requires w < |s.workers|
  {
    s.(workers := s.workers[w := pc])
  }

  ghost predicate EnqueueStep(c: Config, s: System, id: LibraryId, dirty: bool, now: Time, accepted: bool, s': System) {
    exists a :: Enqueued(c.maxPending, c.options, s.shared, id, dirty, now, a) && a.accepted == accepted
                && s' == s.(shared := a.after, posters := if a.added then s.posters + 1 else s.posters)
  }

  ghost predicate TakeStep(c: Config, s: System, w: nat, id: LibraryId, s': System) {
    && At(s, w, Ready) && Taken(c.maxPending, s.shared, id, s'.shared)
    && s' == Goto(s.(shared := s'.shared), w, if s'.shared.pending != {} then Starting(id) else Busy(id))
  }

  ghost predicate FinishStep(c: Config, s: System, w: nat, id: LibraryId, failed: bool, now: Time, s': System) {
    && At(s, w, Busy(id)) && Finished(c.maxPending, c.options, s.shared, id, failed, s.cancelled, now, s'.shared)
    && s' == Goto(s.(shared := s'.shared), w, if s'.shared.pending != {} then Ending else Looping)
  }

  ghost predicate Step(c: Config, s: System, e: Event, s': System) {
    match e
    case Enqueue(id, dirty, now, accepted) => EnqueueStep(c, s, id, dirty, now, accepted, s')
    case Post => s.posters > 0 && s' == s.(posters := s.posters - 1, token := true)
    case Wake(w) => At(s, w, Idle) && s.token && s' == Goto(s.(token := false), w, Ready)
    case Take(w, id) => TakeStep(c, s, w, id, s')
    case TakeNone(w) => At(s, w, Ready) && s.shared.pending == {} && s' == Goto(s, w, Idle)
    case Signal(w) =>
      && w < |s.workers| && (s.workers[w].Starting? || s.workers[w].Ending?)
      && s' == Goto(s.(token := true), w, if s.workers[w].Starting? then Busy(s.workers[w].id) else Looping)
    case Finish(w, id, failed, now) => FinishStep(c, s, w, id, failed, now, s')
    case Loop(w) => At(s, w, Looping) && s' == Goto(s, w, if s.cancelled then Exited else Ready)
    case Cancel => s' == s.(cancelled := true)
    case Leave(w) => At(s, w, Idle) && s.cancelled && s' == Goto(s, w, Exited)
  }

  ghost predicate Initial(s: System) {
    && s.shared == Shared({}, {}, {}, {}, {}, map[]) && !s.token && s.posters == 0 && !s.cancelled
    && |s.workers| > 0 && forall w | 0 <= w < |s.workers| :: s.workers[w] == Idle
  }

  /** A run: states[k] becomes states[k+1] by events[k]. */
  ghost predicate Run(c: Config, states: seq<System>, events: seq<Event>) {
    && c.maxPending > 0 && c.options.maxFailures > 0
    && |states| == |events| + 1
    && Initial(states[0])
    && forall k | 0 <= k < |events| :: Step(c, states[k], events[k], states[k + 1])
  }

  // ---------- the invariant of every reachable state ----------

  /** The id a worker is responsible for. */
  ghost predicate Holds(pc: Worker, id: LibraryId) {
    (pc.Starting? || pc.Busy?) && pc.id == id
  }

  /** The running ids are exactly those some worker holds, and no two workers hold the same one. */
  ghost predicate Exclusive(workers: seq<Worker>, running: set<LibraryId>) {
    && (forall w, id | 0 <= w < |workers| && Holds(workers[w], id) :: id in running)
    && (forall id | id in running :: exists w :: 0 <= w < |workers| && Holds(workers[w], id))
    && (forall v, w, id | 0 <= v < |workers| && 0 <= w < |workers| && Holds(workers[v], id) && Holds(workers[w], id) :: v == w)
  }

  ghost predicate Awake(pc: Worker) {
    pc.Ready? || pc.Starting? || pc.Ending? || pc.Looping?
  }

  /** While work is pending, somebody is about to take it or to signal for it, or the token is there. */
  ghost predicate NoLostWakeup(s: System) {
    !s.cancelled && s.shared.pending != {} ==>
      s.token || s.posters > 0 || exists w :: 0 <= w < |s.workers| && Awake(s.workers[w])
  }

  /** Workers only leave during shutdown. */
  ghost predicate Staffed(s: System) {
    !s.cancelled ==> forall w | 0 <= w < |s.workers| :: !s.workers[w].Exited?
  }

  ghost predicate Bounded(c: Config, s: System) {
    |s.shared.running| + |s.shared.deferred| <= |s.workers|
  }

  ghost predicate Inv(c: Config, s: System) {
    && Consistent(c.maxPending, s.shared)
    && Exclusive(s.workers, s.shared.running) && NoLostWakeup(s) && Staffed(s) && Bounded(c, s)
    && Recorded(c.options, s.shared.failures) && |s.shared.failures| <= c.options.maxFailures
  }

  // ---------- counting ----------

  lemma {:induction false} Pigeonhole(ids: set<LibraryId>, workers: seq<Worker>)
    requires forall id | id in ids :: exists w :: 0 <= w < |workers| && Holds(workers[w], id)
    ensures |ids| <= |workers|
  {
    if |workers| == 0 {
      if id :| id in ids {
        assert false;
      }
      assert ids == {};
    } else {
      var n := |workers| - 1;
      var held := set id | id in ids && Holds(workers[n], id);
      var rest := ids - held;
      forall id | id in rest ensures exists w :: 0 <= w < n && Holds(workers[..n][w], id) {
        var w :| 0 <= w < |workers| && Holds(workers[w], id);
        assert Holds(workers[..n][w], id);
      }
      Pigeonhole(rest, workers[..n]);
      AtMostOne(held, workers[n]);
      assert ids == rest + held;
    }
  }

  lemma AtMostOne(held: set<LibraryId>, pc: Worker)
    requires forall id | id in held :: Holds(pc, id)
    ensures |held| <= 1
  {
    if id :| id in held {
      assert held == {id};
    } else {
      assert held == {};
    }
  }

  // ---------- every step keeps the invariant ----------

  lemma WithoutIsSmaller(failures: map<LibraryId, Failure>, id: LibraryId)
    ensures |failures - {id}| <= |failures|
  {
  }

  lemma EnqueuedFits(max: nat, o: Options, s: Shared, id: LibraryId, dirty: bool, now: Time, a: Admission)
    requires |s.failures| <= o.maxFailures && Enqueued(max, o, s, id, dirty, now, a)
    ensures |a.after.failures| <= o.maxFailures
  {
    if id.n > 0 {
      var kept :| Pruned(o, now, s.failures, kept) && a == Admit(max, s, kept, id, dirty, now);
      WithoutIsSmaller(kept, id);
      AdmittedFailures(max, s, kept, id, dirty, now);
    }
  }

  lemma AdmittedFailures(max: nat, s: Shared, kept: map<LibraryId, Failure>, id: LibraryId, dirty: bool, now: Time)
    ensures Admit(max, s, kept, id, dirty, now).after.failures == if dirty then kept - {id} else kept
  {
  }

  lemma EnqueuedRecorded(max: nat, o: Options, s: Shared, id: LibraryId, dirty: bool, now: Time, a: Admission)
    requires Recorded(o, s.failures) && Enqueued(max, o, s, id, dirty, now, a)
    ensures Recorded(o, a.after.failures)
  {
  }

  lemma EnqueueInv(c: Config, s: System, e: Event, s': System)
    requires Inv(c, s) && e.Enqueue? && EnqueueStep(c, s, e.id, e.dirty, e.now, e.accepted, s')
    ensures Inv(c, s')
    ensures e.accepted && e.dirty ==> s'.shared.Owes(e.id)
    ensures forall id | s.shared.Owes(id) :: s'.shared.Owes(id)
  {
    var a :| Enqueued(c.maxPending, c.options, s.shared, e.id, e.dirty, e.now, a) && a.accepted == e.accepted
             && s' == s.(shared := a.after, posters := if a.added then s.posters + 1 else s.posters);
    EnqueueKeeps(c.maxPending, c.options, s.shared, e.id, e.dirty, e.now, a);
    EnqueuedFits(c.maxPending, c.options, s.shared, e.id, e.dirty, e.now, a);
    EnqueuedRecorded(c.maxPending, c.options, s.shared, e.id, e.dirty, e.now, a);
  }

  /** A worker that neither gains nor loses an id does not disturb the others. */
  lemma HandsUnchanged(workers: seq<Worker>, running: set<LibraryId>, w: nat, pc: Worker)
    requires w < |workers| && Exclusive(workers, running)
    requires forall id :: Holds(workers[w], id) <==> Holds(pc, id)
    ensures Exclusive(workers[w := pc], running)
  {
    var after := workers[w := pc];
    forall id | id in running ensures exists v :: 0 <= v < |workers| && Holds(after[v], id) {
      var v :| 0 <= v < |workers| && Holds(workers[v], id);
      assert Holds(after[v], id);
    }
  }

  lemma HandGains(workers: seq<Worker>, running: set<LibraryId>, w: nat, pc: Worker, id: LibraryId)
    requires w < |workers| && Exclusive(workers, running) && id !in running
    requires (forall other :: !Holds(workers[w], other)) && Holds(pc, id)
    ensures Exclusive(workers[w := pc], running + {id})
  {
    var after := workers[w := pc];
    forall other | other in running + {id} ensures exists v :: 0 <= v < |workers| && Holds(after[v], other) {
      if other == id {
        assert Holds(after[w], other);
      } else {
        var v :| 0 <= v < |workers| && Holds(workers[v], other);
        assert Holds(after[v], other);
      }
    }
  }

  lemma HandReleases(workers: seq<Worker>, running: set<LibraryId>, w: nat, pc: Worker, id: LibraryId)
    requires w < |workers| && Exclusive(workers, running)
    requires Holds(workers[w], id) && forall other :: !Holds(pc, other)
    ensures Exclusive(workers[w := pc], running - {id})
  {
    var after := workers[w := pc];
    forall other | other in running - {id} ensures exists v :: 0 <= v < |workers| && Holds(after[v], other) {
      var v :| 0 <= v < |workers| && Holds(workers[v], other);
      assert Holds(after[v], other);
    }
  }

  lemma TakeInv(c: Config, s: System, w: nat, id: LibraryId, s': System)
    requires Inv(c, s) && TakeStep(c, s, w, id, s')
    ensures Inv(c, s')
    ensures forall other | s.shared.Owes(other) && other != id :: s'.shared.Owes(other)
  {
    TakeKeeps(c.maxPending, s.shared, id, s'.shared);
    HandGains(s.workers, s.shared.running, w, s'.workers[w], id);
    if |s.shared.deferred| == 0 {
      Pigeonhole(s'.shared.running, s'.workers);
    }
    if s'.shared.pending != {} {
      assert Awake(s'.workers[w]);
    }
  }

  lemma FinishInv(c: Config, s: System, w: nat, id: LibraryId, failed: bool, now: Time, s': System)
    requires Inv(c, s) && FinishStep(c, s, w, id, failed, now, s')
    ensures Inv(c, s')
    ensures forall other | s.shared.Owes(other) :: s'.shared.Owes(other)
  {
    assert Holds(s.workers[w], id);
    FinishKeeps(c.maxPending, c.options, s.shared, id, failed, s.cancelled, now, s'.shared);
    HandReleases(s.workers, s.shared.running, w, s'.workers[w], id);
    assert |s'.shared.running| == |s.shared.running| - 1;
    assert Awake(s'.workers[w]);
    SettledRecorded(c.options, s.shared, id, failed, s.cancelled, now, s'.shared.failures);
  }

  lemma SettledRecorded(o: Options, s: Shared, id: LibraryId, failed: bool, cancelled: bool, now: Time,
                        failures: map<LibraryId, Failure>)
    requires Recorded(o, s.failures) && |s.failures| <= o.maxFailures
    requires FailuresSettled(o, s, id, failed, cancelled, now, failures)
    ensures Recorded(o, failures) && |failures| <= o.maxFailures
  {
  }

  /** Steps that leave the guarded state alone. */
  lemma QuietInv(c: Config, s: System, e: Event, s': System)
    requires Inv(c, s) && Step(c, s, e, s')
    requires e.Post? || e.Wake? || e.TakeNone? || e.Signal? || e.Loop? || e.Cancel? || e.Leave?
    ensures Inv(c, s') && s'.shared == s.shared
  {
    if !e.Post? && !e.Cancel? {
      HandsUnchanged(s.workers, s.shared.running, e.w, s'.workers[e.w]);
    }
    if e.Wake? || (e.Loop? && !s.cancelled) {
      assert Awake(s'.workers[e.w]);
    }
  }

  /** One step keeps the invariant, and only a `Take` of that id discharges an owed run. */
  lemma StepInv(c: Config, s: System, e: Event, s': System)
    requires Inv(c, s) && Step(c, s, e, s')
    ensures Inv(c, s')
    ensures forall id | s.shared.Owes(id) && !(e.Take? && e.id == id) :: s'.shared.Owes(id)
    ensures e.Enqueue? && e.accepted && e.dirty ==> s'.shared.Owes(e.id)
  {
    match e
    case Enqueue(_, _, _, _) => EnqueueInv(c, s, e, s');
    case Take(w, id) => TakeInv(c, s, w, id, s');
    case Finish(w, id, failed, now) => FinishInv(c, s, w, id, failed, now, s');
    case _ => QuietInv(c, s, e, s');
  }

  // ---------- guarantees over whole runs ----------

  lemma SameWorkers(c: Config, s: System, e: Event, s': System)
    requires Step(c, s, e, s')
    ensures |s'.workers| == |s.workers|
  {
  }

  /** Safety: in every reachable state each id is in one place, held by at most one worker,
      within capacity, and no wakeup is lost. */
  lemma {:induction false} Reachable(c: Config, states: seq<System>, events: seq<Event>, n: nat)
    requires Run(c, states, events) && n < |states|
    ensures Inv(c, states[n]) && |states[n].workers| == |states[0].workers|
  {
    if n > 0 {
      Reachable(c, states, events, n - 1);
      var s, e, s' := states[n - 1], events[n - 1], states[n];
      StepInv(c, s, e, s');
      SameWorkers(c, s, e, s');
    }
  }

  /** Everything the scheduler tracks fits in the pending bound plus one id per worker. */
  lemma Capacity(c: Config, states: seq<System>, events: seq<Event>, n: nat, known: set<LibraryId>)
    requires Run(c, states, events) && n < |states|
    requires forall id | id in known :: states[n].shared.Knows(id)
    ensures |known| <= c.maxPending + |states[0].workers|
    ensures |states[n].shared.pending| <= c.maxPending && |states[n].shared.running| <= |states[0].workers|
    ensures |states[n].shared.failures| <= c.options.maxFailures
  {
    Reachable(c, states, events, n);
    var s := states[n].shared;
    var all := s.pending + s.running + s.deferred;
    assert |all| == |s.pending| + |s.running| + |s.deferred|;
    assert known <= all;
    assert all == known + (all - known);
  }

  /** Two workers never run the same library at once. */
  lemma MutualExclusion(c: Config, states: seq<System>, events: seq<Event>, n: nat, v: nat, w: nat, id: LibraryId)
    requires Run(c, states, events) && n < |states|
    requires v < |states[n].workers| && w < |states[n].workers|
    requires Holds(states[n].workers[v], id) && Holds(states[n].workers[w], id)
    ensures v == w && id !in states[n].shared.pending && id !in states[n].shared.deferred
  {
    Reachable(c, states, events, n);
    assert id in states[n].shared.running;
  }

  /** Before shutdown, pending work never meets a pool that is all asleep with nobody about to signal. */
  lemma PendingIsNoticed(c: Config, states: seq<System>, events: seq<Event>, n: nat)
    requires Run(c, states, events) && n < |states|
    requires !states[n].cancelled && states[n].shared.pending != {}
    ensures states[n].token || states[n].posters > 0 || exists w :: 0 <= w < |states[n].workers| && Awake(states[n].workers[w])
  {
    Reachable(c, states, events, n);
  }

  /** An accepted dirty request stays due until a run of that library starts after it. */
  lemma {:induction false} NoLostRefresh(c: Config, states: seq<System>, events: seq<Event>, j: nat, n: nat, id: LibraryId)
    requires Run(c, states, events) && j < n < |states|
    requires events[j].Enqueue? && events[j].id == id && events[j].dirty && events[j].accepted
    requires forall i | j < i < n :: !(events[i].Take? && events[i].id == id)
    ensures states[n].shared.Owes(id)
  {
    Reachable(c, states, events, n - 1);
    assert Step(c, states[n - 1], events[n - 1], states[n]);
    StepInv(c, states[n - 1], events[n - 1], states[n]);
    if n - 1 > j {
      NoLostRefresh(c, states, events, j, n - 1, id);
    }
  }

  ghost predicate Settled(s: System) {
    s.shared.pending == {} && s.shared.running == {} && s.shared.deferred == {}
  }

  /** So once the scheduler is settled again, a run did start after the request. */
  lemma ServedAfterRequest(c: Config, states: seq<System>, events: seq<Event>, j: nat, n: nat, id: LibraryId)
    requires Run(c, states, events) && j < n < |states|
    requires events[j].Enqueue? && events[j].id == id && events[j].dirty && events[j].accepted
    requires Settled(states[n])
    ensures exists i :: j < i < n && events[i].Take? && events[i].id == id
  {
    Reachable(c, states, events, n);
    if forall i | j < i < n :: !(events[i].Take? && events[i].id == id) {
      NoLostRefresh(c, states, events, j, n, id);
      assert false;
    }
  }

  /** A run of the id is still to start: it is pending, or in the overflow. */
  ghost predicate Queued(s: Shared, id: LibraryId) {
    id in s.pending || id in s.deferred
  }

  lemma QueuedStays(c: Config, s: System, e: Event, s': System, id: LibraryId)
    requires Inv(c, s) && Step(c, s, e, s') && Queued(s.shared, id) && !(e.Take? && e.id == id)
    ensures Queued(s'.shared, id)
  {
    match e
    case Enqueue(_, _, _, _) =>
      var a :| Enqueued(c.maxPending, c.options, s.shared, e.id, e.dirty, e.now, a) && a.accepted == e.accepted
               && s' == s.(shared := a.after, posters := if a.added then s.posters + 1 else s.posters);
      EnqueueExact(c.maxPending, c.options, s.shared, e.id, e.dirty, e.now, a);
    case Take(w, taken) => TakeKeeps(c.maxPending, s.shared, taken, s'.shared);
    case Finish(w, done, failed, now) =>
      assert Holds(s.workers[w], done);
      FinishKeeps(c.maxPending, c.options, s.shared, done, failed, s.cancelled, now, s'.shared);
    case _ =>
  }

  /** An if-missing request for an id that is not known, and whose failures let it through. */
  ghost predicate AsksFirst(states: seq<System>, events: seq<Event>, j: nat, id: LibraryId)
    requires j < |events| < |states|
  {
    && events[j].Enqueue? && events[j].id == id && !events[j].dirty
    && !states[j].shared.Knows(id) && !Resting(states[j + 1].shared.failures, id, events[j].now)
  }

  lemma AskedFirst(c: Config, states: seq<System>, events: seq<Event>, j: nat, id: LibraryId)
    requires Run(c, states, events) && j < |events| && AsksFirst(states, events, j, id)
    ensures events[j].accepted <==> id.n > 0 && |states[j].shared.pending| < c.maxPending
    ensures events[j].accepted ==> Queued(states[j + 1].shared, id)
  {
    Reachable(c, states, events, j);
    var s, e, s' := states[j], events[j], states[j + 1];
    assert Step(c, s, e, s');
    var a :| Enqueued(c.maxPending, c.options, s.shared, e.id, e.dirty, e.now, a) && a.accepted == e.accepted
             && s' == s.(shared := a.after, posters := if a.added then s.posters + 1 else s.posters);
    EnqueueExact(c.maxPending, c.options, s.shared, e.id, e.dirty, e.now, a);
  }

  lemma {:induction false} QueuedUntilTaken(c: Config, states: seq<System>, events: seq<Event>, m: nat, n: nat, id: LibraryId)
    requires Run(c, states, events) && m <= n < |states| && Queued(states[m].shared, id)
    requires forall i | m <= i < n :: !(events[i].Take? && events[i].id == id)
    ensures Queued(states[n].shared, id)
  {
    if m < n {
      QueuedUntilTaken(c, states, events, m, n - 1, id);
      Reachable(c, states, events, n - 1);
      QueuedStays(c, states[n - 1], events[n - 1], states[n], id);
    }
  }

  /** Such a request is accepted exactly if there is room; and then the id waits until a run of it starts. */
  lemma NoLostPreview(c: Config, states: seq<System>, events: seq<Event>, j: nat, n: nat, id: LibraryId)
    requires Run(c, states, events) && j < n < |states| && AsksFirst(states, events, j, id)
    requires forall i | j < i < n :: !(events[i].Take? && events[i].id == id)
    ensures events[j].accepted <==> id.n > 0 && |states[j].shared.pending| < c.maxPending
    ensures events[j].accepted ==> Queued(states[n].shared, id)
  {
    AskedFirst(c, states, events, j, id);
    if events[j].accepted {
      QueuedUntilTaken(c, states, events, j + 1, n, id);
    }
  }

  /** So once the scheduler is settled again, its preview was made. */
  lemma PreviewServed(c: Config, states: seq<System>, events: seq<Event>, j: nat, n: nat, id: LibraryId)
    requires Run(c, states, events) && j < n < |states| && AsksFirst(states, events, j, id) && events[j].accepted
    requires Settled(states[n])
    ensures exists i :: j < i < n && events[i].Take? && events[i].id == id
  {
    if forall i | j < i < n :: !(events[i].Take? && events[i].id == id) {
      NoLostPreview(c, states, events, j, n, id);
      assert false;
    }
  }

  // ---------- quiescence ----------

  function Weight(pc: Worker): nat {
    match pc
    case Exited => 0
    case Idle => 1
    case Busy(_) => 1
    case Ready => 2
    case Looping => 3
    case Starting(_) => 4
    case Ending => 6
  }

  ghost function WeightOf(workers: seq<Worker>): nat {
    if workers == [] then 0 else WeightOf(workers[..|workers| - 1]) + Weight(workers[|workers| - 1])
  }

  /** An upper bound on the steps that are left if nobody enqueues. */
  ghost function Remaining(s: System): nat {
    6 * Work(s.shared) + 3 * s.posters + (if s.token then 2 else 0) + WeightOf(s.workers)
  }

  lemma {:induction false} WeightMoves(workers: seq<Worker>, w: nat, pc: Worker)
    requires w < |workers|
    ensures WeightOf(workers[w := pc]) == WeightOf(workers) - Weight(workers[w]) + Weight(pc)
    ensures WeightOf(workers) >= Weight(workers[w])
  {
    var n := |workers| - 1;
    if w < n {
      WeightMoves(workers[..n], w, pc);
      assert workers[w := pc][..n] == workers[..n][w := pc];
    } else {
      assert workers[w := pc][..n] == workers[..n];
    }
  }

  /** The steps the environment decides on; everything else is the scheduler's own progress. */
  predicate External(e: Event) {
    e.Enqueue? || e.Cancel?
  }

  lemma TakeDecreases(c: Config, s: System, w: nat, id: LibraryId, s': System)
    requires Consistent(c.maxPending, s.shared) && TakeStep(c, s, w, id, s')
    ensures Remaining(s') < Remaining(s)
  {
    WeightMoves(s.workers, w, s'.workers[w]);
    TakeWorks(c.maxPending, s.shared, id, s'.shared);
  }

  lemma FinishDecreases(c: Config, s: System, w: nat, id: LibraryId, failed: bool, now: Time, s': System)
    requires Consistent(c.maxPending, s.shared) && FinishStep(c, s, w, id, failed, now, s') && id in s.shared.running
    ensures Remaining(s') < Remaining(s)
  {
    WeightMoves(s.workers, w, s'.workers[w]);
    FinishWorks(c.maxPending, c.options, s.shared, id, failed, s.cancelled, now, s'.shared);
  }

  lemma QuietDecreases(c: Config, s: System, e: Event, s': System)
    requires Step(c, s, e, s') && !External(e) && !e.Take? && !e.Finish?
    ensures Remaining(s') < Remaining(s)
  {
    if !e.Post? {
      WeightMoves(s.workers, e.w, s'.workers[e.w]);
    }
  }

  /** Every step of a run but an enqueue or the start of the shutdown uses up some of what remains. */
  lemma StepDecreases(c: Config, states: seq<System>, events: seq<Event>, k: nat)
    requires Run(c, states, events) && k < |events| && !events[k].Enqueue?
    ensures Remaining(states[k + 1]) + (if External(events[k]) then 0 else 1) <= Remaining(states[k])
  {
    var s, e, s' := states[k], events[k], states[k + 1];
    assert Step(c, s, e, s');
    Reachable(c, states, events, k);
    match e
    case Take(w, id) => TakeDecreases(c, s, w, id, s');
    case Finish(w, id, failed, now) =>
      assert Holds(s.workers[w], id);
      FinishDecreases(c, s, w, id, failed, now, s');
    case Cancel =>
    case _ => QuietDecreases(c, s, e, s');
  }

  ghost function Progress(events: seq<Event>, m: nat, n: nat): nat
    requires m <= n <= |events|
  {
    if m == n then 0 else Progress(events, m, n - 1) + (if External(events[n - 1]) then 0 else 1)
  }

  /** Once enqueuing stops, the number of further steps is bounded by the state it stopped in. */
  lemma {:induction false} Quiescence(c: Config, states: seq<System>, events: seq<Event>, m: nat, n: nat)
    requires Run(c, states, events) && m <= n < |states|
    requires forall i | m <= i < n :: !events[i].Enqueue?
    ensures Progress(events, m, n) + Remaining(states[n]) <= Remaining(states[m])
  {
    if m < n {
      Quiescence(c, states, events, m, n - 1);
      StepDecreases(c, states, events, n - 1);
    }
  }

  /** No step of the scheduler's own is possible. */
  ghost predicate Stuck(c: Config, s: System) {
    forall e, s' | Step(c, s, e, s') :: External(e)
  }

  lemma {:induction false} SubsetOfSize(ids: set<LibraryId>, n: nat) returns (some: set<LibraryId>)
    requires n <= |ids|
    ensures some <= ids && |some| == n
  {
    if n == |ids| {
      some := ids;
    } else {
      var id :| id in ids;
      some := SubsetOfSize(ids - {id}, n);
    }
  }

  /** Unless it is shutting down, a scheduler that cannot move has run everything it accepted. */
  lemma StuckIsSettled(c: Config, states: seq<System>, events: seq<Event>, n: nat)
    requires Run(c, states, events) && n < |states|
    requires Stuck(c, states[n]) && !states[n].cancelled
    ensures Settled(states[n])
  {
    var s := states[n];
    Reachable(c, states, events, n);
    forall w: nat | w < |s.workers| ensures s.workers[w].Idle? {
      WorkerCanMove(c, s, w);
    }
    ChannelCanMove(c, s);
    assert forall w, id | 0 <= w < |s.workers| :: !Holds(s.workers[w], id);
    assert forall id :: id !in s.shared.running;
    assert s.shared.running == {};
    assert |s.shared.pending| == 0;
  }

  lemma ChannelCanMove(c: Config, s: System)
    requires |s.workers| > 0
    ensures s.posters > 0 ==> !Stuck(c, s)
    ensures s.token && s.workers[0].Idle? ==> !Stuck(c, s)
  {
    if s.posters > 0 {
      assert Step(c, s, Post, s.(posters := s.posters - 1, token := true));
    }
    if s.token && s.workers[0].Idle? {
      assert Step(c, s, Wake(0), Goto(s.(token := false), 0, Ready));
    }
  }

  lemma WorkerCanMove(c: Config, s: System, w: nat)
    requires Inv(c, s) && !s.cancelled && w < |s.workers|
    ensures !s.workers[w].Idle? ==> !Stuck(c, s)
  {
    match s.workers[w]
    case Idle =>
    case Ready =>
      if id :| id in s.shared.pending {
        TakePossible(c, s, w, id);
      } else {
        assert s.shared.pending == {};
        assert Step(c, s, TakeNone(w), Goto(s, w, Idle));
      }
    case Starting(id) => assert Step(c, s, Signal(w), Goto(s.(token := true), w, Busy(id)));
    case Busy(id) => FinishPossible(c, s, w);
    case Ending => assert Step(c, s, Signal(w), Goto(s.(token := true), w, Looping));
    case Looping => assert Step(c, s, Loop(w), Goto(s, w, Ready));
    case Exited =>
      assert false;
  }

  lemma TakePossible(c: Config, s: System, w: nat, id: LibraryId)
    requires Inv(c, s) && At(s, w, Ready) && id in s.shared.pending
    ensures !Stuck(c, s)
  {
    var s1 := Started(s.shared, id);
    StartKeeps(c.maxPending, s.shared, id);
    var moved := SubsetOfSize(s1.deferred, Min(|s1.deferred|, c.maxPending - |s1.pending|));
    var shared' := Promote(s1, moved);
    assert Taken(c.maxPending, s.shared, id, shared');
    assert Step(c, s, Take(w, id), Goto(s.(shared := shared'), w, if shared'.pending != {} then Starting(id) else Busy(id)));
  }

  lemma FinishExists(max: nat, o: Options, s: Shared, id: LibraryId) returns (s': Shared)
    requires Consistent(max, s) && id in s.running
    ensures Finished(max, o, s, id, false, false, 0, s')
  {
    var failures := s.failures - {id};
    var s1 := Retired(max, s, id, failures);
    RetireKeeps(max, s, id, failures);
    var moved := SubsetOfSize(s1.deferred, Min(|s1.deferred|, max - |s1.pending|));
    s' := Promote(s1, moved);
    FinishedBy(max, o, s, id, false, false, 0, failures, s1, moved);
  }

  lemma FinishPossible(c: Config, s: System, w: nat)
    requires Inv(c, s) && w < |s.workers| && s.workers[w].Busy? && !s.cancelled
    ensures !Stuck(c, s)
  {
    assert Holds(s.workers[w], s.workers[w].id);
    var shared' := FinishExists(c.maxPending, c.options, s.shared, s.workers[w].id);
    assert Step(c, s, Finish(w, s.workers[w].id, false, 0), Goto(s.(shared := shared'), w, if shared'.pending != {} then Ending else Looping));
  }

  // ---------- backoff over whole runs ----------

  /** A failed run of `id` that counts: nobody asked for a refresh meanwhile and it was not cut short by shutdown. */
  ghost predicate Counted(s: System, e: Event, id: LibraryId) {
    e.Finish? && e.id == id && e.failed && !s.cancelled && id in s.shared.missing
  }

  /** A success of `id` or a refresh request for it, which both forget its failures. */
  ghost predicate Forgives(e: Event, id: LibraryId) {
    || (e.Enqueue? && e.id == id && e.dirty && id.n > 0)
    || (e.Finish? && e.id == id && !e.failed)
  }

  ghost function CountFailures(states: seq<System>, events: seq<Event>, j: nat, n: nat, id: LibraryId): nat
    requires j <= n <= |events| < |states|
  {
    if j == n then 0
    else CountFailures(states, events, j, n - 1, id) + (if Counted(states[n - 1], events[n - 1], id) then 1 else 0)
  }

  lemma AttemptsStep(c: Config, s: System, e: Event, s': System, id: LibraryId)
    requires Step(c, s, e, s') && id in s'.shared.failures
    requires e.Take? ==> Consistent(c.maxPending, s.shared)
    ensures s'.shared.failures[id].attempts == AttemptsOf(s.shared.failures, id) + (if Counted(s, e, id) then 1 else 0)
    ensures id in s.shared.failures || Counted(s, e, id)
    ensures !Forgives(e, id)
  {
    if e.Enqueue? {
      var a :| Enqueued(c.maxPending, c.options, s.shared, e.id, e.dirty, e.now, a) && a.accepted == e.accepted
               && s' == s.(shared := a.after, posters := if a.added then s.posters + 1 else s.posters);
      EnqueuedEntries(c.maxPending, c.options, s.shared, e.id, e.dirty, e.now, a, id);
    } else if e.Take? {
      TakeKeeps(c.maxPending, s.shared, e.id, s'.shared);
    } else if e.Finish? {
      SettledEntries(c.options, s.shared, e.id, e.failed, s.cancelled, e.now, s'.shared.failures, id);
    }
  }

  /** If `id` has an entry after step k then the step counted exactly what it should, and forgave nothing. */
  ghost predicate Tracks(states: seq<System>, events: seq<Event>, k: nat, id: LibraryId)
    requires k < |events| < |states|
  {
    var before, after := states[k].shared.failures, states[k + 1].shared.failures;
    id in after ==>
      && after[id].attempts == AttemptsOf(before, id) + (if Counted(states[k], events[k], id) then 1 else 0)
      && (id in before || Counted(states[k], events[k], id))
      && !Forgives(events[k], id)
  }

  lemma RunTracks(c: Config, states: seq<System>, events: seq<Event>, k: nat, id: LibraryId)
    requires Run(c, states, events) && k < |events|
    ensures Tracks(states, events, k, id)
  {
    if id in states[k + 1].shared.failures {
      Reachable(c, states, events, k);
      assert Step(c, states[k], events[k], states[k + 1]);
      AttemptsStep(c, states[k], events[k], states[k + 1], id);
    }
  }

  lemma CountOfOne(states: seq<System>, events: seq<Event>, k: nat, id: LibraryId)
    requires k < |events| < |states|
    ensures CountFailures(states, events, k, k + 1, id) == if Counted(states[k], events[k], id) then 1 else 0
  {
  }

  lemma {:induction false} EntryCounts(states: seq<System>, events: seq<Event>, n: nat, id: LibraryId) returns (j: nat)
    requires n <= |events| < |states| && id !in states[0].shared.failures && id in states[n].shared.failures
    requires forall k: nat | k < n :: Tracks(states, events, k, id)
    ensures j < n && id !in states[j].shared.failures
    ensures forall i | j < i <= n :: id in states[i].shared.failures
    ensures forall i | j <= i < n :: !Forgives(events[i], id)
    ensures states[n].shared.failures[id].attempts == CountFailures(states, events, j, n, id)
  {
    assert Tracks(states, events, n - 1, id);
    if id in states[n - 1].shared.failures {
      j := EntryCounts(states, events, n - 1, id);
    } else {
      j := n - 1;
      CountOfOne(states, events, j, id);
    }
  }

  /** A failure entry counts exactly the failed if-missing runs of its id since the id last had no entry,
      and no success and no refresh request lies in between. */
  lemma AttemptsCountFailures(c: Config, states: seq<System>, events: seq<Event>, n: nat, id: LibraryId) returns (j: nat)
    requires Run(c, states, events) && n < |states| && id in states[n].shared.failures
    ensures j < n && id !in states[j].shared.failures
    ensures forall i | j < i <= n :: id in states[i].shared.failures
    ensures forall i | j <= i < n :: !Forgives(events[i], id)
    ensures states[n].shared.failures[id].attempts == CountFailures(states, events, j, n, id)
  {
    forall k: nat | k < n ensures Tracks(states, events, k, id) {
      RunTracks(c, states, events, k, id);
    }
    j := EntryCounts(states, events, n, id);
  }
}
