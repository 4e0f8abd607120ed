/** The scheduler object itself: the fields behind the mutex, updated in place by the
    locked section of each operation. Unlocking and signalling the wake channel come after
    these sections and interleave with other goroutines; module PreviewRuns models that. */
module PreviewScheduler {
  import opened PreviewState

  const MINUTE := 60_000_000_000
  const DEFAULT_MAX_RETRY := 30 * MINUTE
  const DEFAULT_MAX_FAILURES := 1024

  /** Missing or contradictory options fall back to the defaults. A cap below the first
      retry is replaced by half an hour, which may still be below it. */
  function Normalize(o: Options): (r: Options)
    ensures r.initialRetry > 0 && r.maxFailures > 0
    ensures r.initialRetry <= r.maxRetry <==> r.initialRetry <= o.maxRetry || r.initialRetry <= DEFAULT_MAX_RETRY
    ensures o.initialRetry > 0 ==> r.initialRetry == o.initialRetry
    ensures o.maxFailures > 0 ==> r.maxFailures == o.maxFailures
    ensures r.initialRetry <= o.maxRetry ==> r.maxRetry == o.maxRetry
  {
    var initial := if o.initialRetry <= 0 then MINUTE else o.initialRetry;
    Options(initial,
            if o.maxRetry < initial then DEFAULT_MAX_RETRY else o.maxRetry,
            if o.maxFailures <= 0 then DEFAULT_MAX_FAILURES else o.maxFailures)
  }

  /** One entry of the job table. A job that is neither running nor deferred is pending. */
  datatype Job = Job(running: bool, dirty: bool, deferred: bool, missing: bool)

  type Jobs = map<LibraryId, Job>

  ghost function RunningIn(jobs: Jobs): set<LibraryId> { set id | id in jobs && jobs[id].running }

  ghost function DeferredIn(jobs: Jobs): set<LibraryId> { set id | id in jobs && jobs[id].deferred }

  ghost function DirtyIn(jobs: Jobs): set<LibraryId> { set id | id in jobs && jobs[id].dirty }

  ghost function MissingIn(jobs: Jobs): set<LibraryId> { set id | id in jobs && jobs[id].missing }

  ghost function Abstract(pending: set<LibraryId>, jobs: Jobs, failures: map<LibraryId, Failure>): Shared {
    Shared(pending, RunningIn(jobs), DeferredIn(jobs), DirtyIn(jobs), MissingIn(jobs), failures)
  }

  /** What the flags of a table entry say agrees with membership in the pending set. */
  ghost predicate Tabled(pending: set<LibraryId>, jobs: Jobs) {
    && pending <= jobs.Keys
    && forall id | id in jobs ::
         && (id in pending <==> !jobs[id].running && !jobs[id].deferred)
         && !(jobs[id].running && jobs[id].deferred)
         && (jobs[id].dirty ==> jobs[id].running)
  }

  ghost function Flag(ids: set<LibraryId>, id: LibraryId, on: bool): set<LibraryId> {
    if on then ids + {id} else ids - {id}
  }

  lemma EntrySet(jobs: Jobs, id: LibraryId, j: Job)
    ensures RunningIn(jobs[id := j]) == Flag(RunningIn(jobs), id, j.running)
    ensures DeferredIn(jobs[id := j]) == Flag(DeferredIn(jobs), id, j.deferred)
    ensures DirtyIn(jobs[id := j]) == Flag(DirtyIn(jobs), id, j.dirty)
    ensures MissingIn(jobs[id := j]) == Flag(MissingIn(jobs), id, j.missing)
  {
  }

  lemma EntryDeleted(jobs: Jobs, id: LibraryId)
    ensures RunningIn(jobs - {id}) == RunningIn(jobs) - {id} && DeferredIn(jobs - {id}) == DeferredIn(jobs) - {id}
    ensures DirtyIn(jobs - {id}) == DirtyIn(jobs) - {id} && MissingIn(jobs - {id}) == MissingIn(jobs) - {id}
  {
  }

  lemma TabledIsDisjoint(max: nat, pending: set<LibraryId>, jobs: Jobs, failures: map<LibraryId, Failure>)
    requires Tabled(pending, jobs) && |pending| <= max
    ensures Disjoint(max, Abstract(pending, jobs, failures))
    ensures forall id :: Abstract(pending, jobs, failures).Knows(id) <==> id in jobs
  {
  }

  class Scheduler {
    const maxPending: nat
    const options: Options
    var pending: set<LibraryId>
    var states: Jobs
    var failures: map<LibraryId, Failure>

    ghost function View(): Shared
      reads this
    {
      Abstract(pending, states, failures)
    }

    ghost predicate Valid()
      reads this
    {
      && options.initialRetry > 0 && options.maxFailures > 0
      && Tabled(pending, states)
      && Consistent(maxPending, View())
      && Recorded(options, failures)
    }

    constructor (maxPending: nat, o: Options)
      ensures Valid() && View() == Shared({}, {}, {}, {}, {}, map[])
      ensures this.maxPending == maxPending && options == Normalize(o)
    {
      this.maxPending := maxPending;
      options := Normalize(o);
      pending, states, failures := {}, map[], map[];
    }

    method Enqueue(id: LibraryId, dirty: bool, now: Time) returns (accepted: bool, added: bool)
      requires Valid()
      modifies this
      ensures Valid()
      ensures Enqueued(maxPending, options, old(View()), id, dirty, now, Admission(View(), accepted, added))
    {
      ghost var s := View();
      if id.n <= 0 {
        return false, false;
      }
      PruneFailures(now);
      ghost var kept := failures;
      accepted, added := AdmitPruned(id, dirty, now);
      ghost var a := Admission(View(), accepted, added);
      assert a == Admit(maxPending, s, kept, id, dirty, now);
      EnqueueKeeps(maxPending, options, s, id, dirty, now, a);
    }

    /** The rest of an enqueue call, once the failure table has been pruned. */
    method AdmitPruned(id: LibraryId, dirty: bool, now: Time) returns (accepted: bool, added: bool)
      requires Tabled(pending, states) && |pending| <= maxPending && Recorded(options, failures)
      modifies this
      ensures Tabled(pending, states) && Recorded(options, failures)
      ensures Admission(View(), accepted, added) == Admit(maxPending, old(View()), old(failures), id, dirty, now)
    {
      TabledIsDisjoint(maxPending, pending, states, failures);
      if dirty {
        failures := failures - {id};
      } else if id in failures && now < failures[id].nextRetry {
        return true, false;
      }
      if id in states {
        if dirty {
          MarkDirty(id);
        }
        return true, false;
      }
      if |pending| >= maxPending {
        return false, false;
      }
      AddPending(id, !dirty);
      return true, true;
    }

    method MarkDirty(id: LibraryId)
      requires Tabled(pending, states) && id in states
      modifies this`states
      ensures Tabled(pending, states)
      ensures var s := old(View());
              View() == s.(missing := s.missing - {id}, dirty := if id in s.running then s.dirty + {id} else s.dirty)
    {
      ghost var jobs := states;
      states := states[id := states[id].(missing := false)];
      if states[id].running {
        states := states[id := states[id].(dirty := true)];
      }
      EntrySet(jobs, id, states[id]);
      assert states == jobs[id := states[id]];
    }

    method AddPending(id: LibraryId, missing: bool)
      requires Tabled(pending, states) && id !in states
      modifies this`pending, this`states
      ensures Tabled(pending, states)
      ensures var s := old(View());
              View() == s.(pending := s.pending + {id}, missing := if missing then s.missing + {id} else s.missing)
    {
      EntrySet(states, id, Job(false, false, false, missing));
      states := states[id := Job(false, false, false, missing)];
      pending := pending + {id};
    }

    /** `found` is false exactly when nothing is pending; `more` asks the caller to signal. */
    method Take() returns (id: LibraryId, more: bool, found: bool)
      requires Valid()
      modifies this
      ensures Valid()
      ensures found == (old(pending) != {}) && more == (pending != {})
      ensures found ==> Taken(maxPending, old(View()), id, View())
      ensures !found ==> View() == old(View())
    {
      ghost var s := View();
      if next :| next in pending {
        id := next;
        Start(id);
        StartKeeps(maxPending, s, id);
        ghost var moved := PromoteDeferred();
        TakeKeeps(maxPending, s, id, View());
        return id, |pending| > 0, true;
      }
      assert pending == {};
      return LibraryId(0), false, false;
    }

    method Start(id: LibraryId)
      requires Tabled(pending, states) && |pending| <= maxPending && id in pending
      modifies this`pending, this`states
      ensures Tabled(pending, states) && |pending| <= maxPending
      ensures View() == Started(old(View()), id)
    {
      EntrySet(states, id, states[id].(running := true));
      pending := pending - {id};
      states := states[id := states[id].(running := true)];
    }

    /** The end of a run of an id that a worker took. */
    method Finish(id: LibraryId, failed: bool, cancelled: bool, now: Time) returns (more: bool)
      requires Valid() && (id in states ==> states[id].running)
      modifies this
      ensures Valid() && more == (pending != {})
      ensures Finished(maxPending, options, old(View()), id, failed, cancelled, now, View())
    {
      ghost var s := View();
      if id in states && states[id].missing && failed && !cancelled {
        RecordFailure(id, now);
      } else if !failed {
        failures := failures - {id};
      }
      ghost var settled := failures;
      Retire(id);
      ghost var s1 := View();
      ghost var moved := PromoteDeferred();
      TabledIsDisjoint(maxPending, pending, states, failures);
      FinishedBy(maxPending, options, s, id, failed, cancelled, now, settled, s1, moved);
      PromotedIsConsistent(maxPending, s1, moved);
      more := |pending| > 0;
    }

    method Retire(id: LibraryId)
      requires Tabled(pending, states) && |pending| <= maxPending && (id in states ==> states[id].running)
      modifies this`pending, this`states
      ensures Tabled(pending, states) && |pending| <= maxPending
      ensures View() == Retired(maxPending, old(View()), id, failures)
    {
      ghost var jobs := states;
      if id in states && states[id].dirty {
        states := states[id := states[id].(running := false, dirty := false, missing := false)];
        if |pending| < maxPending {
          pending := pending + {id};
          EntrySet(jobs, id, Job(false, false, false, false));
        } else {
          states := states[id := states[id].(deferred := true)];
          assert states == jobs[id := Job(false, false, true, false)];
          EntrySet(jobs, id, Job(false, false, true, false));
        }
      } else {
        EntryDeleted(states, id);
        states := states - {id};
      }
    }

    /** Counts one more failure of `id` and sets its next retry time by doubling. */
    method RecordFailure(id: LibraryId, now: Time)
      requires options.initialRetry > 0 && options.maxFailures > 0 && Recorded(options, failures)
      modifies this`failures
      ensures Recorded(options, failures)
      ensures AttemptsOf(old(failures), id) >= 0
      ensures Pruned(options, now, WithFailure(options, old(failures), id, now), failures)
    {
      var attempts := if id in failures then failures[id].attempts else 0;
      attempts := attempts + 1;
      var delay := BackoffDelay(options, attempts);
      ghost var before := failures;
      failures := failures[id := Failure(attempts, now + delay, now)];
      assert failures == WithFailure(options, before, id, now);
      PruneFailures(now);
    }

    /** Drops expired entries, then the least recently seen ones until the capacity is met. */
    method PruneFailures(now: Time)
      requires options.maxFailures > 0 && Recorded(options, failures)
      modifies this`failures
      ensures Recorded(options, failures)
      ensures Pruned(options, now, old(failures), failures)
    {
      ghost var before := failures;
      ghost var live := Live(options, now, before);
      var todo := failures.Keys;
      while exists id :: id in todo
        invariant todo <= failures.Keys <= before.Keys
        invariant forall id | id in failures :: failures[id] == before[id]
        invariant live.Keys <= failures.Keys
        invariant forall id | id in failures && id !in todo :: id in live
        decreases todo
      {
        var id :| id in todo;
        todo := todo - {id};
        if now > failures[id].nextRetry + options.maxRetry {
          failures := failures - {id};
        }
      }
      assert failures == live;
      while |failures| > options.maxFailures
        invariant failures.Keys <= live.Keys && (forall id | id in failures :: failures[id] == live[id])
        invariant |failures| >= Min(|live|, options.maxFailures)
        invariant Stamped(live) ==>
                    forall kept, dropped | kept in failures && dropped in live && dropped !in failures ::
                      live[dropped].timeSeen <= live[kept].timeSeen
        decreases |failures|
      {
        ghost var current := failures;
        var oldestId := LeastRecentlySeen();
        failures := failures - {oldestId};
        assert failures.Keys == current.Keys - {oldestId};
        assert |failures.Keys| == |current.Keys| - 1;
      }
    }

    /** The entry that pruning evicts: a least recently seen one, ties being broken by map order. */
    method LeastRecentlySeen() returns (oldestId: LibraryId)
      requires failures != map[]
      ensures oldestId in failures
      ensures Stamped(failures) ==> forall id | id in failures :: failures[oldestId].timeSeen <= failures[id].timeSeen
    {
      oldestId := LibraryId(0);
      var oldest: Time := 0;
      var todo := failures.Keys;
      while exists id :: id in todo
        invariant todo <= failures.Keys
        invariant todo != failures.Keys ==> oldestId in failures && oldest == failures[oldestId].timeSeen
        invariant todo == failures.Keys ==> oldest == 0
        invariant Stamped(failures) ==> forall id | id in failures && id !in todo :: oldest <= failures[id].timeSeen
        decreases todo
      {
        var id :| id in todo;
        todo := todo - {id};
        if oldest == 0 || failures[id].timeSeen < oldest {
          oldestId, oldest := id, failures[id].timeSeen;
        }
      }
    }

    /** Fills the pending set from the overflow while both allow it. */
    method PromoteDeferred() returns (ghost moved: set<LibraryId>)
      requires Tabled(pending, states) && |pending| <= maxPending
      modifies this`pending, this`states
      ensures Tabled(pending, states)
      ensures Promotable(maxPending, old(View()), moved) && View() == Promote(old(View()), moved)
    {
      ghost var s := View();
      moved := {};
      var promoted := true;
      while |pending| < maxPending && promoted
        invariant Tabled(pending, states) && |pending| <= maxPending
        invariant moved <= s.deferred && |pending| == |s.pending| + |moved| && View() == Promote(s, moved)
        invariant !promoted ==> moved == s.deferred
        decreases maxPending - |pending|, promoted
      {
        ghost var id;
        promoted, id := PromoteNext();
        if promoted {
          OneMore(s, moved, id);
          moved := moved + {id};
        } else {
          assert s.deferred == moved + (s.deferred - moved);
        }
      }
      BoundedSubset(moved, s.deferred);
    }

    /** One round of the promotion: moves some deferred id, if there is one. */
    method PromoteNext() returns (promoted: bool, ghost moved: LibraryId)
      requires Tabled(pending, states)
      modifies this`pending, this`states
      ensures Tabled(pending, states)
      ensures promoted == (old(View()).deferred != {})
      ensures promoted ==> moved in old(View()).deferred && moved !in old(pending) && pending == old(pending) + {moved}
      ensures promoted ==> var s := old(View()); View() == s.(pending := s.pending + {moved}, deferred := s.deferred - {moved})
      ensures !promoted ==> View() == old(View())
    {
      var id;
      promoted, id := FindDeferred();
      moved := id;
      if promoted {
        EntrySet(states, id, states[id].(deferred := false));
        states := states[id := states[id].(deferred := false)];
        pending := pending + {id};
      }
    }

    method FindDeferred() returns (found: bool, id: LibraryId)
      ensures found ==> id in DeferredIn(states)
      ensures !found ==> DeferredIn(states) == {}
    {
      id := LibraryId(0);
      var todo := states.Keys;
      while exists next :: next in todo
        invariant todo <= states.Keys
        invariant forall other | other in states && other !in todo :: !states[other].deferred
        decreases todo
      {
        id :| id in todo;
        todo := todo - {id};
        if states[id].deferred {
          return true, id;
        }
      }
      return false, id;
    }
  }

  lemma OneMore(s: Shared, moved: set<LibraryId>, id: LibraryId)
    ensures var s1 := Promote(s, moved);
            s1.(pending := s1.pending + {id}, deferred := s1.deferred - {id}) == Promote(s, moved + {id})
  {
  }

  lemma PromotedIsConsistent(max: nat, s: Shared, moved: set<LibraryId>)
    requires Promotable(max, s, moved) && Disjoint(max, Promote(s, moved)) && s.pending !! s.deferred
    ensures Consistent(max, Promote(s, moved))
  {
    assert |s.deferred - moved| == |s.deferred| - |moved| && |s.pending + moved| == |s.pending| + |moved|;
    if |moved| == |s.deferred| {
      assert |s.deferred - moved| == 0;
    }
  }

  lemma BoundedSubset(a: set<LibraryId>, b: set<LibraryId>)
    requires a <= b
    ensures |a| <= |b|
  {
    assert b == a + (b - a);
  }

  /** Repeated doubling up to the cap: the loop computes the closed form. */
  method BackoffDelay(o: Options, attempts: int) returns (delay: int)
    requires attempts >= 1 && o.initialRetry > 0
    ensures delay == Backoff(o, attempts)
  {
    delay := o.initialRetry;
    var i := 1;
    while i < attempts && delay < o.maxRetry
      invariant 1 <= i <= attempts
      invariant delay == if o.initialRetry >= o.maxRetry then o.initialRetry
                         else Min(o.initialRetry * Pow2(i - 1), o.maxRetry)
      invariant o.initialRetry >= o.maxRetry ==> i == 1
      decreases attempts - i
    {
      delay := delay * 2;
      if delay > o.maxRetry {
        delay := o.maxRetry;
      }
      i := i + 1;
    }
    BackoffSaturates(o, i, attempts);
  }

  lemma {:induction false} BackoffSaturates(o: Options, i: int, attempts: int)
    requires 1 <= i <= attempts && o.initialRetry > 0
    ensures Backoff(o, i) <= Backoff(o, attempts)
    ensures Backoff(o, i) >= o.maxRetry ==> Backoff(o, attempts) == Backoff(o, i)
    decreases attempts - i
  {
    if i < attempts {
      BackoffSaturates(o, i, attempts - 1);
      assert Pow2(attempts - 1) == 2 * Pow2(attempts - 2);
      assert o.initialRetry * Pow2(attempts - 1) == 2 * (o.initialRetry * Pow2(attempts - 2));
      PowPositive(attempts - 2);
      assert o.initialRetry * Pow2(attempts - 2) >= 0;
    }
  }

  lemma PowPositive(n: nat)
    ensures Pow2(n) >= 1
  {
  }
}
