/** The state that the library preview scheduler guards with its mutex, and what
    each locked section of it does to that state. Go's map iteration order is
    arbitrary, so the sections that pick an entry are relations. */
module PreviewState {

  datatype LibraryId = LibraryId(n: int)
  type Time = int

  datatype Failure = Failure(attempts: int, nextRetry: Time, timeSeen: Time)

  datatype Options = Options(initialRetry: int, maxRetry: int, maxFailures: int)

  /** The guarded state, read as sets: where each known id is, which running ids were marked dirty,
      which ids are known only from if-missing requests, and the failure table. */
  datatype Shared = Shared(
    pending: set<LibraryId>, running: set<LibraryId>, deferred: set<LibraryId>,
    dirty: set<LibraryId>, missing: set<LibraryId>, failures: map<LibraryId, Failure>)
  {
    ghost predicate Knows(id: LibraryId) {
      id in pending || id in running || id in deferred
    }

    /** A run of `id` that has not started yet is due. */
    ghost predicate Owes(id: LibraryId) {
      id in pending || id in deferred || id in dirty
    }
  }

  function Min(a: int, b: int): int {
    if a <= b then a else b
  }

  /** Every known id is in exactly one place, an id is dirty only while it runs, the pending
      set is bounded, and an id waits in the overflow only while the pending set is full. */
  ghost predicate Consistent(max: nat, s: Shared) {
    && s.pending !! s.running && s.pending !! s.deferred && s.running !! s.deferred
    && s.dirty <= s.running && (forall id | id in s.missing :: s.Knows(id))
    && |s.pending| <= max
    && (s.deferred != {} ==> |s.pending| == max)
  }

  // ---------- the overflow ----------

  /** `moved` is a possible outcome of filling the pending set from the overflow. */
  ghost predicate Promotable(max: nat, s: Shared, moved: set<LibraryId>) {
    moved <= s.deferred && |moved| == Min(|s.deferred|, max - |s.pending|)
  }

  ghost function Promote(s: Shared, moved: set<LibraryId>): Shared {
    s.(pending := s.pending + moved, deferred := s.deferred - moved)
  }

  // ---------- the failure table ----------

  ghost predicate Expired(o: Options, now: Time, f: Failure) {
    now > f.nextRetry + o.maxRetry
  }

  ghost function Live(o: Options, now: Time, failures: map<LibraryId, Failure>): map<LibraryId, Failure> {
    map id | id in failures && !Expired(o, now, failures[id]) :: failures[id]
  }

  /** No entry carries Go's zero time, which the eviction loop reads as "none chosen yet". */
  ghost predicate Stamped(failures: map<LibraryId, Failure>) {
    forall id | id in failures :: failures[id].timeSeen != 0
  }

  /** Expired entries are gone, and of the others exactly the capacity is kept,
      the least recently seen being dropped first. */
  ghost predicate Pruned(o: Options, now: Time, before: map<LibraryId, Failure>, after: map<LibraryId, Failure>) {
    var live := Live(o, now, before);
    && after.Keys <= live.Keys
    && (forall id | id in after :: after[id] == before[id])
    && |after| == Min(|live|, o.maxFailures)
    && (Stamped(live) ==>
          forall kept, dropped | kept in after && dropped in live && dropped !in after ::
            live[dropped].timeSeen <= live[kept].timeSeen)
  }

  function Pow2(n: nat): nat {
    if n == 0 then 1 else 2 * Pow2(n - 1)
  }

  /** The pause after the given number of failures in a row. */
  function Backoff(o: Options, attempts: int): int
    requires attempts >= 1
  {
    if o.initialRetry >= o.maxRetry then o.initialRetry else Min(o.initialRetry * Pow2(attempts - 1), o.maxRetry)
  }

  ghost function AttemptsOf(failures: map<LibraryId, Failure>, id: LibraryId): int {
    if id in failures then failures[id].attempts else 0
  }

  /** Attempts are counted from one and the retry time follows from them. */
  ghost predicate Recorded(o: Options, failures: map<LibraryId, Failure>) {
    forall id | id in failures ::
      failures[id].attempts >= 1 && failures[id].nextRetry == failures[id].timeSeen + Backoff(o, failures[id].attempts)
  }

  ghost function WithFailure(o: Options, failures: map<LibraryId, Failure>, id: LibraryId, now: Time): map<LibraryId, Failure>
    requires AttemptsOf(failures, id) >= 0
  {
    var attempts := AttemptsOf(failures, id) + 1;
    failures[id := Failure(attempts, now + Backoff(o, attempts), now)]
  }

  // ---------- the locked sections ----------

  datatype Admission = Admission(after: Shared, accepted: bool, added: bool)

  /** What an enqueue call does once its prune left `kept` in the failure table. */
  ghost function Admit(max: nat, s: Shared, kept: map<LibraryId, Failure>, id: LibraryId, dirty: bool, now: Time): Admission {
    var s1 := s.(failures := if dirty then kept - {id} else kept);
    if !dirty && id in kept && now < kept[id].nextRetry then Admission(s1, true, false)
    else if s.Knows(id) then
      Admission(if dirty then s1.(missing := s.missing - {id}, dirty := if id in s.running then s.dirty + {id} else s.dirty) else s1,
                true, false)
    else if |s.pending| >= max then Admission(s1, false, false)
    else Admission(s1.(pending := s.pending + {id}, missing := if dirty then s.missing else s.missing + {id}), true, true)
  }

  ghost predicate Enqueued(max: nat, o: Options, s: Shared, id: LibraryId, dirty: bool, now: Time, a: Admission) {
    if id.n <= 0 then a == Admission(s, false, false)
    else exists kept :: Pruned(o, now, s.failures, kept) && a == Admit(max, s, kept, id, dirty, now)
  }

  /** The chosen pending id becomes running, before the overflow is promoted. */
  ghost function Started(s: Shared, id: LibraryId): Shared {
    s.(pending := s.pending - {id}, running := s.running + {id})
  }

  ghost predicate Taken(max: nat, s: Shared, id: LibraryId, s': Shared) {
    id in s.pending && exists moved :: Promotable(max, Started(s, id), moved) && s' == Promote(Started(s, id), moved)
  }

  /** The failure table after a run of `id` ended. */
  ghost predicate FailuresSettled(o: Options, s: Shared, id: LibraryId, failed: bool, cancelled: bool, now: Time,
                                  failures: map<LibraryId, Failure>)
  {
    if id in s.missing && failed && !cancelled then
      AttemptsOf(s.failures, id) >= 0 && Pruned(o, now, WithFailure(o, s.failures, id, now), failures)
    else failures == if failed then s.failures else s.failures - {id}
  }

  /** A dirty job is queued again, pending if there is room and in the overflow otherwise;
      any other job is forgotten. */
  ghost function Retired(max: nat, s: Shared, id: LibraryId, failures: map<LibraryId, Failure>): Shared {
    var s1 := s.(running := s.running - {id}, dirty := s.dirty - {id}, missing := s.missing - {id}, failures := failures);
    if id !in s.dirty then s1
    else if |s.pending| < max then s1.(pending := s.pending + {id})
    else s1.(deferred := s.deferred + {id})
  }

  ghost predicate Finished(max: nat, o: Options, s: Shared, id: LibraryId, failed: bool, cancelled: bool, now: Time, s': Shared) {
    && FailuresSettled(o, s, id, failed, cancelled, now, s'.failures)
    && var s1 := Retired(max, s, id, s'.failures);
       exists moved :: Promotable(max, s1, moved) && s' == Promote(s1, moved)
  }

  // ---------- what the locked sections keep ----------

  /** An enqueue keeps the job table consistent and moves nothing: it can only add one pending id
      and mark a running one dirty. It is refused exactly when the id is not valid, or new with no
      room for it and no backoff entry that swallows it; an accepted dirty request is owed a run. */
  lemma EnqueueKeeps(max: nat, o: Options, s: Shared, id: LibraryId, dirty: bool, now: Time, a: Admission)
    requires Consistent(max, s) && Enqueued(max, o, s, id, dirty, now, a)
    ensures Consistent(max, a.after)
    ensures a.after.running == s.running && a.after.deferred == s.deferred
    ensures a.after.pending == if a.added then s.pending + {id} else s.pending
    ensures a.added ==> a.accepted && !s.Knows(id)
    ensures s.dirty <= a.after.dirty <= s.dirty + {id}
    ensures !a.accepted ==> id.n <= 0 || (!s.Knows(id) && |s.pending| == max && a.after == s.(failures := a.after.failures))
    ensures dirty && id.n > 0 && (s.Knows(id) || |s.pending| < max) ==> a.accepted
    ensures a.accepted && dirty ==> a.after.Owes(id) && id !in a.after.missing && id !in a.after.failures
  {
  }

  /** The id has an entry that lets no if-missing request through yet. */
  ghost predicate Resting(failures: map<LibraryId, Failure>, id: LibraryId, now: Time) {
    id in failures && now < failures[id].nextRetry
  }

  /** What becomes of a request, whole: a valid id is added exactly if it is new, there is room, and no failure entry makes an
      if-missing request rest; it is accepted exactly if it was added, known, or resting. Being added is the only way into
      the pending set, asking for a refresh of a running id the only way to mark it dirty, and only an if-missing request
      adds an id as missing. */
  lemma EnqueueExact(max: nat, o: Options, s: Shared, id: LibraryId, dirty: bool, now: Time, a: Admission)
    requires Consistent(max, s) && Enqueued(max, o, s, id, dirty, now, a)
    ensures id.n <= 0 ==> a.after == s && !a.accepted && !a.added
    ensures id.n > 0 ==>
      var rests := !dirty && Resting(a.after.failures, id, now);
      && (a.added <==> !rests && !s.Knows(id) && |s.pending| < max)
      && (a.accepted <==> a.added || rests || s.Knows(id))
      && (forall other :: other in a.after.pending <==> other in s.pending || (other == id && a.added))
      && a.after.running == s.running && a.after.deferred == s.deferred
      && (forall other :: other in a.after.dirty <==> other in s.dirty || (other == id && dirty && id in s.running))
      && (forall other :: other in a.after.missing <==> if other == id then !dirty && (a.added || id in s.missing) else other in s.missing)
      && exists kept :: Pruned(o, now, s.failures, kept) && a.after.failures == if dirty then kept - {id} else kept
  {
  }

  /** An unexpired, unevicted failure entry turns an if-missing enqueue into a no-op on the jobs. */
  lemma BackoffCreatesNoJob(max: nat, o: Options, s: Shared, id: LibraryId, now: Time, a: Admission)
    requires id.n > 0 && Enqueued(max, o, s, id, false, now, a)
    requires id in a.after.failures && now < a.after.failures[id].nextRetry
    ensures a.accepted && !a.added && a.after == s.(failures := a.after.failures)
  {
  }

  ghost predicate Disjoint(max: nat, s: Shared) {
    && s.pending !! s.running && s.pending !! s.deferred && s.running !! s.deferred
    && s.dirty <= s.running && (forall id | id in s.missing :: s.Knows(id)) && |s.pending| <= max
  }

  /** Moving ids out of the overflow neither loses nor adds any. */
  lemma PromoteSets(max: nat, s: Shared, moved: set<LibraryId>)
    requires Disjoint(max, s) && moved <= s.deferred
    ensures forall id :: Promote(s, moved).Knows(id) <==> s.Knows(id)
    ensures forall id :: Promote(s, moved).Owes(id) <==> s.Owes(id)
    ensures |s.deferred - moved| == |s.deferred| - |moved| && |s.pending + moved| == |s.pending| + |moved|
  {
  }

  lemma PromoteKeeps(max: nat, s: Shared, moved: set<LibraryId>)
    requires Disjoint(max, s) && Promotable(max, s, moved)
    ensures Consistent(max, Promote(s, moved))
  {
    PromoteSets(max, s, moved);
    if |moved| == |s.deferred| {
      assert |s.deferred - moved| == 0;
    }
  }

  lemma StartKeeps(max: nat, s: Shared, id: LibraryId)
    requires Consistent(max, s) && id in s.pending
    ensures Disjoint(max, Started(s, id)) && id !in s.running
    ensures |Started(s, id).pending| == |s.pending| - 1
  {
  }

  /** Taking a pending id makes it running and refills its place from the overflow. */
  lemma TakeKeeps(max: nat, s: Shared, id: LibraryId, s': Shared)
    requires Consistent(max, s) && Taken(max, s, id, s')
    ensures Consistent(max, s') && s'.failures == s.failures && s'.dirty == s.dirty && s'.missing == s.missing
    ensures id !in s.running && s'.running == s.running + {id}
    ensures forall other :: s'.Knows(other) <==> s.Knows(other)
    ensures forall other :: s.Owes(other) <==> other == id || s'.Owes(other)
    ensures |s'.pending| + |s'.deferred| == |s.pending| + |s.deferred| - 1
    ensures |s'.deferred| == if |s.deferred| == 0 then 0 else |s.deferred| - 1
  {
    var s1 := Started(s, id);
    var moved :| Promotable(max, s1, moved) && s' == Promote(s1, moved);
    StartKeeps(max, s, id);
    PromoteSets(max, s1, moved);
    PromoteKeeps(max, s1, moved);
  }

  lemma RetireKeeps(max: nat, s: Shared, id: LibraryId, failures: map<LibraryId, Failure>)
    requires Consistent(max, s) && id in s.running
    ensures Disjoint(max, Retired(max, s, id, failures))
    ensures Retired(max, s, id, failures).Knows(id) <==> id in s.dirty
    ensures forall other :: Retired(max, s, id, failures).Owes(other) <==> s.Owes(other)
  {
  }

  lemma FinishedBy(max: nat, o: Options, s: Shared, id: LibraryId, failed: bool, cancelled: bool, now: Time,
                   failures: map<LibraryId, Failure>, s1: Shared, moved: set<LibraryId>)
    requires FailuresSettled(o, s, id, failed, cancelled, now, failures)
    requires s1 == Retired(max, s.(failures := failures), id, failures) && Promotable(max, s1, moved)
    ensures Finished(max, o, s, id, failed, cancelled, now, Promote(s1, moved))
  {
    assert s1 == Retired(max, s, id, failures);
  }

  lemma RetireCounts(max: nat, s: Shared, id: LibraryId, failures: map<LibraryId, Failure>)
    requires Consistent(max, s) && id in s.running
    ensures var s1 := Retired(max, s, id, failures);
            && |s1.pending| + |s1.deferred| == |s.pending| + |s.deferred| + (if id in s.dirty then 1 else 0)
            && |s1.deferred| <= |s.deferred| + 1
  {
  }

  /** A finished id is forgotten, or waits again exactly when it was marked dirty while it ran. */
  lemma FinishKeeps(max: nat, o: Options, s: Shared, id: LibraryId, failed: bool, cancelled: bool, now: Time, s': Shared)
    requires Consistent(max, s) && id in s.running && Finished(max, o, s, id, failed, cancelled, now, s')
    ensures Consistent(max, s')
    ensures s'.running == s.running - {id} && s'.dirty == s.dirty - {id} && s'.missing == s.missing - {id}
    ensures forall other :: s'.Owes(other) <==> s.Owes(other)
    ensures s'.Knows(id) <==> id in s.dirty
    ensures |s'.pending| + |s'.deferred| == |s.pending| + |s.deferred| + (if id in s.dirty then 1 else 0)
    ensures |s'.deferred| <= |s.deferred| + 1
  {
    var s1 := Retired(max, s, id, s'.failures);
    var moved :| Promotable(max, s1, moved) && s' == Promote(s1, moved);
    RetireKeeps(max, s, id, s'.failures);
    RetireCounts(max, s, id, s'.failures);
    PromoteSets(max, s1, moved);
    PromoteKeeps(max, s1, moved);
  }

  /** What pruning keeps: entries as they were, none past its retry time by more than the longest pause, and at most as many as
      there is room for. An entry that is not past it goes only if all the room is taken, and, unless the time of one is unset, by
      entries seen no earlier. */
  lemma PrunedExact(o: Options, now: Time, before: map<LibraryId, Failure>, after: map<LibraryId, Failure>)
    requires Pruned(o, now, before, after) && o.maxFailures > 0
    ensures |after| <= o.maxFailures
    ensures forall id | id in after :: id in before && after[id] == before[id] && now <= before[id].nextRetry + o.maxRetry
    ensures forall id | id in before && now <= before[id].nextRetry + o.maxRetry && id !in after ::
      && |after| == o.maxFailures < |before|
      && ((forall other | other in before :: before[other].timeSeen != 0) ==>
            forall kept | kept in after :: before[id].timeSeen <= before[kept].timeSeen)
  {
    var live := Live(o, now, before);
    assert live.Keys <= before.Keys;
    Smaller(live.Keys, before.Keys);
    assert |live| == |live.Keys| && |before| == |before.Keys| && |after| == |after.Keys|;
    if |live| <= o.maxFailures {
      assert |live.Keys - after.Keys| == 0;
    }
    forall id | id in before && now <= before[id].nextRetry + o.maxRetry && id !in after
      ensures |after| == o.maxFailures < |before|
    {
      assert id in live;
    }
  }

  lemma Smaller(a: set<LibraryId>, b: set<LibraryId>)
    requires a <= b
    ensures |a| <= |b|
  {
    assert b == a + (b - a);
  }

  // ---------- how failure entries change ----------

  lemma EnqueuedEntries(max: nat, o: Options, s: Shared, id: LibraryId, dirty: bool, now: Time, a: Admission, other: LibraryId)
    requires Enqueued(max, o, s, id, dirty, now, a) && other in a.after.failures
    ensures other in s.failures && a.after.failures[other] == s.failures[other]
    ensures !(other == id && dirty && id.n > 0)
  {
  }

  lemma SettledEntries(o: Options, s: Shared, id: LibraryId, failed: bool, cancelled: bool, now: Time,
                       failures: map<LibraryId, Failure>, other: LibraryId)
    requires FailuresSettled(o, s, id, failed, cancelled, now, failures) && other in failures
    ensures var counts := other == id && id in s.missing && failed && !cancelled;
            && failures[other].attempts == AttemptsOf(s.failures, other) + (if counts then 1 else 0)
            && (other in s.failures || counts)
            && (other == id ==> failed)
  {
  }

  lemma {:induction false} BackoffPositive(o: Options, attempts: int)
    requires attempts >= 1 && o.initialRetry > 0 && o.maxRetry >= 0
    ensures Backoff(o, attempts) >= 0
  {
    PowerPositive(attempts - 1);
    assert o.initialRetry * Pow2(attempts - 1) >= 0;
  }

  lemma PowerPositive(n: nat)
    ensures Pow2(n) >= 1
  {
  }

  lemma FailureStays(o: Options, was: map<LibraryId, Failure>, id: LibraryId, now: Time, after: map<LibraryId, Failure>)
    requires AttemptsOf(was, id) >= 0 && Pruned(o, now, WithFailure(o, was, id, now), after)
    requires o.initialRetry > 0 && o.maxRetry >= 0 && o.maxFailures > 0 && |was.Keys - {id}| < o.maxFailures
    ensures var attempts := AttemptsOf(was, id) + 1;
      id in after && after[id] == Failure(attempts, now + Backoff(o, attempts), now)
  {
    FitsWith(was, id, WithFailure(o, was, id, now)[id], o.maxFailures);
    BackoffPositive(o, AttemptsOf(was, id) + 1);
    PrunedExact(o, now, WithFailure(o, was, id, now), after);
  }

  lemma FitsWith(was: map<LibraryId, Failure>, id: LibraryId, f: Failure, max: int)
    requires |was.Keys - {id}| < max
    ensures |was[id := f]| <= max
  {
    var with := was[id := f];
    assert with.Keys == (was.Keys - {id}) + {id};
    assert |with| == |with.Keys|;
  }

  /** The pauses: the first retry's to begin with, then each twice the one before, but no more than the longest. */
  lemma BackoffDoubles(o: Options, attempts: int)
    requires attempts >= 1 && o.initialRetry > 0 && o.maxRetry >= o.initialRetry
    ensures Backoff(o, 1) == o.initialRetry
    ensures Backoff(o, attempts + 1) == if 2 * Backoff(o, attempts) <= o.maxRetry then 2 * Backoff(o, attempts) else o.maxRetry
  {
    PowerPositive(attempts - 1);
    assert Pow2(attempts) == 2 * Pow2(attempts - 1);
    assert o.initialRetry * Pow2(attempts) == 2 * (o.initialRetry * Pow2(attempts - 1));
    assert o.initialRetry * Pow2(attempts - 1) >= o.initialRetry;
  }

  /** What the end of a run makes of the failure table: a success forgets the id's failures; a failed run that counts adds one
      attempt and sets the retry time from their number, and the entry is there if the others leave room for it; any other
      failed run changes nothing. */
  lemma SettledExact(o: Options, s: Shared, id: LibraryId, failed: bool, cancelled: bool, now: Time, failures: map<LibraryId, Failure>)
    requires FailuresSettled(o, s, id, failed, cancelled, now, failures)
    requires o.initialRetry > 0 && o.maxRetry >= 0 && o.maxFailures > 0
    ensures !failed ==> failures == s.failures - {id}
    ensures failed && (cancelled || id !in s.missing) ==> failures == s.failures
    ensures failed && !cancelled && id in s.missing && |s.failures.Keys - {id}| < o.maxFailures ==>
      var attempts := AttemptsOf(s.failures, id) + 1;
      id in failures && attempts >= 1 && failures[id] == Failure(attempts, now + Backoff(o, attempts), now)
  {
    if failed && !cancelled && id in s.missing && |s.failures.Keys - {id}| < o.maxFailures {
      FailureStays(o, s.failures, id, now, failures);
    }
  }

  // ---------- what is left to do ----------

  /** Takes and finishes still to come if nobody enqueues: a waiting id needs both,
      and a running id marked dirty needs both again. */
  ghost function Work(s: Shared): nat {
    2 * (|s.pending| + |s.deferred|) + |s.running| + 2 * |s.dirty|
  }

  lemma TakeWorks(max: nat, s: Shared, id: LibraryId, s': Shared)
    requires Consistent(max, s) && Taken(max, s, id, s')
    ensures Work(s') == Work(s) - 1
  {
  }

  lemma FinishWorks(max: nat, o: Options, s: Shared, id: LibraryId, failed: bool, cancelled: bool, now: Time, s': Shared)
    requires Consistent(max, s) && id in s.running && Finished(max, o, s, id, failed, cancelled, now, s')
    ensures Work(s') == Work(s) - 1
  {
    FinishKeeps(max, o, s, id, failed, cancelled, now, s');
    assert |s.running - {id}| == |s.running| - 1;
    assert |s.dirty - {id}| == |s.dirty| - (if id in s.dirty then 1 else 0);
  }
}
