/** A commit row is keyed by task, attempt and retry round, and queueing a task again by hand keeps its round: when a
    task can become done, and when it never can. */
module ScrapeAgain {
  import opened Basics
  import opened ScrapeQueue
  import opened ScrapeInvariants
  import opened ScrapeRuns
  import opened ScrapeLedger
  import opened ScrapeReconcile
  import ScrapeMerge
  import CreditManifest

  // ---------- completing a task again ----------

  /** A standalone task that is done after its first attempt and is queued again by hand: it can be claimed, and every
      completion by that claim is refused. */
  lemma RequeuedIsRefused(k: Codec, x: Request, ok: bool)
    ensures var t := Task(Key(2), None, Done, None, None, 0, 0, None, 100, "ok", Some(5));
            var q := Queue(map[Key(1) := t], map[], map[], map[]);
            var g := Ledger(map[CommitKey(Key(1), 1, 0) := Commit(0, "", "{}", "0")], map[], map[], map[],
                            [Entry(Key(1), Key(2), true, "ok", "0")]);
            var shelf := Shelf(map[Key(2) := ""], map[Key(2) := None], map[]);
            var again := Reset(q, Key(1), false, 9);
            var c := ClaimOf(again, Key(1), 1);
            && Resettable(q, Key(1)) && Claimable(again, Key(1), false, 9) && Owns(Claimed(again, Key(1), 1, 9), c)
            && CompleteTx(k, Db(Claimed(again, Key(1), 1, 9), shelf, g), c, x, ok, 10).None?
  {
  }

  predicate Free(g: Ledger, task: Key, attempt: int, round: nat) {
    CommitKey(task, attempt, round) !in g.commits
  }

  predicate InRound(q: Queue, task: Key, round: nat) {
    task in q.tasks && q.tasks[task].round == round
  }

  /** The round has no commit key left from an attempt on. */
  predicate UsedUp(g: Ledger, task: Key, round: nat, from: int) {
    forall attempt | from <= attempt <= MAX_FAILURES :: CommitKey(task, attempt, round) in g.commits
  }

  /** The number of the attempt that the task is at, or will be at next. */
  function NextAttempt(t: Task): int {
    if t.status == Running then t.fails else t.fails + 1
  }

  lemma FreeExact(g: Ledger, task: Key, round: nat, from: int)
    ensures UsedUp(g, task, round, from) <==> forall attempt | from <= attempt <= MAX_FAILURES :: !Free(g, task, attempt, round)
  {
    forall attempt | from <= attempt <= MAX_FAILURES ensures CommitKey(task, attempt, round) in g.commits <==> !Free(g, task, attempt, round) {
    }
    if forall attempt | from <= attempt <= MAX_FAILURES :: !Free(g, task, attempt, round) {
      forall attempt | from <= attempt <= MAX_FAILURES ensures CommitKey(task, attempt, round) in g.commits {
        assert !Free(g, task, attempt, round);
      }
    }
  }

  predicate NewRound(a: Act, task: Key) {
    a.Plain? && (a.ev == Requeue(task, true) || a.ev == Reopen(task))
  }

  lemma RoundStays(w: World, ev: Event, task: Key)
    requires task in w.queue.tasks && ev != Requeue(task, true) && ev != Reopen(task)
    ensures task in Next(w, ev).queue.tasks && Next(w, ev).queue.tasks[task].round == w.queue.tasks[task].round
  {
    if OfWorkers(ev) {
      WorkersKeepRound(w, ev, task);
    } else if OfUpkeep(ev) {
      UpkeepKeepsRound(w, ev, task);
    } else {
      OthersKeepRound(w, ev, task);
    }
  }

  lemma WorkersKeepRound(w: World, ev: Event, task: Key)
    requires task in w.queue.tasks && OfWorkers(ev)
    ensures task in Next(w, ev).queue.tasks && Next(w, ev).queue.tasks[task].round == w.queue.tasks[task].round
  {
  }

  lemma UpkeepKeepsRound(w: World, ev: Event, task: Key)
    requires task in w.queue.tasks && OfUpkeep(ev)
    ensures task in Next(w, ev).queue.tasks && Next(w, ev).queue.tasks[task].round == w.queue.tasks[task].round
  {
    if ev.Aggregate? && Enabled(w, ev) {
      AggregatedTask(w.queue, ev.run, ev.others, ev.preserve, ev.reason, w.now, task);
    }
  }

  lemma OthersKeepRound(w: World, ev: Event, task: Key)
    requires task in w.queue.tasks && !OfWorkers(ev) && !OfUpkeep(ev) && ev != Requeue(task, true) && ev != Reopen(task)
    ensures task in Next(w, ev).queue.tasks && Next(w, ev).queue.tasks[task].round == w.queue.tasks[task].round
  {
  }

  lemma DoneOnlyByCompletion(w: World, ev: Event, task: Key)
    requires task in w.queue.tasks && w.queue.tasks[task].status != Done
    ensures task in Next(w, ev).queue.tasks && Next(w, ev).queue.tasks[task].status == Done ==>
      ev.Complete? && ev.ok && OwnedBy(w, ev.owner) && w.issued[ev.owner].task == task
  {
  }

  // ---------- when it never becomes done ----------

  lemma WorkersGrow(w: World, ev: Event, task: Key)
    requires WorldOk(w) && task in w.queue.tasks && OfWorkers(ev) && !ev.Reap?
    ensures task in Next(w, ev).queue.tasks
    ensures Next(w, ev).queue.tasks[task].status != Done ==>
      NextAttempt(Next(w, ev).queue.tasks[task]) >= NextAttempt(w.queue.tasks[task])
  {
  }

  lemma ReaperGrows(q: Queue, m: Moments, task: Key)
    requires task in q.tasks
    ensures task in Reaped(q, m).tasks && NextAttempt(Reaped(q, m).tasks[task]) >= NextAttempt(q.tasks[task])
  {
  }

  lemma UpkeepGrows(w: World, ev: Event, task: Key)
    requires WorldOk(w) && task in w.queue.tasks && OfUpkeep(ev)
    ensures task in Next(w, ev).queue.tasks && NextAttempt(Next(w, ev).queue.tasks[task]) >= NextAttempt(w.queue.tasks[task])
  {
    if ev.Aggregate? && Enabled(w, ev) {
      AggregatedTask(w.queue, ev.run, ev.others, ev.preserve, ev.reason, w.now, task);
    }
  }

  lemma OthersGrow(w: World, ev: Event, task: Key)
    requires WorldOk(w) && task in w.queue.tasks && !OfWorkers(ev) && !OfUpkeep(ev)
    requires !(ev.Requeue? && ev.task == task) && ev != Reopen(task)
    ensures task in Next(w, ev).queue.tasks && NextAttempt(Next(w, ev).queue.tasks[task]) >= NextAttempt(w.queue.tasks[task])
  {
  }

  /** Queued again by hand the attempts start over; nothing else takes one back within a round. */
  lemma AttemptsGrow(w: World, ev: Event, task: Key)
    requires WorldOk(w) && task in w.queue.tasks && !(ev.Requeue? && ev.task == task) && ev != Reopen(task)
    ensures task in Next(w, ev).queue.tasks
    ensures Next(w, ev).queue.tasks[task].status != Done ==>
      NextAttempt(Next(w, ev).queue.tasks[task]) >= NextAttempt(w.queue.tasks[task])
  {
    if ev.Reap? {
      ReaperGrows(w.queue, MomentsOf(w.now, ev), task);
    } else if OfWorkers(ev) {
      WorkersGrow(w, ev, task);
    } else if OfUpkeep(ev) {
      UpkeepGrows(w, ev, task);
    } else {
      OthersGrow(w, ev, task);
    }
  }

  /** The task is not done, and its round has no key left for any attempt to come. */
  ghost predicate Barred(s: Site, task: Key, round: nat, from: int) {
    && InRound(s.db.queue, task, round) && s.db.queue.tasks[task].status != Done
    && from <= NextAttempt(s.db.queue.tasks[task]) && UsedUp(s.db.ledger, task, round, from)
  }

  predicate Again(a: Act, task: Key) {
    a.Plain? && a.ev.Requeue? && a.ev.task == task
  }

  lemma BarredRefuses(k: Codec, s: Site, a: Act, task: Key, round: nat, from: int)
    requires SiteOk(s) && Barred(s, task, round, from)
    ensures !(a.Completion? && EndsIn(k, s, a) && s.issued[a.owner].task == task)
  {
  }

  lemma BarredStays(k: Codec, s: Site, a: Act, task: Key, round: nat, from: int)
    requires SiteOk(s) && Barred(s, task, round, from) && !NewRound(a, task) && (Again(a, task) ==> from <= 1)
    ensures Barred(Advance(k, s, a), task, round, from)
  {
    BooksMove(k, s, a);
    BarredRefuses(k, s, a, task, round, from);
    RoundStays(WorldOf(s), EventOf(k, s, a), task);
    DoneOnlyByCompletion(WorldOf(s), EventOf(k, s, a), task);
    if Again(a, task) {
      AttemptsCounted(k, s, a, task);
    } else {
      AttemptsGrow(WorldOf(s), EventOf(k, s, a), task);
    }
  }

  lemma AttemptsCounted(k: Codec, s: Site, a: Act, task: Key)
    requires SiteOk(s) && task in Advance(k, s, a).db.queue.tasks
    ensures NextAttempt(Advance(k, s, a).db.queue.tasks[task]) >= 1
  {
    AdvanceOk(k, s, a);
    var s' := Advance(k, s, a);
    var t := s'.db.queue.tasks[task];
    assert TaskOk(task, t, s'.issued);
    if t.status == Running {
      assert ClaimOk(s'.db.queue, t.owner.value, s'.issued[t.owner.value]);
    }
  }

  lemma {:induction false} BarredForever(k: Codec, s: Site, acts: seq<Act>, task: Key, round: nat, from: int)
    requires SiteOk(s) && Barred(s, task, round, from)
    requires forall a | a in acts :: !NewRound(a, task) && (Again(a, task) ==> from <= 1)
    ensures Barred(AdvanceAll(k, s, acts), task, round, from)
    decreases |acts|
  {
    if acts != [] {
      assert acts[0] in acts && forall b | b in acts[1..] :: b in acts;
      AdvanceOk(k, s, acts[0]);
      BarredStays(k, s, acts[0], task, round, from);
      BarredForever(k, Advance(k, s, acts[0]), acts[1..], task, round, from);
    }
  }

  // ---------- when it does ----------

  /** A standalone task that waits. */
  predicate Idle(s: Site, task: Key) {
    task in s.db.queue.tasks && s.db.queue.tasks[task].status == Waiting && s.db.queue.tasks[task].link.None?
  }

  /** Whoever claims the task in this round, the result can be merged and the manifest of its attempt is not too long. */
  ghost predicate Workable(k: Codec, s: Shelf, task: Key, t: Task, x: Request) {
    && x.images == 0
    && forall owner: nat, attempt: int | 1 <= attempt <= MAX_FAILURES ::
         var c := Claim(task, t.media, None, owner, attempt, t.round);
         ShelfAfter(k, s, c, x).Some? && |ManifestOf(k, s, c, x)| <= MANIFEST_LIMIT
  }

  function Delay(t: Task, now: int): nat {
    if t.available.Some? && t.available.value > now then t.available.value - now else 0
  }

  predicate Untouched(acts: seq<Act>, task: Key) {
    forall a | a in acts :: !Again(a, task) && !NewRound(a, task)
  }

  predicate SameRound(acts: seq<Act>, task: Key) {
    forall a | a in acts :: !NewRound(a, task)
  }

  ghost predicate DoneIn(s: Site, task: Key, round: nat) {
    InRound(s.db.queue, task, round) && s.db.queue.tasks[task].status == Done
  }

  lemma {:induction false} AdvanceJoins(k: Codec, s: Site, a: seq<Act>, b: seq<Act>)
    ensures AdvanceAll(k, s, a + b) == AdvanceAll(k, AdvanceAll(k, s, a), b)
    decreases |a|
  {
    if a == [] {
      assert a + b == b;
    } else {
      assert (a + b)[1..] == a[1..] + b;
      AdvanceJoins(k, Advance(k, s, a[0]), a[1..], b);
    }
  }

  lemma AdvanceOne(k: Codec, s: Site, a: Act)
    ensures AdvanceAll(k, s, [a]) == Advance(k, s, a)
  {
  }

  /** The claim that a worker takes of the task, the next one to be handed out. */
  function NextClaim(s: Site, task: Key): Claim
    requires task in s.db.queue.tasks
  {
    var t := s.db.queue.tasks[task];
    Claim(task, t.media, None, |s.issued|, t.fails + 1, t.round)
  }

  /** A worker waits until the task is due, and takes it. */
  lemma Begin(k: Codec, s: Site, task: Key) returns (acts: seq<Act>, s': Site)
    requires SiteOk(s) && Idle(s, task)
    ensures s' == AdvanceAll(k, s, acts) && Untouched(acts, task) && SiteOk(s')
    ensures s'.db.shelf == s.db.shelf && s'.db.ledger == s.db.ledger
    ensures Issued(s'.issued, NextClaim(s, task)) && Owns(s'.db.queue, NextClaim(s, task))
  {
    var wait, take := Plain(Tick(Delay(s.db.queue.tasks[task], s.now))), Plain(Take(task, false));
    var s1 := Advance(k, s, wait);
    AdvanceOk(k, s, wait);
    AdvanceOk(k, s1, take);
    assert TaskOk(task, s.db.queue.tasks[task], s.issued);
    assert Claimable(s.db.queue, task, false, s1.now);
    acts, s' := [wait] + [take], Advance(k, s1, take);
    AdvanceOne(k, s, wait);
    AdvanceOne(k, s1, take);
    AdvanceJoins(k, s, [wait], [take]);
  }

  lemma Then(k: Codec, s: Site, acts: seq<Act>, a: Act, task: Key)
    requires Untouched(acts, task) && !Again(a, task) && !NewRound(a, task)
    ensures AdvanceAll(k, s, acts + [a]) == Advance(k, AdvanceAll(k, s, acts), a) && Untouched(acts + [a], task)
  {
    AdvanceJoins(k, s, acts, [a]);
    AdvanceOne(k, AdvanceAll(k, s, acts), a);
  }

  lemma FailedAttempt(k: Codec, s: Site, c: Claim)
    requires SiteOk(s) && Issued(s.issued, c) && Owns(s.db.queue, c) && c.link.None?
    ensures var s' := Advance(k, s, Failure(c.owner, "", true));
      && SiteOk(s') && s'.db.shelf == s.db.shelf && s'.db.ledger.commits == s.db.ledger.commits && InRound(s'.db.queue, c.task, c.round)
      && var t := s'.db.queue.tasks[c.task];
         && t.link.None? && t.media == c.media && t.fails == c.attempts
         && t.status == (if c.attempts < MAX_FAILURES then Waiting else Failed)
  {
    AdvanceOk(k, s, Failure(c.owner, "", true));
  }

  /** An attempt fails: the task waits for the next one or, after the third, has failed. */
  lemma Fails(k: Codec, s: Site, task: Key) returns (acts: seq<Act>, s': Site)
    requires SiteOk(s) && Idle(s, task)
    ensures s' == AdvanceAll(k, s, acts) && Untouched(acts, task) && SiteOk(s')
    ensures s'.db.shelf == s.db.shelf && s'.db.ledger.commits == s.db.ledger.commits && task in s'.db.queue.tasks
    ensures var t, t' := s.db.queue.tasks[task], s'.db.queue.tasks[task];
      && t'.link.None? && t'.media == t.media && t'.round == t.round && t'.fails == t.fails + 1
      && t'.status == (if t.fails + 1 < MAX_FAILURES then Waiting else Failed)
  {
    acts, s' := Begin(k, s, task);
    var c := NextClaim(s, task);
    FailedAttempt(k, s', c);
    Then(k, s, acts, Failure(c.owner, "", true), task);
    acts, s' := acts + [Failure(c.owner, "", true)], Advance(k, s', Failure(c.owner, "", true));
  }

  lemma CompletedAttempt(k: Codec, s: Site, c: Claim, x: Request)
    requires SiteOk(s) && Issued(s.issued, c) && CompleteTx(k, s.db, c, x, true, s.now).Some? && c.link.None?
    ensures var s' := Advance(k, s, Completion(c.owner, x, true));
      && SiteOk(s') && DoneIn(s', c.task, c.round) && s'.db.queue.tasks[c.task].media == c.media && s'.db.queue.tasks[c.task].link.None?
      && (forall key | key != KeyOf(c) && key !in s.db.ledger.commits :: key !in s'.db.ledger.commits)
  {
    AdvanceOk(k, s, Completion(c.owner, x, true));
    BooksMove(k, s, Completion(c.owner, x, true));
  }

  /** A worker takes the task, and its completion goes through. */
  lemma Accepts(k: Codec, s: Site, task: Key, x: Request) returns (acts: seq<Act>, s': Site)
    requires SiteOk(s) && Idle(s, task) && Workable(k, s.db.shelf, task, s.db.queue.tasks[task], x)
    requires KeyOf(NextClaim(s, task)) !in s.db.ledger.commits
    ensures s' == AdvanceAll(k, s, acts) && Untouched(acts, task) && SiteOk(s') && s'.db.shelf == s.db.shelf && s'.db.ledger == s.db.ledger
    ensures Issued(s'.issued, NextClaim(s, task)) && CompleteTx(k, s'.db, NextClaim(s, task), x, true, s'.now).Some?
  {
    acts, s' := Begin(k, s, task);
    Accepted(k, s', NextClaim(s, task), x);
  }

  lemma Accepted(k: Codec, s: Site, c: Claim, x: Request)
    requires Owns(s.db.queue, c) && KeyOf(c) !in s.db.ledger.commits && x.images == 0
    requires ShelfAfter(k, s.db.shelf, c, x).Some? && |ManifestOf(k, s.db.shelf, c, x)| <= MANIFEST_LIMIT
    ensures CompleteTx(k, s.db, c, x, true, s.now).Some?
  {
  }

  /** Failing until the attempt whose key is free, and completing then. */
  lemma {:induction false} Reaches(k: Codec, s: Site, task: Key, x: Request, attempt: int) returns (acts: seq<Act>)
    requires SiteOk(s) && Idle(s, task) && Workable(k, s.db.shelf, task, s.db.queue.tasks[task], x)
    requires s.db.queue.tasks[task].fails < attempt <= MAX_FAILURES
    requires Free(s.db.ledger, task, attempt, s.db.queue.tasks[task].round)
    ensures Untouched(acts, task) && DoneIn(AdvanceAll(k, s, acts), task, s.db.queue.tasks[task].round)
    decreases attempt - s.db.queue.tasks[task].fails
  {
    if attempt == s.db.queue.tasks[task].fails + 1 {
      acts := ReachesNow(k, s, task, x);
    } else {
      var s';
      acts, s' := Fails(k, s, task);
      assert Workable(k, s'.db.shelf, task, s'.db.queue.tasks[task], x);
      var rest := Reaches(k, s', task, x, attempt);
      AdvanceJoins(k, s, acts, rest);
      acts := acts + rest;
    }
  }

  lemma ReachesNow(k: Codec, s: Site, task: Key, x: Request) returns (acts: seq<Act>)
    requires SiteOk(s) && Idle(s, task) && Workable(k, s.db.shelf, task, s.db.queue.tasks[task], x)
    requires KeyOf(NextClaim(s, task)) !in s.db.ledger.commits
    ensures Untouched(acts, task) && DoneIn(AdvanceAll(k, s, acts), task, s.db.queue.tasks[task].round)
  {
    var s';
    acts, s' := Accepts(k, s, task, x);
    var c := NextClaim(s, task);
    CompletedAttempt(k, s', c, x);
    Then(k, s, acts, Completion(c.owner, x, true), task);
    acts := acts + [Completion(c.owner, x, true)];
  }

  /** A standalone task that waits in its round can become done without being queued again exactly if one of the attempts
      that it has left finds its commit key free. The request is one whose result can be merged and committed. */
  lemma CompletableExact(k: Codec, s: Site, task: Key, x: Request)
    requires SiteOk(s) && Idle(s, task) && Workable(k, s.db.shelf, task, s.db.queue.tasks[task], x)
    ensures var t := s.db.queue.tasks[task];
      (exists acts :: Untouched(acts, task) && DoneIn(AdvanceAll(k, s, acts), task, t.round)) <==>
      (exists attempt | t.fails < attempt <= MAX_FAILURES :: Free(s.db.ledger, task, attempt, t.round))
  {
    var t := s.db.queue.tasks[task];
    FreeExact(s.db.ledger, task, t.round, t.fails + 1);
    if attempt :| t.fails < attempt <= MAX_FAILURES && Free(s.db.ledger, task, attempt, t.round) {
      var acts := Reaches(k, s, task, x, attempt);
    } else {
      forall acts | Untouched(acts, task) ensures !DoneIn(AdvanceAll(k, s, acts), task, t.round) {
        BarredForever(k, s, acts, task, t.round, t.fails + 1);
      }
    }
  }

  /** Failing until there is no attempt left. */
  lemma {:induction false} GivesUp(k: Codec, s: Site, task: Key) returns (acts: seq<Act>, s': Site)
    requires SiteOk(s) && Idle(s, task)
    ensures s' == AdvanceAll(k, s, acts) && Untouched(acts, task) && SiteOk(s')
    ensures s'.db.shelf == s.db.shelf && s'.db.ledger.commits == s.db.ledger.commits && Resettable(s'.db.queue, task)
    ensures InRound(s'.db.queue, task, s.db.queue.tasks[task].round) && s'.db.queue.tasks[task].media == s.db.queue.tasks[task].media
    decreases MAX_FAILURES - s.db.queue.tasks[task].fails
  {
    assert TaskOk(task, s.db.queue.tasks[task], s.issued);
    acts, s' := Fails(k, s, task);
    if s'.db.queue.tasks[task].status == Waiting {
      var rest, s'' := GivesUp(k, s', task);
      AdvanceJoins(k, s, acts, rest);
      acts, s' := acts + rest, s'';
    }
  }

  lemma Resets(k: Codec, s: Site, task: Key, newRound: bool) returns (s': Site)
    requires SiteOk(s) && Resettable(s.db.queue, task)
    ensures s' == Advance(k, s, Plain(Requeue(task, newRound))) && SiteOk(s') && Idle(s', task)
    ensures s'.db.shelf == s.db.shelf && s'.db.ledger == s.db.ledger
    ensures var t, t' := s.db.queue.tasks[task], s'.db.queue.tasks[task];
      t'.fails == 0 && t'.media == t.media && t'.round == if newRound then t.round + 1 else t.round
  {
    s' := Advance(k, s, Plain(Requeue(task, newRound)));
    AdvanceOk(k, s, Plain(Requeue(task, newRound)));
  }

  /** Failing, being queued again, and going on from there. */
  lemma ReachesAgain(k: Codec, s: Site, task: Key, x: Request, attempt: int) returns (acts: seq<Act>)
    requires SiteOk(s) && Idle(s, task) && Workable(k, s.db.shelf, task, s.db.queue.tasks[task], x)
    requires 1 <= attempt <= MAX_FAILURES && Free(s.db.ledger, task, attempt, s.db.queue.tasks[task].round)
    ensures SameRound(acts, task) && DoneIn(AdvanceAll(k, s, acts), task, s.db.queue.tasks[task].round)
  {
    var before, spent := GivesUp(k, s, task);
    var waiting := Resets(k, spent, task, false);
    assert Workable(k, waiting.db.shelf, task, waiting.db.queue.tasks[task], x);
    var after := Reaches(k, waiting, task, x, attempt);
    AdvanceJoins(k, s, before, [Plain(Requeue(task, false))]);
    AdvanceOne(k, spent, Plain(Requeue(task, false)));
    AdvanceJoins(k, s, before + [Plain(Requeue(task, false))], after);
    acts := before + [Plain(Requeue(task, false))] + after;
  }

  /** Queued again by hand as often as one likes, the task can become done in its round exactly if the round has a commit
      key left. Once all three are used, only a new round helps. */
  lemma CompletableAgainExact(k: Codec, s: Site, task: Key, x: Request)
    requires SiteOk(s) && Idle(s, task) && Workable(k, s.db.shelf, task, s.db.queue.tasks[task], x)
    ensures var t := s.db.queue.tasks[task];
      (exists acts :: SameRound(acts, task) && DoneIn(AdvanceAll(k, s, acts), task, t.round)) <==>
      !UsedUp(s.db.ledger, task, t.round, 1)
  {
    var t := s.db.queue.tasks[task];
    assert TaskOk(task, t, s.issued);
    FreeExact(s.db.ledger, task, t.round, 1);
    if UsedUp(s.db.ledger, task, t.round, 1) {
      forall acts | SameRound(acts, task) ensures !DoneIn(AdvanceAll(k, s, acts), task, t.round) {
        BarredForever(k, s, acts, task, t.round, 1);
      }
    } else {
      var attempt :| 1 <= attempt <= MAX_FAILURES && Free(s.db.ledger, task, attempt, t.round);
      var acts := ReachesAgain(k, s, task, x, attempt);
    }
  }

  // ---------- a new round, and its twin ----------

  /** Merged again into the document that it was merged into, the result is committed in the same form. */
  predicate Steady(k: Codec, d: string, r: string) {
    k.merge(d, r).Some? &&
    var (next, committed) := k.merge(d, r).value;
    k.merge(next, r).Some? && k.merge(next, r).value.1 == committed
  }

  /** For the merge of the source this depends on the images alone. */
  lemma SteadyExact(k: Codec, j: ScrapeMerge.Json, d: string, r: string)
    requires ScrapeMerge.Follows(k.merge, j)
    ensures Steady(k, d, r) <==> ScrapeMerge.Repeats(j.readDocument(d), j.readResult(r))
  {
    var doc, res := j.readDocument(d), j.readResult(r);
    var next := ScrapeMerge.Merged(doc, res);
    assert j.readDocument(k.merge(d, r).value.0) == next;
    assert j.readResult(k.merge(d, r).value.1) == ScrapeMerge.Committed(doc, res);
    assert j.readResult(k.merge(k.merge(d, r).value.0, r).value.1) == ScrapeMerge.Committed(next, res);
    ScrapeMerge.RepeatExact(doc, res);
  }

  /** Whatever the document, it holds from the second completion on. */
  lemma SteadyFromSecond(k: Codec, j: ScrapeMerge.Json, d: string, r: string)
    requires ScrapeMerge.Follows(k.merge, j)
    ensures k.merge(d, r).Some? && Steady(k, k.merge(d, r).value.0, r)
  {
    var next := k.merge(d, r).value.0;
    assert j.readDocument(next) == ScrapeMerge.Merged(j.readDocument(d), j.readResult(r));
    ScrapeMerge.SecondRepeats(j.readDocument(d), j.readResult(r));
    SteadyExact(k, j, next, r);
  }

  /** The document of the medium. */
  function MetaOf(s: Shelf, media: Key): string {
    if media in s.metas then OrEmpty(s.metas[media]) else ""
  }

  /** What a completion of a medium without a series leaves on the shelf. */
  predicate LeftBy(k: Codec, s: Shelf, s': Shelf, media: Key, x: Request) {
    && media in s'.titles && media in s'.metas && k.merge(MetaOf(s, media), x.result).Some?
    && MetaOf(s', media) == k.merge(MetaOf(s, media), x.result).value.0
  }

  lemma WorksAgain(k: Codec, s: Shelf, s': Shelf, task: Key, t: Task, t': Task, x: Request)
    requires Workable(k, s, task, t, x) && x.series.None? && t'.media == t.media
    requires LeftBy(k, s, s', t.media, x) && Steady(k, MetaOf(s, t.media), x.result)
    ensures Workable(k, s', task, t', x)
  {
    forall owner: nat, attempt: int | 1 <= attempt <= MAX_FAILURES
      ensures var c' := Claim(task, t'.media, None, owner, attempt, t'.round);
              ShelfAfter(k, s', c', x).Some? && |ManifestOf(k, s', c', x)| <= MANIFEST_LIMIT
    {
      var c, c' := Claim(task, t.media, None, owner, attempt, t.round), Claim(task, t'.media, None, owner, attempt, t'.round);
      assert ShelfAfter(k, s, c, x).Some? && |ManifestOf(k, s, c, x)| <= MANIFEST_LIMIT;
      SameManifest(k, s, c, s', c', x);
    }
  }

  lemma SameManifest(k: Codec, s: Shelf, c: Claim, s': Shelf, c': Claim, x: Request)
    requires ShelfAfter(k, s, c, x).Some? && x.series.None? && LeftBy(k, s, s', c.media, x) && Steady(k, MetaOf(s, c.media), x.result)
    requires c'.task == c.task && c'.media == c.media && c'.attempts == c.attempts && GenerationOf(c') == GenerationOf(c)
    ensures ShelfAfter(k, s', c', x).Some? && ManifestOf(k, s', c', x) == ManifestOf(k, s, c, x) && SameEffects(k, s, c, x, s', c', x)
  {
    assert MergedResult(k, s', c', x) == MergedResult(k, s, c, x);
  }

  lemma MediumStays(k: Codec, s: Site, c: Claim, x: Request)
    requires Issued(s.issued, c) && CompleteTx(k, s.db, c, x, true, s.now).Some? && x.series.None?
    ensures LeftBy(k, s.db.shelf, Advance(k, s, Completion(c.owner, x, true)).db.shelf, c.media, x)
  {
  }

  lemma Completes(k: Codec, s: Site, c: Claim, x: Request) returns (s': Site)
    requires SiteOk(s) && Issued(s.issued, c) && CompleteTx(k, s.db, c, x, true, s.now).Some? && c.link.None? && x.series.None?
    requires c.attempts == 1 && Free(s.db.ledger, c.task, 1, c.round + 1)
    ensures s' == AdvanceAll(k, s, [Completion(c.owner, x, true)]) && SiteOk(s') && Resettable(s'.db.queue, c.task)
    ensures InRound(s'.db.queue, c.task, c.round) && s'.db.queue.tasks[c.task].media == c.media
    ensures LeftBy(k, s.db.shelf, s'.db.shelf, c.media, x)
    ensures Free(s'.db.ledger, c.task, 1, c.round + 1)
  {
    s' := Advance(k, s, Completion(c.owner, x, true));
    CompletedAttempt(k, s, c, x);
    MediumStays(k, s, c, x);
    AdvanceOne(k, s, Completion(c.owner, x, true));
  }

  /** A standalone task of a medium without a series is completed, started in a new round by an operator, and completed at the
      same attempt with the same result. If that result is committed in the same form, the second completion is applied, and
      the query that settles a commit does not see it. */
  lemma NewRoundTwin(k: Codec, s: Site, task: Key, x: Request)
    returns (before: seq<Act>, first: Site, c: Claim, after: seq<Act>, second: Site, c': Claim)
    requires SiteOk(s) && Idle(s, task) && s.db.queue.tasks[task].fails == 0 && x.series.None?
    requires var t := s.db.queue.tasks[task];
      && Workable(k, s.db.shelf, task, t, x) && Steady(k, MetaOf(s.db.shelf, t.media), x.result)
      && Free(s.db.ledger, task, 1, t.round) && Free(s.db.ledger, task, 1, t.round + 1)
    ensures first == AdvanceAll(k, s, before) && Issued(first.issued, c) && c.task == task
    ensures CompleteTx(k, first.db, c, x, true, first.now).Some?
    ensures second == AdvanceAll(k, first, [Completion(c.owner, x, true)] + after)
    ensures Issued(second.issued, c') && c'.task == task && c'.round == c.round + 1
    ensures CompleteTx(k, second.db, c', x, true, second.now).Some?
    ensures !Verdict(k, AdvanceAll(k, second, [Completion(c'.owner, x, true)]).db, c', x, ManifestOf(k, second.db.shelf, c', x))
  {
    before, first := Accepts(k, s, task, x);
    c := NextClaim(s, task);
    var done := Completes(k, first, c, x);
    WorksAgain(k, s.db.shelf, done.db.shelf, task, s.db.queue.tasks[task], done.db.queue.tasks[task], x);
    after, second, c' := ClaimedAnew(k, done, task, c.media, c.round, x);
    AdvanceJoins(k, first, [Completion(c.owner, x, true)], after);
    SameManifest(k, first.db.shelf, c, second.db.shelf, c', x);
    TwinLater(k, first, c, x, after, second, c');
  }

  lemma TwinLater(k: Codec, s: Site, c: Claim, x: Request, after: seq<Act>, s': Site, c': Claim)
    requires SiteOk(s) && Issued(s.issued, c) && CompleteTx(k, s.db, c, x, true, s.now).Some?
    requires s' == AdvanceAll(k, s, [Completion(c.owner, x, true)] + after)
    requires Issued(s'.issued, c') && CompleteTx(k, s'.db, c', x, true, s'.now).Some?
    requires SameEffects(k, s.db.shelf, c, x, s'.db.shelf, c', x)
    ensures !Verdict(k, AdvanceAll(k, s', [Completion(c'.owner, x, true)]).db, c', x, ManifestOf(k, s'.db.shelf, c', x))
  {
    AdvanceJoins(k, s, [Completion(c.owner, x, true)], after);
    AdvanceOne(k, s, Completion(c.owner, x, true));
    AdvanceOne(k, s', Completion(c'.owner, x, true));
    TwinHidesCompletion(k, s, c, x, after, c', x);
  }

  lemma RoundDoesNotMatter(k: Codec, s: Shelf, task: Key, t: Task, t': Task, x: Request)
    requires Workable(k, s, task, t, x) && t'.media == t.media
    ensures Workable(k, s, task, t', x)
  {
    forall owner: nat, attempt: int | 1 <= attempt <= MAX_FAILURES
      ensures var c' := Claim(task, t'.media, None, owner, attempt, t'.round);
              ShelfAfter(k, s, c', x).Some? && |ManifestOf(k, s, c', x)| <= MANIFEST_LIMIT
    {
      var c, c' := Claim(task, t.media, None, owner, attempt, t.round), Claim(task, t'.media, None, owner, attempt, t'.round);
      assert ShelfAfter(k, s, c, x).Some? && |ManifestOf(k, s, c, x)| <= MANIFEST_LIMIT;
      assert ManifestOf(k, s, c', x) == ManifestOf(k, s, c, x) && ShelfAfter(k, s, c', x) == ShelfAfter(k, s, c, x);
    }
  }

  /** An operator starts the task in a new round, and a worker takes it. */
  lemma ClaimedAnew(k: Codec, s: Site, task: Key, media: Key, round: nat, x: Request)
    returns (acts: seq<Act>, s': Site, c: Claim)
    requires SiteOk(s) && Resettable(s.db.queue, task) && InRound(s.db.queue, task, round) && s.db.queue.tasks[task].media == media
    requires Workable(k, s.db.shelf, task, s.db.queue.tasks[task], x) && Free(s.db.ledger, task, 1, round + 1)
    ensures s' == AdvanceAll(k, s, acts) && s'.db.shelf == s.db.shelf
    ensures c.task == task && c.media == media && c.link.None? && c.attempts == 1 && c.round == round + 1
    ensures Issued(s'.issued, c) && CompleteTx(k, s'.db, c, x, true, s'.now).Some?
  {
    var reset := Resets(k, s, task, true);
    RoundDoesNotMatter(k, s.db.shelf, task, s.db.queue.tasks[task], reset.db.queue.tasks[task], x);
    c := NextClaim(reset, task);
    acts, s' := Accepts(k, reset, task, x);
    AdvanceOne(k, s, Plain(Requeue(task, true)));
    AdvanceJoins(k, s, [Plain(Requeue(task, true))], acts);
    acts := [Plain(Requeue(task, true))] + acts;
  }

  /** A codec whose manifests grow with the number of the attempt. */
  function SampleCodec(): Codec {
    Codec((d: string, r: string) => Some((d + r, r)), t => t, (library, media, sum) => sum, keys => "", Strokes, t => t,
          CreditManifest.Notation(t => t, i => ""))
  }

  function Strokes(m: Manifest): string {
    if m.attempt < 0 then "" else seq(m.attempt, i => '1')
  }

  /** A task and a request to which all of this applies. */
  lemma NewRoundTwinApplies()
    ensures var t := Task(Key(2), None, Waiting, None, None, 0, 0, None, 0, "", None);
            var s := Site(Db(Queue(map[Key(1) := t], map[], map[], map[]), Shelf(map[Key(2) := ""], map[Key(2) := None], map[]),
                             Ledger(map[], map[], map[], map[], [])), [], 0);
            var x := Request("ok", "title", "{}", "", 0, true, None, 0, [], false);
            && SiteOk(s) && Idle(s, Key(1)) && Workable(SampleCodec(), s.db.shelf, Key(1), t, x)
            && Steady(SampleCodec(), MetaOf(s.db.shelf, Key(2)), x.result)
  {
  }
}
