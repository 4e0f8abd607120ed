/** The commit of a completion may report an error although it went through. These are the facts that make the query
    behind it, and the fallback after it, safe. */
module ScrapeReconcile {
  import opened Basics
  import opened ScrapeQueue
  import opened ScrapeInvariants
  import opened ScrapeRuns
  import opened ScrapeLedger
  import opened PreparedSeries
  import CreditManifest

  // ---------- invariants of the books ----------

  predicate IsDone(e: Entry) {
    e.done
  }

  /** Artwork evidence exists for finished steps only, and there are as many commit rows as finished history rows. */
  ghost predicate SiteOk(s: Site) {
    && WorldOk(WorldOf(s))
    && (forall step | step in s.db.ledger.evidence :: step in s.db.queue.steps && s.db.queue.steps[step].status == Done)
    && Count(s.db.ledger.history, IsDone) == |s.db.ledger.commits|
  }

  lemma BooksBalance(k: Codec, s: Site, a: Act)
    requires Count(s.db.ledger.history, IsDone) == |s.db.ledger.commits|
    ensures Count(Advance(k, s, a).db.ledger.history, IsDone) == |Advance(k, s, a).db.ledger.commits|
  {
    BooksMove(k, s, a);
    if EndsIn(k, s, a) {
      CountAppend(s.db.ledger.history, EntryOf(k, s, a), IsDone);
    }
  }

  /** New evidence appears only with a completion, for the step that it finishes. */
  lemma EvidenceMoves(k: Codec, s: Site, a: Act)
    ensures var e, e' := s.db.ledger.evidence, Advance(k, s, a).db.ledger.evidence;
      if a.Completion? && EndsIn(k, s, a) && a.request.images > 0 then EvidenceAdded(e, e', s.issued[a.owner], a.request) else e' == e
  {
    if a.Completion? && EndsIn(k, s, a) {
      var c, x := s.issued[a.owner], a.request;
      var manifest := ManifestOf(k, s.db.shelf, c, x);
      EvidenceOfCompletion(k, s.db.ledger, c, x, manifest);
      assert Advance(k, s, a).db.ledger == LedgerAfter(k, s.db.ledger, c, x, manifest);
    }
  }

  predicate EvidenceAdded(e: map<Key, Evidence>, e': map<Key, Evidence>, c: Claim, x: Request) {
    c.link.Some? && c.link.value.step !in e && e' == e[c.link.value.step := Evidence(x.stage, c.link.value, c.media)]
  }

  lemma EvidenceOfCompletion(k: Codec, g: Ledger, c: Claim, x: Request, manifest: string)
    requires LedgerAccepts(g, c, x, manifest)
    ensures var e' := LedgerAfter(k, g, c, x, manifest).evidence;
            if x.images > 0 then EvidenceAdded(g.evidence, e', c, x) else e' == g.evidence
  {
  }

  lemma CompletionFinishesStep(k: Codec, s: Site, a: Act)
    requires EndsIn(k, s, a) && a.Completion? && s.issued[a.owner].link.Some?
    ensures var step := s.issued[a.owner].link.value.step; var q := Advance(k, s, a).db.queue;
            step in q.steps && q.steps[step].status == Done
  {
  }

  lemma AdvanceOk(k: Codec, s: Site, a: Act)
    requires SiteOk(s)
    ensures SiteOk(Advance(k, s, a))
  {
    NextOk(WorldOf(s), EventOf(k, s, a));
    BooksBalance(k, s, a);
    EvidenceMoves(k, s, a);
    var s' := Advance(k, s, a);
    forall step | step in s'.db.ledger.evidence ensures step in s'.db.queue.steps && s'.db.queue.steps[step].status == Done {
      if step in s.db.ledger.evidence {
        DoneStepStays(WorldOf(s), EventOf(k, s, a), step);
      } else {
        CompletionFinishesStep(k, s, a);
      }
    }
  }

  lemma {:induction false} SitesOk(k: Codec, s: Site, acts: seq<Act>)
    requires SiteOk(s)
    ensures SiteOk(AdvanceAll(k, s, acts))
    decreases |acts|
  {
    if acts != [] {
      AdvanceOk(k, s, acts[0]);
      SitesOk(k, Advance(k, s, acts[0]), acts[1..]);
    }
  }

  // ---------- all or nothing ----------

  /** The rows of the library after a completion: the merged document and the title of the medium, the wanted columns of
      the series, and the wanted documents of its siblings. */
  ghost predicate ShelfWritten(k: Codec, was: Shelf, now: Shelf, c: Claim, x: Request) {
    && Merged(k, was, c, x).Some? && now.titles == was.titles[c.media := x.title]
    && (x.series.None? ==> now.metas == was.metas[c.media := Some(Merged(k, was, c, x).value.0)] && now.series == was.series)
    && (x.series.Some? ==>
          var p := x.series.value;
          && p.id in now.series && ColumnsOf(now.series[p.id]) == p.desired
          && (forall id | id in was.series && id != p.id :: id in now.series && now.series[id] == was.series[id])
          && SiblingsSet(was.metas[c.media := Some(Merged(k, was, c, x).value.0)], p.siblings, now.metas))
  }

  ghost predicate BooksWritten(k: Codec, was: Ledger, now: Ledger, c: Claim, x: Request, manifest: string) {
    && KeyOf(c) !in was.commits && now.commits == was.commits[KeyOf(c) := Commit(GenerationOf(c), x.stage, manifest, k.digest(manifest))]
    && now.history == was.history + [Entry(c.task, c.media, true, x.message, k.digest(manifest))]
    && (x.images == 0 ==> now.evidence == was.evidence && now.stages == was.stages)
    && (x.images > 0 ==>
          && c.link.Some? && c.link.value.step !in was.evidence && x.stage in was.stages && was.stages[x.stage] == Stage(c, Staged)
          && now.evidence == was.evidence[c.link.value.step := Evidence(x.stage, c.link.value, c.media)]
          && now.stages == was.stages[x.stage := Stage(c, Committed)])
    && RepairsWritten(was.repairs, now.repairs, c, x)
  }

  /** A poster repair is queued exactly if the completion asks for it and belongs to a plan, for that plan's run and generation;
      one that is there already stays. */
  ghost predicate RepairsWritten(was: map<Repair, Key>, now: map<Repair, Key>, c: Claim, x: Request) {
    && (forall r :: r in now <==> r in was || (x.repair && c.link.Some? && r == Repair(c.media, c.link.value.generation)))
    && (forall r | r in was :: r in now && now[r] == was[r])
    && (forall r | r in now && r !in was :: c.link.Some? && now[r] == c.link.value.run)
  }

  /** A completion writes everything (task, step, medium, series, siblings, books) or nothing at all. */
  lemma AllOrNothing(k: Codec, s: Site, c: Claim, x: Request, ok: bool)
    requires SiteOk(s) && Issued(s.issued, c) && (x.series.Some? ==> OneSnapshot(x.series.value.siblings))
    ensures var s' := Advance(k, s, Completion(c.owner, x, ok));
      || s' == s
      || (&& c.task in s'.db.queue.tasks && s'.db.queue.tasks[c.task].status == Done
          && (c.link.Some? ==> var step := c.link.value.step; step in s'.db.queue.steps && s'.db.queue.steps[step].status == Done)
          && ShelfWritten(k, s.db.shelf, s'.db.shelf, c, x)
          && BooksWritten(k, s.db.ledger, s'.db.ledger, c, x, ManifestOf(k, s.db.shelf, c, x)))
  {
    var a := Completion(c.owner, x, ok);
    if EndsIn(k, s, a) {
      if c.link.Some? {
        CompletionFinishesStep(k, s, a);
      }
      ShelfIsWritten(k, s.db.shelf, c, x);
      BooksAreWritten(k, s.db.ledger, c, x, ManifestOf(k, s.db.shelf, c, x));
    } else {
      RefusedChangesNothing(k, s, a);
    }
  }

  lemma ShelfIsWritten(k: Codec, was: Shelf, c: Claim, x: Request)
    requires ShelfAfter(k, was, c, x).Some? && (x.series.Some? ==> OneSnapshot(x.series.value.siblings))
    ensures ShelfWritten(k, was, ShelfAfter(k, was, c, x).value, c, x)
  {
    if x.series.Some? {
      ApplyExact(was.series, was.metas[c.media := Some(Merged(k, was, c, x).value.0)], x.series.value);
    }
  }

  lemma BooksAreWritten(k: Codec, was: Ledger, c: Claim, x: Request, manifest: string)
    requires LedgerAccepts(was, c, x, manifest)
    ensures BooksWritten(k, was, LedgerAfter(k, was, c, x, manifest), c, x, manifest)
  {
  }

  /** A completion is accepted exactly if its claim still owns the task, the medium is there and the result can be merged, the
      series and its siblings hold what was prepared, the artwork, if any, is complete, staged for this claim and not yet
      used, the manifest is not too long, and its commit key is free. */
  lemma CompletesExact(k: Codec, db: Db, c: Claim, x: Request, ok: bool, now: int)
    requires x.series.Some? ==> OneSnapshot(x.series.value.siblings)
    ensures CompleteTx(k, db, c, x, ok, now).Some? <==>
      && ok && Owns(db.queue, c)
      && c.media in db.shelf.titles && c.media in db.shelf.metas && k.merge(OrEmpty(db.shelf.metas[c.media]), x.result).Some?
      && (x.series.Some? ==>
            var p, metas := x.series.value, db.shelf.metas[c.media := Some(k.merge(OrEmpty(db.shelf.metas[c.media]), x.result).value.0)];
            SeriesHeld(db.shelf.series, p) && (forall v | v in p.siblings :: SiblingHeld(metas, v)) && RepeatsSettled(p.siblings))
      && (x.images > 0 ==>
            && x.intact && c.link.Some? && x.stage in db.ledger.stages && db.ledger.stages[x.stage] == Stage(c, Staged)
            && c.link.value.step !in db.ledger.evidence
            && forall step | step in db.ledger.evidence :: db.ledger.evidence[step].stage != x.stage)
      && |ManifestOf(k, db.shelf, c, x)| <= 65536 && CommitKey(c.task, c.attempts, c.round) !in db.ledger.commits
  {
    if x.series.Some? && Merged(k, db.shelf, c, x).Some? {
      ApplyExact(db.shelf.series, db.shelf.metas[c.media := Some(Merged(k, db.shelf, c, x).value.0)], x.series.value);
    }
  }

  /** Nobody but a completion that asks for it queues a poster repair, and nobody takes one away. */
  lemma RepairsMove(k: Codec, s: Site, a: Act)
    ensures var r, r' := s.db.ledger.repairs, Advance(k, s, a).db.ledger.repairs;
      if EndsIn(k, s, a) && a.Completion? then RepairsWritten(r, r', s.issued[a.owner], a.request) else r' == r
  {
    if EndsIn(k, s, a) && a.Completion? {
      var c, x := s.issued[a.owner], a.request;
      BooksAreWritten(k, s.db.ledger, c, x, ManifestOf(k, s.db.shelf, c, x));
    }
  }

  /** Only a completion and an edit by someone else change the library. */
  lemma ShelfMoves(k: Codec, s: Site, a: Act)
    requires !(EndsIn(k, s, a) && a.Completion?) && !a.Edit?
    ensures Advance(k, s, a).db.shelf == s.db.shelf
  {
  }

  /** A worker handles staged artwork while its claim owns the task and the leases of both rows run. */
  lemma LeasedColumns(s: Site, owner: nat)
    ensures Leased(s, owner) <==>
      && owner < |s.issued| && Owns(s.db.queue, s.issued[owner]) && s.issued[owner].link.Some?
      && var lease, lease' := s.db.queue.tasks[s.issued[owner].task].lease, s.db.queue.steps[s.issued[owner].link.value.step].lease;
         lease.Some? && lease.value > s.now && lease'.Some? && lease'.value > s.now
  {
  }

  /** The life of a staged set of artwork: reserved by a worker with a lease, committed by the completion of the same claim,
      and until then quarantined by anyone, or discarded by a worker with a lease for the same attempt. */
  lemma StagesMove(k: Codec, s: Site, a: Act, name: string)
    ensures var g, g' := s.db.ledger.stages, Advance(k, s, a).db.ledger.stages;
      var commits := EndsIn(k, s, a) && a.Completion? && a.request.images > 0 && a.request.stage == name;
      if name !in g then
        if a.Reserve? && a.stage == name && Leased(s, a.owner) then name in g' && g'[name] == Stage(s.issued[a.owner], Staged) else name !in g'
      else if a.Discard? && a.stage == name && Leased(s, a.owner) && KeyOf(g[name].claim) == KeyOf(s.issued[a.owner]) then name !in g'
      else
        && name in g' && g'[name].claim == g[name].claim
        && (commits ==> g[name] == Stage(s.issued[a.owner], Staged))
        && g'[name].state == if commits then Committed
                             else if a.Quarantine? && a.stage == name && g[name].state == Staged then Quarantined
                             else g[name].state
  {
    if EndsIn(k, s, a) && a.Completion? {
      StagesOfCompletion(k, s, a);
    } else {
      StagesOtherwise(k, s, a, name);
    }
  }

  lemma StagesOtherwise(k: Codec, s: Site, a: Act, name: string)
    requires !(EndsIn(k, s, a) && a.Completion?)
    ensures var g, g' := s.db.ledger.stages, Advance(k, s, a).db.ledger.stages;
      if name !in g then
        if a.Reserve? && a.stage == name && Leased(s, a.owner) then name in g' && g'[name] == Stage(s.issued[a.owner], Staged) else name !in g'
      else if a.Discard? && a.stage == name && Leased(s, a.owner) && KeyOf(g[name].claim) == KeyOf(s.issued[a.owner]) then name !in g'
      else
        && name in g' && g'[name].claim == g[name].claim
        && g'[name].state == if a.Quarantine? && a.stage == name && g[name].state == Staged then Quarantined else g[name].state
  {
  }

  lemma StagesOfCompletion(k: Codec, s: Site, a: Act)
    requires EndsIn(k, s, a) && a.Completion?
    ensures var g, g', c, x := s.db.ledger.stages, Advance(k, s, a).db.ledger.stages, s.issued[a.owner], a.request;
      if x.images == 0 then g' == g else x.stage in g && g[x.stage] == Stage(c, Staged) && g' == g[x.stage := Stage(c, Committed)]
  {
    var c, x := s.issued[a.owner], a.request;
    BooksAreWritten(k, s.db.ledger, c, x, ManifestOf(k, s.db.shelf, c, x));
  }

  /** What the query asks, by the columns: the task is done, the commit row of the claim has this manifest and its digest, exactly one
      finished history row of the task has that digest, and the evidence of a named stage is there and the stage committed. */
  lemma VerdictColumns(k: Codec, db: Db, c: Claim, x: Request, manifest: string)
    ensures Verdict(k, db, c, x, manifest) <==>
      && c.task in db.queue.tasks && db.queue.tasks[c.task].media == c.media && db.queue.tasks[c.task].status == Done
      && var key := CommitKey(c.task, c.attempts, c.round);
         && key in db.ledger.commits
         && db.ledger.commits[key].generation == (if c.link.Some? then c.link.value.generation else 0)
         && db.ledger.commits[key].manifest == manifest && db.ledger.commits[key].digest == k.digest(manifest)
         && |Filter(db.ledger.history, (e: Entry) => e.task == c.task && e.done && e.digest == k.digest(manifest))| == 1
         && (x.stage != "" ==>
               && c.link.Some? && c.link.value.step in db.ledger.evidence && x.stage in db.ledger.stages
               && db.ledger.evidence[c.link.value.step] == Evidence(x.stage, c.link.value, c.media)
               && db.ledger.stages[x.stage].state == Committed)
  {
    FilterSame(db.ledger.history, Twin(c, k.digest(manifest)), (e: Entry) => e.task == c.task && e.done && e.digest == k.digest(manifest));
  }

  /** The two transactions, run as acts of the claim's worker, do to the database what they do by themselves. */
  lemma ActsExact(k: Codec, s: Site, c: Claim, x: Request, message: string, ok: bool)
    requires Issued(s.issued, c)
    ensures Advance(k, s, Completion(c.owner, x, ok)).db == OrElse(CompleteTx(k, s.db, c, x, ok, s.now), s.db)
    ensures Advance(k, s, Failure(c.owner, message, ok)).db == OrElse(FailTx(s.db, c, message, ok, s.now), s.db)
    ensures FailTx(s.db, c, message, ok, s.now).Some? <==> ok && Owns(s.db.queue, c)
  {
  }

  // ---------- if the commit did not go through ----------

  /** The task is past the attempt of `c`, or still at it in the hands of `c` alone. */
  predicate Past(q: Queue, c: Claim) {
    && c.task in q.tasks
    && (|| q.tasks[c.task].round > c.round
        || (q.tasks[c.task].round == c.round &&
            (|| q.tasks[c.task].status == Done || q.tasks[c.task].fails > c.attempts
             || (q.tasks[c.task].fails == c.attempts && (q.tasks[c.task].status == Running ==> q.tasks[c.task].owner == Some(c.owner))))))
  }

  lemma WorkersLeavePast(w: World, ev: Event, c: Claim)
    requires WorldOk(w) && Past(w.queue, c) && OfWorkers(ev) && !ev.Reap?
    ensures Past(Next(w, ev).queue, c)
  {
  }

  lemma ReaperLeavesPast(q: Queue, m: Moments, c: Claim)
    requires Past(q, c)
    ensures Past(Reaped(q, m), c)
  {
  }

  lemma UpkeepLeavesPast(w: World, ev: Event, c: Claim)
    requires WorldOk(w) && Past(w.queue, c) && OfUpkeep(ev)
    ensures Past(Next(w, ev).queue, c)
  {
    if ev.Aggregate? && Enabled(w, ev) {
      AggregatedTask(w.queue, ev.run, ev.others, ev.preserve, ev.reason, w.now, c.task);
    }
  }

  lemma OthersLeavePast(w: World, ev: Event, c: Claim)
    requires WorldOk(w) && Past(w.queue, c) && !OfWorkers(ev) && !OfUpkeep(ev) && !(ev.Requeue? && ev.task == c.task)
    ensures Past(Next(w, ev).queue, c)
  {
  }

  lemma PastStays(w: World, ev: Event, c: Claim)
    requires WorldOk(w) && Past(w.queue, c) && !(ev.Requeue? && ev.task == c.task)
    ensures Past(Next(w, ev).queue, c)
  {
    if ev.Reap? {
      ReaperLeavesPast(w.queue, MomentsOf(w.now, ev), c);
    } else if OfWorkers(ev) {
      WorkersLeavePast(w, ev, c);
    } else if OfUpkeep(ev) {
      UpkeepLeavesPast(w, ev, c);
    } else {
      OthersLeavePast(w, ev, c);
    }
  }

  /** Nobody queues the task again by hand, and the worker of `c` does not complete a second time. */
  predicate Calm(a: Act, c: Claim) {
    && !(a.Plain? && a.ev.Requeue? && a.ev.task == c.task)
    && !(a.Completion? && a.owner == c.owner)
  }

  predicate AllCalm(acts: seq<Act>, c: Claim) {
    forall a | a in acts :: Calm(a, c)
  }

  /** While no one queues the task again, nobody else can write the commit row of the claim. */
  lemma KeyStaysFree(k: Codec, s: Site, a: Act, c: Claim)
    requires SiteOk(s) && Past(s.db.queue, c) && Calm(a, c) && KeyOf(c) !in s.db.ledger.commits
    ensures KeyOf(c) !in Advance(k, s, a).db.ledger.commits
  {
    BooksMove(k, s, a);
    OnlyOwnKey(k, s, a, c);
  }

  lemma OnlyOwnKey(k: Codec, s: Site, a: Act, c: Claim)
    requires SiteOk(s) && Past(s.db.queue, c)
    ensures EndsIn(k, s, a) && a.Completion? && KeyOf(s.issued[a.owner]) == KeyOf(c) ==> a.owner == c.owner
  {
  }

  lemma {:induction false} UnappliedIsNeverShown(k: Codec, s: Site, acts: seq<Act>, c: Claim)
    requires SiteOk(s) && Past(s.db.queue, c) && AllCalm(acts, c) && KeyOf(c) !in s.db.ledger.commits
    ensures KeyOf(c) !in AdvanceAll(k, s, acts).db.ledger.commits
    decreases |acts|
  {
    if acts != [] {
      var a := acts[0];
      assert a in acts && forall b | b in acts[1..] :: b in acts;
      AdvanceOk(k, s, a);
      KeyStaysFree(k, s, a, c);
      PastStays(WorldOf(s), EventOf(k, s, a), c);
      UnappliedIsNeverShown(k, Advance(k, s, a), acts[1..], c);
    }
  }

  // ---------- if it did ----------

  /** What an applied completion leaves behind; `n` counts the history rows that the query joins. */
  ghost predicate Recorded(k: Codec, s: Site, c: Claim, x: Request, manifest: string, n: nat) {
    && c.task in s.db.queue.tasks && s.db.queue.tasks[c.task].media == c.media && s.db.queue.tasks[c.task].status == Done
    && KeyOf(c) in s.db.ledger.commits
    && s.db.ledger.commits[KeyOf(c)] == Commit(GenerationOf(c), x.stage, manifest, k.digest(manifest))
    && Count(s.db.ledger.history, Twin(c, k.digest(manifest))) == n
    && ArtworkKept(s.db, c, x)
  }

  ghost predicate ArtworkKept(db: Db, c: Claim, x: Request) {
    if x.images > 0 then ArtworkShown(db.ledger, c, x) && db.ledger.stages[x.stage].claim == c
    else c.link.Some? ==>
      && c.link.value.step !in db.ledger.evidence
      && c.link.value.step in db.queue.steps && db.queue.steps[c.link.value.step].status == Done
  }

  lemma CompletionRecords(k: Codec, s: Site, c: Claim, x: Request, ok: bool)
    requires SiteOk(s) && Issued(s.issued, c) && CompleteTx(k, s.db, c, x, ok, s.now).Some?
    ensures var manifest := ManifestOf(k, s.db.shelf, c, x);
            Recorded(k, Advance(k, s, Completion(c.owner, x, ok)), c, x, manifest,
                     Count(s.db.ledger.history, Twin(c, k.digest(manifest))) + 1)
  {
    var manifest := ManifestOf(k, s.db.shelf, c, x);
    var a := Completion(c.owner, x, ok);
    BooksMove(k, s, a);
    CountAppend(s.db.ledger.history, EntryOf(k, s, a), Twin(c, k.digest(manifest)));
    CompletionKeepsArtwork(k, s, c, x, ok);
  }

  lemma CompletionKeepsArtwork(k: Codec, s: Site, c: Claim, x: Request, ok: bool)
    requires SiteOk(s) && Issued(s.issued, c) && CompleteTx(k, s.db, c, x, ok, s.now).Some?
    ensures ArtworkKept(Advance(k, s, Completion(c.owner, x, ok)).db, c, x)
  {
    if c.link.Some? {
      CompletionFinishesStep(k, s, Completion(c.owner, x, ok));
    }
  }

  /** As long as the task is done, nobody ends another claim of it. */
  lemma NoOtherEnd(k: Codec, s: Site, a: Act, c: Claim)
    requires c.task in s.db.queue.tasks && s.db.queue.tasks[c.task].status == Done && EndsIn(k, s, a)
    ensures s.issued[a.owner].task != c.task
  {
  }

  lemma ArtworkStays(k: Codec, s: Site, a: Act, c: Claim, x: Request)
    requires SiteOk(s) && c.task in s.db.queue.tasks && s.db.queue.tasks[c.task].status == Done && ArtworkKept(s.db, c, x)
    ensures ArtworkKept(Advance(k, s, a).db, c, x)
  {
    EvidenceMoves(k, s, a);
    if x.images > 0 {
      StageStays(k, s, a, c, x.stage);
    } else if c.link.Some? {
      DoneStepStays(WorldOf(s), EventOf(k, s, a), c.link.value.step);
    }
  }

  lemma StageStays(k: Codec, s: Site, a: Act, c: Claim, stage: string)
    requires c.task in s.db.queue.tasks && s.db.queue.tasks[c.task].status == Done
    requires stage in s.db.ledger.stages && s.db.ledger.stages[stage] == Stage(c, Committed)
    ensures stage in Advance(k, s, a).db.ledger.stages && Advance(k, s, a).db.ledger.stages[stage] == Stage(c, Committed)
  {
  }

  lemma RecordStays(k: Codec, s: Site, a: Act, c: Claim, x: Request, manifest: string, n: nat)
    requires SiteOk(s) && Recorded(k, s, c, x, manifest, n) && Calm(a, c)
    ensures Recorded(k, Advance(k, s, a), c, x, manifest, n)
  {
    BooksMove(k, s, a);
    DoneStays(WorldOf(s), EventOf(k, s, a), c.task);
    ArtworkStays(k, s, a, c, x);
    if EndsIn(k, s, a) {
      NoOtherEnd(k, s, a, c);
      CountAppend(s.db.ledger.history, EntryOf(k, s, a), Twin(c, k.digest(manifest)));
    }
  }

  lemma {:induction false} RecordStaysForever(k: Codec, s: Site, acts: seq<Act>, c: Claim, x: Request, manifest: string, n: nat)
    requires SiteOk(s) && Recorded(k, s, c, x, manifest, n) && AllCalm(acts, c)
    ensures Recorded(k, AdvanceAll(k, s, acts), c, x, manifest, n)
    decreases |acts|
  {
    if acts != [] {
      var a := acts[0];
      assert a in acts && forall b | b in acts[1..] :: b in acts;
      AdvanceOk(k, s, a);
      RecordStays(k, s, a, c, x, manifest, n);
      RecordStaysForever(k, Advance(k, s, a), acts[1..], c, x, manifest, n);
    }
  }

  // ---------- the verdict ----------

  /** A completion whose body succeeded and whose commit reported an error, of which nobody knows whether it was
      applied. Other workers, the reaper, publication and the operators go on, only the task is not queued again by
      hand. Asked at any later time, the query says "applied" exactly if it was, no earlier completion of the task had
      the same digest, and a named stage came with images. So a verdict of success is never wrong; in the two remaining
      cases an applied completion is reported as failed. */
  lemma ReconcileExact(k: Codec, s: Site, c: Claim, x: Request, applied: bool, acts: seq<Act>)
    requires SiteOk(s) && Issued(s.issued, c) && CompleteTx(k, s.db, c, x, true, s.now).Some? && AllCalm(acts, c)
    ensures var manifest := ManifestOf(k, s.db.shelf, c, x);
            var after := AdvanceAll(k, if applied then Advance(k, s, Completion(c.owner, x, true)) else s, acts);
            Verdict(k, after.db, c, x, manifest) <==>
              && applied
              && Count(s.db.ledger.history, Twin(c, k.digest(manifest))) == 0
              && (x.stage == "" || x.images > 0)
  {
    var manifest := ManifestOf(k, s.db.shelf, c, x);
    var n := Count(s.db.ledger.history, Twin(c, k.digest(manifest))) + 1;
    if applied {
      var a := Completion(c.owner, x, true);
      AdvanceOk(k, s, a);
      CompletionRecords(k, s, c, x, true);
      RecordStaysForever(k, Advance(k, s, a), acts, c, x, manifest, n);
    } else {
      assert TaskOk(c.task, s.db.queue.tasks[c.task], s.issued);
      UnappliedIsNeverShown(k, s, acts, c);
    }
  }

  // ---------- completions with the same manifest ----------

  /** What the manifest says of two completions is the same. Nothing here is about the retry rounds of the claims. */
  predicate SameEffects(k: Codec, was: Shelf, c: Claim, x: Request, now: Shelf, c': Claim, x': Request) {
    && c'.task == c.task && c'.attempts == c.attempts && GenerationOf(c') == GenerationOf(c)
    && x'.stage == x.stage && x'.images == x.images && x'.repair == x.repair
    && k.sum(MergedResult(k, now, c', x')) == k.sum(MergedResult(k, was, c, x))
    && k.place(x'.library, c'.media, k.sum(MergedResult(k, now, c', x'))) == k.place(x.library, c.media, k.sum(MergedResult(k, was, c, x)))
    && var cast, cast' := CreditManifest.Normalized(k.notation, x.credits), CreditManifest.Normalized(k.notation, x'.credits);
       |cast'| == |cast|
       && k.cast(CreditManifest.SortedKeys(k.notation, cast')) == k.cast(CreditManifest.SortedKeys(k.notation, cast))
  }

  /** The texts of different manifests differ, and so do the digests of different texts. */
  ghost predicate Faithful(k: Codec) {
    (forall m, n | k.encode(m) == k.encode(n) :: m == n) && (forall t, u | k.digest(t) == k.digest(u) :: t == u)
  }

  /** The act applies a completion of the task whose manifest has this digest. */
  ghost predicate Commits(k: Codec, s: Site, a: Act, task: Key, digest: string) {
    && EndsIn(k, s, a) && a.Completion? && s.issued[a.owner].task == task
    && k.digest(ManifestOf(k, s.db.shelf, s.issued[a.owner], a.request)) == digest
  }

  /** Some completion among the acts does. */
  ghost predicate Earlier(k: Codec, s: Site, acts: seq<Act>, task: Key, digest: string)
    decreases |acts|
  {
    acts != [] && (Commits(k, s, acts[0], task, digest) || Earlier(k, Advance(k, s, acts[0]), acts[1..], task, digest))
  }

  /** The history finds a twin exactly if it had one already or a completion has left one since. */
  lemma {:induction false} TwinsExact(k: Codec, s: Site, acts: seq<Act>, c: Claim, digest: string)
    ensures Count(AdvanceAll(k, s, acts).db.ledger.history, Twin(c, digest)) > 0
       <==> Count(s.db.ledger.history, Twin(c, digest)) > 0 || Earlier(k, s, acts, c.task, digest)
    decreases |acts|
  {
    if acts != [] {
      BooksMove(k, s, acts[0]);
      if EndsIn(k, s, acts[0]) {
        CountAppend(s.db.ledger.history, EntryOf(k, s, acts[0]), Twin(c, digest));
      }
      TwinsExact(k, Advance(k, s, acts[0]), acts[1..], c, digest);
    }
  }

  /** A library that was never scraped. */
  function Unscraped(shelf: Shelf, now: int): Site {
    Site(Db(Queue(map[], map[], map[], map[]), shelf, Ledger(map[], map[], map[], map[], [])), [], now)
  }

  /** The same verdict over a whole run from an unscraped library: the query misses an applied completion exactly if one
      before it in the run, in whatever retry round, committed the same manifest, or a stage without images is named. */
  lemma ReconcileOverRuns(k: Codec, shelf: Shelf, now: int, before: seq<Act>, c: Claim, x: Request, applied: bool, acts: seq<Act>)
    requires var s := AdvanceAll(k, Unscraped(shelf, now), before);
      Issued(s.issued, c) && CompleteTx(k, s.db, c, x, true, s.now).Some? && AllCalm(acts, c)
    ensures var s := AdvanceAll(k, Unscraped(shelf, now), before); var manifest := ManifestOf(k, s.db.shelf, c, x);
            var after := AdvanceAll(k, if applied then Advance(k, s, Completion(c.owner, x, true)) else s, acts);
            Verdict(k, after.db, c, x, manifest) <==>
              && applied && !Earlier(k, Unscraped(shelf, now), before, c.task, k.digest(manifest))
              && (x.stage == "" || x.images > 0)
  {
    var start := Unscraped(shelf, now);
    SitesOk(k, start, before);
    var s := AdvanceAll(k, start, before);
    TwinsExact(k, start, before, c, k.digest(ManifestOf(k, s.db.shelf, c, x)));
    ReconcileExact(k, s, c, x, applied, acts);
  }

  /** With faithful texts and digests, completions are twins exactly if they have the same effects. */
  lemma DigestsExact(k: Codec, was: Shelf, c: Claim, x: Request, now: Shelf, c': Claim, x': Request)
    requires Faithful(k)
    ensures k.digest(ManifestOf(k, was, c, x)) == k.digest(ManifestOf(k, now, c', x')) <==> SameEffects(k, was, c, x, now, c', x')
  {
  }

  /** Whatever happens after a completion: the next one of the task with the same effects, though applied, is not seen. */
  lemma TwinHidesCompletion(k: Codec, s: Site, c: Claim, x: Request, acts: seq<Act>, c': Claim, x': Request)
    requires SiteOk(s) && Issued(s.issued, c) && CompleteTx(k, s.db, c, x, true, s.now).Some?
    requires var s' := AdvanceAll(k, Advance(k, s, Completion(c.owner, x, true)), acts);
      Issued(s'.issued, c') && CompleteTx(k, s'.db, c', x', true, s'.now).Some? && SameEffects(k, s.db.shelf, c, x, s'.db.shelf, c', x')
    ensures var s' := AdvanceAll(k, Advance(k, s, Completion(c.owner, x, true)), acts);
      !Verdict(k, Advance(k, s', Completion(c'.owner, x', true)).db, c', x', ManifestOf(k, s'.db.shelf, c', x'))
  {
    var a := Completion(c.owner, x, true);
    var digest := k.digest(ManifestOf(k, s.db.shelf, c, x));
    BooksMove(k, s, a);
    CountAppend(s.db.ledger.history, EntryOf(k, s, a), Twin(c', digest));
    TwinsExact(k, Advance(k, s, a), acts, c', digest);
    SitesOk(k, s, [a] + acts);
    assert ([a] + acts)[1..] == acts;
    ReconcileExact(k, AdvanceAll(k, Advance(k, s, a), acts), c', x', true, []);
  }

  lemma CreditsShowInManifest(k: Codec, s: Shelf, g: Ledger, c: Claim, x: Request, credits: seq<CreditManifest.Credit>, manifest: string)
    ensures var y := x.(credits := credits);
      && ShelfAfter(k, s, c, y) == ShelfAfter(k, s, c, x) && LedgerAccepts(g, c, y, manifest) == LedgerAccepts(g, c, x, manifest)
      && (LedgerAccepts(g, c, x, manifest) ==> LedgerAfter(k, g, c, y, manifest) == LedgerAfter(k, g, c, x, manifest))
  {
  }

  lemma ManifestOrder(k: Codec, s: Shelf, c: Claim, x: Request, credits: seq<CreditManifest.Credit>)
    requires CreditManifest.SameCast(k.notation, x.credits, credits)
    ensures ManifestOf(k, s, c, x) == ManifestOf(k, s, c, x.(credits := credits))
  {
    CreditManifest.SameCastSameKeys(k.notation, x.credits, credits);
  }

  /** Completing and settling do not depend on the order in which the provider lists one cast. */
  lemma CreditOrder(k: Codec, db: Db, c: Claim, x: Request, credits: seq<CreditManifest.Credit>, ok: bool, now: int)
    requires CreditManifest.SameCast(k.notation, x.credits, credits)
    ensures var y := x.(credits := credits);
      && ManifestOf(k, db.shelf, c, x) == ManifestOf(k, db.shelf, c, y) && CompleteTx(k, db, c, x, ok, now) == CompleteTx(k, db, c, y, ok, now)
      && forall manifest :: Verdict(k, db, c, x, manifest) == Verdict(k, db, c, y, manifest)
  {
    ManifestOrder(k, db.shelf, c, x, credits);
    CreditsShowInManifest(k, db.shelf, db.ledger, c, x, credits, ManifestOf(k, db.shelf, c, x));
  }

  // ---------- the fallback ----------

  /** After an applied completion the worker's fallback failure, and any other end of the same claim, is refused at
      any later time: nothing changes. */
  lemma FallbackRefused(k: Codec, s: Site, c: Claim, x: Request, acts: seq<Act>, a: Act)
    requires SiteOk(s) && Issued(s.issued, c) && CompleteTx(k, s.db, c, x, true, s.now).Some?
    requires (a.Completion? || a.Failure?) && a.owner == c.owner
    ensures var after := AdvanceAll(k, Advance(k, s, Completion(c.owner, x, true)), acts); Advance(k, after, a) == after
  {
    var done := Completion(c.owner, x, true);
    var s1 := Advance(k, s, done);
    EndLoses(WorldOf(s), EventOf(k, s, done), c.owner);
    LostForever(WorldOf(s1), Events(k, s1, acts), c);
    Projects(k, s1, acts);
    ClaimsGrow(WorldOf(s1), Events(k, s1, acts));
    RefusedChangesNothing(k, AdvanceAll(k, s1, acts), a);
  }
}
