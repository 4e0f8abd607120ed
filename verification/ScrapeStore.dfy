/** The transactions over the database, statement by statement. A transaction that meets a failed statement restores
    the snapshot it started from. */
module ScrapeStore {
  import opened Basics
  import opened ScrapeQueue
  import opened ScrapeLedger
  import opened ScrapeFinish
  import opened ScrapeInvariants
  import opened PreparedSeries
  import CreditManifest

  class Store {
    var queue: Queue
    var shelf: Shelf
    var ledger: Ledger

    function View(): Db
      reads this
    {
      Db(queue, shelf, ledger)
    }

    constructor (db: Db)
      ensures View() == db
    {
      queue, shelf, ledger := db.queue, db.shelf, db.ledger;
    }

    method Rollback(saved: Db)
      modifies this
      ensures View() == saved
    {
      queue, shelf, ledger := saved.queue, saved.shelf, saved.ledger;
    }

    // ---------- claim and renew ----------

    method Claim(id: Key, owner: nat, ready: bool, now: int) returns (c: Option<ScrapeQueue.Claim>)
      modifies `queue
      ensures if Claimable(old(queue), id, ready, now)
              then c == Some(ClaimOf(old(queue), id, owner)) && queue == Claimed(old(queue), id, owner, now)
              else c.None? && queue == old(queue)
    {
      if id !in queue.tasks || !Due(queue.tasks[id], now) || !Eligible(queue, queue.tasks[id], ready) {
        return None;
      }
      var t := TaskClaimed(queue.tasks[id], owner, now);
      queue := queue.(tasks := queue.tasks[id := t]);
      if t.link.Some? {
        var step := t.link.value.step;
        queue := queue.(steps := queue.steps[step := StepClaimed(queue.steps[step], t)]);
      }
      c := Some(ScrapeQueue.Claim(id, t.media, t.link, owner, t.fails, t.round));
    }

    method Renew(c: ScrapeQueue.Claim, now: int) returns (ok: bool)
      modifies `queue
      ensures ok == Owns(old(queue), c)
      ensures queue == if ok then Renewed(old(queue), c, now) else old(queue)
    {
      ok := Owns(queue, c);
      if !ok {
        return;
      }
      var lease := Some(now + LEASE_SECONDS);
      queue := queue.(tasks := queue.tasks[c.task := queue.tasks[c.task].(lease := lease)]);
      if c.link.Some? {
        var step := c.link.value.step;
        queue := queue.(steps := queue.steps[step := queue.steps[step].(lease := lease)]);
      }
    }

    // ---------- fail ----------

    method Fail(c: ScrapeQueue.Claim, message: string, ok: bool, now: int) returns (done: bool)
      modifies this
      ensures var r := FailTx(old(View()), c, message, ok, now); done == r.Some? && View() == OrElse(r, old(View()))
    {
      if !Owns(queue, c) || !ok {
        return false;
      }
      var t := TaskFailed(queue.tasks[c.task], c, message, now);
      queue := queue.(tasks := queue.tasks[c.task := t]);
      if c.link.Some? {
        var step := c.link.value.step;
        queue := queue.(steps := queue.steps[step := StepFailed(queue.steps[step], t, c)]);
      }
      ledger := ledger.(history := ledger.history + [Entry(c.task, c.media, false, message, "")]);
      return true;
    }

    // ---------- complete ----------

    /** The compare-and-set of the series row and then of every sibling; stops at the first row that no longer
        holds what was prepared. */
    method ApplySeries(x: Prepared) returns (ok: bool)
      modifies `shelf
      ensures var r := Apply(old(shelf).series, old(shelf).metas, x);
        ok == r.Some? && (ok ==> shelf == old(shelf).(series := r.value.0, metas := r.value.1))
    {
      if !SeriesHeld(shelf.series, x) {
        return false;
      }
      shelf := shelf.(series := shelf.series[x.id := WithColumns(shelf.series[x.id], x.desired)]);
      ghost var start := shelf;
      for i := 0 to |x.siblings|
        invariant shelf == start.(metas := shelf.metas)
        invariant ApplySiblings(shelf.metas, x.siblings[i..]) == ApplySiblings(start.metas, x.siblings)
      {
        var v := x.siblings[i];
        assert x.siblings[i..][1..] == x.siblings[i + 1..];
        if !SiblingHeld(shelf.metas, v) {
          return false;
        }
        shelf := shelf.(metas := shelf.metas[v.id := Some(v.desired)]);
      }
      return true;
    }

    method WriteShelf(k: Codec, c: ScrapeQueue.Claim, x: Request) returns (ok: bool, committed: string)
      modifies `shelf
      ensures committed == MergedResult(k, old(shelf), c, x)
      ensures ok == ShelfAfter(k, old(shelf), c, x).Some?
      ensures ok ==> shelf == ShelfAfter(k, old(shelf), c, x).value
    {
      committed := x.result;
      if c.media !in shelf.titles || c.media !in shelf.metas {
        return false, committed;
      }
      var merged := k.merge(OrEmpty(shelf.metas[c.media]), x.result);
      if merged.None? {
        return false, committed;
      }
      committed := merged.value.1;
      shelf := shelf.(titles := shelf.titles[c.media := x.title]);
      shelf := shelf.(metas := shelf.metas[c.media := Some(merged.value.0)]);
      ok := true;
      if x.series.Some? {
        ok := ApplySeries(x.series.value);
      }
    }

    method WriteBooks(k: Codec, c: ScrapeQueue.Claim, x: Request, manifest: string) returns (ok: bool)
      modifies `ledger
      ensures ok == LedgerAccepts(old(ledger), c, x, manifest)
      ensures ok ==> ledger == LedgerAfter(k, old(ledger), c, x, manifest)
    {
      if x.images > 0 {
        if !x.intact || c.link.None? || x.stage !in ledger.stages || ledger.stages[x.stage] != Stage(c, Staged) {
          return false;
        }
        var step := c.link.value.step;
        if step in ledger.evidence || exists s | s in ledger.evidence :: ledger.evidence[s].stage == x.stage {
          return false;
        }
        ledger := ledger.(evidence := ledger.evidence[step := Evidence(x.stage, c.link.value, c.media)]);
        ledger := ledger.(stages := ledger.stages[x.stage := Stage(c, Committed)]);
      }
      if x.repair && c.link.Some? {
        var key := Repair(c.media, c.link.value.generation);
        if key !in ledger.repairs {
          ledger := ledger.(repairs := ledger.repairs[key := c.link.value.run]);
        }
      }
      if |manifest| > MANIFEST_LIMIT || KeyOf(c) in ledger.commits {
        return false;
      }
      var digest := k.digest(manifest);
      ledger := ledger.(commits := ledger.commits[KeyOf(c) := Commit(GenerationOf(c), x.stage, manifest, digest)]);
      ledger := ledger.(history := ledger.history + [Entry(c.task, c.media, true, x.message, digest)]);
      return true;
    }

    /** The manifest of a completion, from the normalised credits. */
    method Describe(k: Codec, c: ScrapeQueue.Claim, committed: string, x: Request, cast: seq<CreditManifest.Credit>)
      returns (manifest: string)
      ensures manifest == k.encode(ManifestFor(k, c, committed, x, cast))
    {
      var keys := CreditManifest.Keys(k.notation, cast);
      var media := k.sum(committed);
      CreditManifest.KeysCount(k.notation, cast);
      manifest := k.encode(Manifest(c.task, c.attempts, GenerationOf(c), x.stage, media, k.place(x.library, c.media, media),
                                    k.cast(keys), |keys|, x.repair, x.images));
    }

    /** The body of the completing transaction. Whatever statement fails, everything is undone. */
    method Complete(k: Codec, c: ScrapeQueue.Claim, x: Request, ok: bool, now: int) returns (done: bool, manifest: string)
      modifies this
      ensures var r := CompleteTx(k, old(View()), c, x, ok, now); done == r.Some? && View() == OrElse(r, old(View()))
      ensures done ==> manifest == ManifestOf(k, old(shelf), c, x)
    {
      var saved := View();
      var cast := CreditManifest.Normalize(k.notation, x.credits);
      manifest := "";
      if !Owns(queue, c) {
        return false, manifest;
      }
      queue := queue.(tasks := queue.tasks[c.task := TaskDone(queue.tasks[c.task], x.message, now)]);
      var committed;
      done, committed := WriteShelf(k, c, x);
      manifest := Describe(k, c, committed, x, cast);
      if done {
        done := WriteBooks(k, c, x, manifest);
      }
      if done && c.link.Some? {
        var step := c.link.value.step;
        queue := queue.(steps := queue.steps[step := StepDone(queue.steps[step], now)]);
      }
      if !done || !ok {
        done := false;
        Rollback(saved);
      }
    }

    // ---------- the worker's last act ----------

    /** Completes until a try does not end busy or the tries are over. */
    method CompleteBusy(k: Codec, c: ScrapeQueue.Claim, x: Request, tries: seq<Try>, now: int) returns (told: Told)
      modifies this
      ensures (View(), told) == Tried(k, old(View()), c, x, tries, now)
    {
      var request := x;
      for i := 0 to |tries|
        invariant Tried(k, View(), c, request, tries[i..], now) == Tried(k, old(View()), c, x, tries, now)
      {
        var saved := View();
        assert tries[i..][1..] == tries[i + 1..];
        var last := i + 1 == |tries|;
        match tries[i] {
          case Busy(late) =>
            if last || (late && !Owns(queue, c)) {
              return Refused;
            }
            if late {
              request := Merging(k, shelf, c, request);
            }
          case Broken =>
            return Refused;
          case Confirmed =>
            var done, _ := Complete(k, c, request, true, now);
            return if done then Success else Refused;
          case Unknown(applied, busy) =>
            var done, manifest := Complete(k, c, request, true, now);
            if !done {
              return Refused;
            }
            if !applied {
              Rollback(saved);
            }
            if last || !busy {
              return Uncertain(manifest);
            }
            request := Merging(k, saved.shelf, c, request);
        }
      }
      return Refused;
    }

    /** Completing, settling a commit of unknown outcome, and failing the claim as a fallback. */
    method Finish(k: Codec, c: ScrapeQueue.Claim, x: Request, tries: seq<Try>, fallback: bool, message: string, now: int)
      returns (success: bool)
      modifies this
      ensures (View(), success) == Finished(k, old(View()), c, x, tries, fallback, message, now)
    {
      var told := CompleteBusy(k, c, x, tries, now);
      match told {
        case Success => success := true;
        case Uncertain(manifest) => success := Verdict(k, View(), c, x, manifest);
        case Refused => success := false;
      }
      if !success {
        var _ := Fail(c, message, fallback, now);
      }
    }

    // ---------- the reaper ----------

    /** Four statements, each with its own clock reading. Expired leases are taken back; steps and tasks that agreed go on
        doing so exactly if no lease of a linked task ran out in between. */
    method Recover(m: Moments, ghost issued: seq<ScrapeQueue.Claim>)
      modifies `queue
      ensures queue == Reaped(old(queue), m)
      ensures Inv(old(queue), issued) ==> Inv(queue, issued)
      ensures Inv(old(queue), issued) && Agreement(old(queue)) && Ordered(m) ==>
        (Agreement(queue) <==> forall id | id in old(queue).tasks :: !Torn(old(queue).tasks[id], m))
    {
      ghost var was := queue;
      queue := ReapSteps(queue, false, m.t1);
      queue := ReapTasks(queue, false, m.t2);
      queue := ReapSteps(queue, true, m.t3);
      queue := ReapTasks(queue, true, m.t4);
      if Inv(was, issued) {
        ReapKeeps(was, issued, m);
        if Agreement(was) && Ordered(m) {
          ReapAgreesExact(was, issued, m);
        }
      }
    }
  }
}
