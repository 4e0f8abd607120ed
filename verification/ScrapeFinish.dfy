/** The worker's last act: it completes its claim, again and again while the database is busy; asks the database when the
    commit's outcome is unknown; and fails the claim if it is not told that the completion went through. */
module ScrapeFinish {
  import opened Basics
  import opened ScrapeQueue
  import opened ScrapeInvariants
  import opened ScrapeRuns
  import opened ScrapeLedger
  import opened ScrapeReconcile
  import ScrapeMerge

  /** How one transaction ends: rolled back because the database was busy, before or after the result was merged; rolled
      back for any other reason; confirmed; or with a commit that reports an error, busy or not, applied or not. */
  datatype Try = Busy(late: bool) | Broken | Confirmed | Unknown(applied: bool, busy: bool)

  datatype Told = Success | Uncertain(manifest: string) | Refused

  /** Merging replaces the result that the worker holds, also for the tries that follow. */
  function Merging(k: Codec, s: Shelf, c: Claim, x: Request): Request {
    x.(result := MergedResult(k, s, c, x))
  }

  /** A busy error is tried again while there is time, even one of a commit. */
  function Tried(k: Codec, db: Db, c: Claim, x: Request, tries: seq<Try>, now: int): (Db, Told)
    decreases |tries|
  {
    if tries == [] then (db, Refused)
    else
      var r, rest := CompleteTx(k, db, c, x, true, now), tries[1..];
      match tries[0]
      case Busy(late) =>
        if rest == [] || (late && !Owns(db.queue, c)) then (db, Refused)
        else Tried(k, db, c, if late then Merging(k, db.shelf, c, x) else x, rest, now)
      case Broken => (db, Refused)
      case Confirmed => if r.Some? then (r.value, Success) else (db, Refused)
      case Unknown(applied, busy) =>
        if r.None? then (db, Refused)
        else if busy && rest != [] then Tried(k, if applied then r.value else db, c, Merging(k, db.shelf, c, x), rest, now)
        else (if applied then r.value else db, Uncertain(ManifestOf(k, db.shelf, c, x)))
  }

  /** Only an uncertain commit is asked about. */
  predicate Believed(k: Codec, db: Db, c: Claim, x: Request, told: Told) {
    told.Success? || (told.Uncertain? && Verdict(k, db, c, x, told.manifest))
  }

  /** The rows in the end, and whether the claim is reported as done. `fallback` says whether the failing transaction
      goes through, `message` is its message. */
  function Finished(k: Codec, db: Db, c: Claim, x: Request, tries: seq<Try>, fallback: bool, message: string, now: int): (Db, bool) {
    var t := Tried(k, db, c, x, tries, now);
    if Believed(k, t.0, c, x, t.1) then (t.0, true) else (OrElse(FailTx(t.0, c, message, fallback, now), t.0), false)
  }

  // ---------- what becomes of the claim ----------

  /** Merging a merged result again into the same document changes nothing. */
  ghost predicate Idempotent(k: Codec) {
    forall d, r | k.merge(d, r).Some? :: k.merge(d, k.merge(d, r).value.1) == k.merge(d, r)
  }

  /** The merge of the source is of this kind. */
  lemma MergeIsIdempotent(k: Codec, j: ScrapeMerge.Json)
    requires ScrapeMerge.Follows(k.merge, j)
    ensures Idempotent(k)
  {
    forall d, r ensures k.merge(d, k.merge(d, r).value.1) == k.merge(d, r) {
      ScrapeMerge.CommittedAgain(j.readDocument(d), j.readResult(r));
    }
  }

  lemma MergingAgain(k: Codec, db: Db, c: Claim, x: Request, now: int)
    requires Idempotent(k)
    ensures var y := Merging(k, db.shelf, c, x);
      && ManifestOf(k, db.shelf, c, y) == ManifestOf(k, db.shelf, c, x)
      && CompleteTx(k, db, c, y, true, now) == CompleteTx(k, db, c, x, true, now)
  {
    var y, s := Merging(k, db.shelf, c, x), db.shelf;
    assert Merged(k, s, c, y) == Merged(k, s, c, x);
    assert ShelfAfter(k, s, c, y) == ShelfAfter(k, s, c, x);
    ResultsUnseen(k, db.ledger, c, x, y.result, ManifestOf(k, s, c, x));
  }

  lemma ResultsUnseen(k: Codec, g: Ledger, c: Claim, x: Request, result: string, manifest: string)
    ensures var y := x.(result := result);
      && LedgerAccepts(g, c, y, manifest) == LedgerAccepts(g, c, x, manifest)
      && (LedgerAccepts(g, c, x, manifest) ==> LedgerAfter(k, g, c, y, manifest) == LedgerAfter(k, g, c, x, manifest))
  {
  }

  /** The try whose commit was applied: the first that was neither busy nor, busy, lost. */
  function Landing(tries: seq<Try>): Option<nat>
    decreases |tries|
  {
    if tries == [] then None
    else if tries[0].Confirmed? || (tries[0].Unknown? && tries[0].applied) then Some(0)
    else if tries[0].Broken? || (tries[0].Unknown? && !tries[0].busy) then None
    else
      var i := Landing(tries[1..]);
      if i.Some? then Some(i.value + 1) else None
  }

  lemma LostIsRefused(k: Codec, db: Db, c: Claim, x: Request, tries: seq<Try>, now: int)
    requires !Owns(db.queue, c)
    ensures Tried(k, db, c, x, tries, now) == (db, Refused)
    decreases |tries|
  {
  }

  lemma RefusedIsRefused(k: Codec, db: Db, c: Claim, x: Request, tries: seq<Try>, now: int)
    requires CompleteTx(k, db, c, x, true, now).None? && Idempotent(k)
    ensures Tried(k, db, c, x, tries, now) == (db, Refused)
    decreases |tries|
  {
    if tries != [] && tries[0].Busy? && tries[1..] != [] {
      MergingAgain(k, db, c, x, now);
      RefusedIsRefused(k, db, c, if tries[0].late then Merging(k, db.shelf, c, x) else x, tries[1..], now);
    }
  }

  lemma CompletedIsLost(k: Codec, db: Db, c: Claim, x: Request, now: int)
    requires CompleteTx(k, db, c, x, true, now).Some?
    ensures !Owns(CompleteTx(k, db, c, x, true, now).value.queue, c)
  {
  }

  /** The retry comes after the commit that was applied. */
  predicate Overtaken(tries: seq<Try>, i: nat)
    requires i < |tries|
  {
    tries[i].Unknown? && tries[i].busy && i + 1 < |tries|
  }

  lemma TriedExact(k: Codec, db: Db, c: Claim, x: Request, tries: seq<Try>, now: int)
    requires CompleteTx(k, db, c, x, true, now).Some? && Idempotent(k)
    ensures var t, i := Tried(k, db, c, x, tries, now), Landing(tries);
      if i.None? then t.0 == db && !t.1.Success? && (t.1.Uncertain? ==> t.1.manifest == ManifestOf(k, db.shelf, c, x))
      else
        && t.0 == CompleteTx(k, db, c, x, true, now).value && i.value < |tries|
        && t.1 == if tries[i.value].Confirmed? then Success
                  else if Overtaken(tries, i.value) then Refused
                  else Uncertain(ManifestOf(k, db.shelf, c, x))
    decreases |tries|
  {
    if tries != [] {
      var rest, y := tries[1..], Merging(k, db.shelf, c, x);
      MergingAgain(k, db, c, x, now);
      match tries[0]
      case Busy(late) =>
        if rest != [] {
          TriedExact(k, db, c, if late then y else x, rest, now);
        }
      case Unknown(applied, busy) =>
        if busy && rest != [] {
          if applied {
            CompletedIsLost(k, db, c, x, now);
            LostIsRefused(k, CompleteTx(k, db, c, x, true, now).value, c, y, rest, now);
          } else {
            TriedExact(k, db, c, y, rest, now);
          }
        }
      case _ =>
    }
  }

  /** What the worker is told, and what it leaves behind. If the completion was refused, or no commit of it was applied, the
      claim is reported as failed and the fallback runs. If one was applied, the rows are those of the completion, whatever
      the worker goes on to believe; and it believes so exactly if the commit was confirmed, or if it was the last try and
      the query sees it. A busy error of an applied commit is tried again, is then refused, and nobody asks. */
  lemma FinishExact(k: Codec, s: Site, c: Claim, x: Request, tries: seq<Try>, fallback: bool, message: string)
    requires SiteOk(s) && Issued(s.issued, c) && Idempotent(k)
    ensures var f, r, i := Finished(k, s.db, c, x, tries, fallback, message, s.now), CompleteTx(k, s.db, c, x, true, s.now), Landing(tries);
      if r.None? || i.None? then f == (OrElse(FailTx(s.db, c, message, fallback, s.now), s.db), false)
      else
        && i.value < |tries| && f.0 == r.value
        && (f.1 <==> tries[i.value].Confirmed?
                     || (&& !Overtaken(tries, i.value)
                         && Count(s.db.ledger.history, Twin(c, k.digest(ManifestOf(k, s.db.shelf, c, x)))) == 0
                         && (x.stage == "" || x.images > 0)))
  {
    var r := CompleteTx(k, s.db, c, x, true, s.now);
    if r.None? {
      RefusedIsRefused(k, s.db, c, x, tries, s.now);
    } else {
      AcceptedExact(k, s, c, x, tries);
      VerdictAtOnce(k, s, c, x);
    }
  }

  lemma AcceptedExact(k: Codec, s: Site, c: Claim, x: Request, tries: seq<Try>)
    requires SiteOk(s) && Issued(s.issued, c) && Idempotent(k) && CompleteTx(k, s.db, c, x, true, s.now).Some?
    ensures var t, r, i := Tried(k, s.db, c, x, tries, s.now), CompleteTx(k, s.db, c, x, true, s.now).value, Landing(tries);
      if i.None? then t.0 == s.db && !Believed(k, t.0, c, x, t.1)
      else
        && i.value < |tries| && t.0 == r && !Owns(r.queue, c)
        && (Believed(k, t.0, c, x, t.1) <==>
              tries[i.value].Confirmed? || (!Overtaken(tries, i.value) && Verdict(k, r, c, x, ManifestOf(k, s.db.shelf, c, x))))
  {
    TriedExact(k, s.db, c, x, tries, s.now);
    VerdictAtOnce(k, s, c, x);
    CompletedIsLost(k, s.db, c, x, s.now);
  }

  lemma VerdictAtOnce(k: Codec, s: Site, c: Claim, x: Request)
    requires SiteOk(s) && Issued(s.issued, c) && CompleteTx(k, s.db, c, x, true, s.now).Some?
    ensures var manifest := ManifestOf(k, s.db.shelf, c, x);
      && !Verdict(k, s.db, c, x, manifest)
      && (Verdict(k, CompleteTx(k, s.db, c, x, true, s.now).value, c, x, manifest) <==>
            Count(s.db.ledger.history, Twin(c, k.digest(manifest))) == 0 && (x.stage == "" || x.images > 0))
  {
    ReconcileExact(k, s, c, x, true, []);
    ReconcileExact(k, s, c, x, false, []);
    CompletionShows(k, s, c, x);
  }

  lemma CompletionShows(k: Codec, s: Site, c: Claim, x: Request)
    requires Issued(s.issued, c) && CompleteTx(k, s.db, c, x, true, s.now).Some?
    ensures Advance(k, s, Completion(c.owner, x, true)).db == CompleteTx(k, s.db, c, x, true, s.now).value
  {
  }
}
