/** The whole database behind a scrape: the queue, the library rows that a finished scrape rewrites, and the books that
    record what was done. Every transaction either commits as a whole or leaves the database as it was. */
module ScrapeLedger {
  import opened Basics
  import opened ScrapeQueue
  import opened ScrapeInvariants
  import opened ScrapeSettled
  import opened ScrapeRuns
  import opened PreparedSeries
  import CreditManifest

  const MANIFEST_LIMIT := 65536

  datatype Shelf = Shelf(titles: map<Key, string>, metas: Metas, series: map<Key, Series>)

  datatype CommitKey = CommitKey(task: Key, attempt: int, round: nat)

  datatype Commit = Commit(generation: int, stage: string, manifest: string, digest: string)

  datatype StageState = Staged | Quarantined | Committed

  datatype Stage = Stage(claim: Claim, state: StageState)

  datatype Evidence = Evidence(stage: string, link: Link, media: Key)

  datatype Repair = Repair(media: Key, generation: int)

  datatype Entry = Entry(task: Key, media: Key, done: bool, message: string, digest: string)

  datatype Ledger = Ledger(commits: map<CommitKey, Commit>, stages: map<string, Stage>, evidence: map<Key, Evidence>,
                           repairs: map<Repair, Key>, history: seq<Entry>)

  datatype Db = Db(queue: Queue, shelf: Shelf, ledger: Ledger)

  /** What a worker hands over with its result. */
  datatype Request = Request(message: string, title: string, result: string, stage: string, images: nat, intact: bool,
                             series: Option<Prepared>, library: nat, credits: seq<CreditManifest.Credit>, repair: bool)

  /** What a completion commits, as the settling query will look for it. The retry round is not part of it. */
  datatype Manifest = Manifest(task: Key, attempt: int, generation: int, stage: string, media: string, series: string,
                               credits: string, count: nat, repair: bool, artwork: nat)

  /** The JSON and hash functions: merging a result into a medium's document, which also yields the result as it is
      committed; the digests of that result, of the place of its medium, and of the sorted credit keys; the text of a
      manifest; and the digest of that text. */
  datatype Codec = Codec(merge: (string, string) -> Option<(string, string)>, sum: string -> string,
                         place: (nat, Key, string) -> string, cast: seq<string> -> string, encode: Manifest -> string,
                         digest: string -> string, notation: CreditManifest.Notation)

  function KeyOf(c: Claim): CommitKey {
    CommitKey(c.task, c.attempts, c.round)
  }

  function GenerationOf(c: Claim): int {
    if c.link.Some? then c.link.value.generation else 0
  }

  // ---------- completing ----------

  function Merged(k: Codec, s: Shelf, c: Claim, x: Request): Option<(string, string)> {
    if c.media in s.titles && c.media in s.metas then k.merge(OrEmpty(s.metas[c.media]), x.result) else None
  }

  function ShelfAfter(k: Codec, s: Shelf, c: Claim, x: Request): Option<Shelf> {
    var m := Merged(k, s, c, x);
    if m.None? then None
    else
      var titles, metas := s.titles[c.media := x.title], s.metas[c.media := Some(m.value.0)];
      if x.series.None? then Some(Shelf(titles, metas, s.series))
      else
        var applied := Apply(s.series, metas, x.series.value);
        if applied.None? then None else Some(Shelf(titles, applied.value.1, applied.value.0))
  }

  function ManifestFor(k: Codec, c: Claim, committed: string, x: Request, cast: seq<CreditManifest.Credit>): Manifest {
    Manifest(c.task, c.attempts, GenerationOf(c), x.stage, k.sum(committed), k.place(x.library, c.media, k.sum(committed)),
             k.cast(CreditManifest.SortedKeys(k.notation, cast)), |cast|, x.repair, x.images)
  }

  /** The result as it would be committed. */
  function MergedResult(k: Codec, s: Shelf, c: Claim, x: Request): string {
    var m := Merged(k, s, c, x);
    if m.Some? then m.value.1 else x.result
  }

  /** The text of the manifest that the completion would commit; the credits are normalised first. */
  function ManifestOf(k: Codec, s: Shelf, c: Claim, x: Request): string {
    k.encode(ManifestFor(k, c, MergedResult(k, s, c, x), x, CreditManifest.Normalized(k.notation, x.credits)))
  }

  predicate ArtworkReady(g: Ledger, c: Claim, x: Request) {
    x.images > 0 ==>
      && x.intact && c.link.Some? && x.stage in g.stages && g.stages[x.stage] == Stage(c, Staged)
      && c.link.value.step !in g.evidence && forall s | s in g.evidence :: g.evidence[s].stage != x.stage
  }

  function WithArtwork(g: Ledger, c: Claim, x: Request): Ledger
    requires ArtworkReady(g, c, x)
  {
    if x.images == 0 then g
    else
      g.(evidence := g.evidence[c.link.value.step := Evidence(x.stage, c.link.value, c.media)],
         stages := g.stages[x.stage := Stage(c, Committed)])
  }

  function WithRepair(g: Ledger, c: Claim, x: Request): Ledger {
    if x.repair && c.link.Some? && Repair(c.media, c.link.value.generation) !in g.repairs
    then g.(repairs := g.repairs[Repair(c.media, c.link.value.generation) := c.link.value.run]) else g
  }

  predicate LedgerAccepts(g: Ledger, c: Claim, x: Request, manifest: string) {
    ArtworkReady(g, c, x) && |manifest| <= MANIFEST_LIMIT && KeyOf(c) !in g.commits
  }

  function LedgerAfter(k: Codec, g: Ledger, c: Claim, x: Request, manifest: string): Ledger
    requires LedgerAccepts(g, c, x, manifest)
  {
    var g' := WithRepair(WithArtwork(g, c, x), c, x);
    g'.(commits := g'.commits[KeyOf(c) := Commit(GenerationOf(c), x.stage, manifest, k.digest(manifest))],
        history := g'.history + [Entry(c.task, c.media, true, x.message, k.digest(manifest))])
  }

  /** The transaction of a completion; None when it is rolled back. `ok` stands for what the model does not see:
      the cast import, the publication rules, and the database itself. */
  function CompleteTx(k: Codec, db: Db, c: Claim, x: Request, ok: bool, now: int): Option<Db> {
    var shelf, manifest := ShelfAfter(k, db.shelf, c, x), ManifestOf(k, db.shelf, c, x);
    if ok && Owns(db.queue, c) && shelf.Some? && LedgerAccepts(db.ledger, c, x, manifest)
    then Some(Db(DoneBy(db.queue, c, x.message, now), shelf.value, LedgerAfter(k, db.ledger, c, x, manifest)))
    else None
  }

  function FailTx(db: Db, c: Claim, message: string, ok: bool, now: int): Option<Db> {
    if ok && Owns(db.queue, c)
    then Some(db.(queue := FailedBy(db.queue, c, message, now),
                  ledger := db.ledger.(history := db.ledger.history + [Entry(c.task, c.media, false, message, "")])))
    else None
  }

  // ---------- the query that settles an uncertain commit ----------

  function Twin(c: Claim, digest: string): Entry -> bool {
    (e: Entry) => e.task == c.task && e.done && e.digest == digest
  }

  predicate ArtworkShown(g: Ledger, c: Claim, x: Request) {
    && c.link.Some? && c.link.value.step in g.evidence
    && g.evidence[c.link.value.step] == Evidence(x.stage, c.link.value, c.media)
    && x.stage in g.stages && g.stages[x.stage].state == Committed
  }

  /** Exactly one finished history row joins the task and the commit row, and a named stage has its evidence. */
  predicate Verdict(k: Codec, db: Db, c: Claim, x: Request, manifest: string) {
    && c.task in db.queue.tasks && db.queue.tasks[c.task].media == c.media && db.queue.tasks[c.task].status == Done
    && KeyOf(c) in db.ledger.commits
    && db.ledger.commits[KeyOf(c)].generation == GenerationOf(c)
    && db.ledger.commits[KeyOf(c)].manifest == manifest && db.ledger.commits[KeyOf(c)].digest == k.digest(manifest)
    && Count(db.ledger.history, Twin(c, k.digest(manifest))) == 1
    && (x.stage != "" ==> ArtworkShown(db.ledger, c, x))
  }

  // ---------- runs of the whole database ----------

  datatype Site = Site(db: Db, issued: seq<Claim>, now: int)

  datatype Act =
    | Plain(ev: Event)
    | Completion(owner: nat, request: Request, ok: bool)
    | Failure(owner: nat, message: string, ok: bool)
    | Reserve(owner: nat, stage: string)
    | Discard(owner: nat, stage: string)
    | Quarantine(stage: string)
    | Edit(shelf: Shelf)

  function WorldOf(s: Site): World {
    World(s.db.queue, s.issued, s.now)
  }

  /** What the queue sees of an act. The ends of claims go through Completion and Failure only. */
  function EventOf(k: Codec, s: Site, a: Act): Event {
    match a
    case Plain(ev) => if ev.Fail? || ev.Complete? then Tick(0) else ev
    case Completion(o, x, ok) => Complete(o, x.message, o < |s.issued| && CompleteTx(k, s.db, s.issued[o], x, ok, s.now).Some?)
    case Failure(o, message, ok) => Fail(o, message, ok)
    case _ => Tick(0)
  }

  /** The claim still holds an unexpired lease on both rows. */
  predicate Leased(s: Site, owner: nat) {
    && OwnedBy(WorldOf(s), owner) && s.issued[owner].link.Some?
    && !Expired(s.db.queue.tasks[s.issued[owner].task].lease, s.now + 1)
    && !Expired(s.db.queue.steps[s.issued[owner].link.value.step].lease, s.now + 1)
  }

  function LedgerNext(k: Codec, s: Site, a: Act): Ledger {
    var g := s.db.ledger;
    match a
    case Completion(o, x, ok) =>
      if o < |s.issued| && CompleteTx(k, s.db, s.issued[o], x, ok, s.now).Some?
      then CompleteTx(k, s.db, s.issued[o], x, ok, s.now).value.ledger else g
    case Failure(o, message, ok) =>
      if o < |s.issued| && FailTx(s.db, s.issued[o], message, ok, s.now).Some?
      then FailTx(s.db, s.issued[o], message, ok, s.now).value.ledger else g
    case Reserve(o, stage) =>
      if Leased(s, o) && stage !in g.stages then g.(stages := g.stages[stage := Stage(s.issued[o], Staged)]) else g
    case Discard(o, stage) =>
      if Leased(s, o) && stage in g.stages && KeyOf(g.stages[stage].claim) == KeyOf(s.issued[o])
      then g.(stages := map t | t in g.stages && t != stage :: g.stages[t]) else g
    case Quarantine(stage) =>
      if stage in g.stages && g.stages[stage].state == Staged
      then g.(stages := g.stages[stage := g.stages[stage].(state := Quarantined)]) else g
    case _ => g
  }

  function ShelfNext(k: Codec, s: Site, a: Act): Shelf {
    match a
    case Completion(o, x, ok) =>
      if o < |s.issued| && CompleteTx(k, s.db, s.issued[o], x, ok, s.now).Some?
      then CompleteTx(k, s.db, s.issued[o], x, ok, s.now).value.shelf else s.db.shelf
    case Edit(shelf) => shelf
    case _ => s.db.shelf
  }

  ghost function Advance(k: Codec, s: Site, a: Act): Site {
    var w := Next(WorldOf(s), EventOf(k, s, a));
    Site(Db(w.queue, ShelfNext(k, s, a), LedgerNext(k, s, a)), w.issued, w.now)
  }

  ghost function AdvanceAll(k: Codec, s: Site, acts: seq<Act>): Site
    decreases |acts|
  {
    if acts == [] then s else AdvanceAll(k, Advance(k, s, acts[0]), acts[1..])
  }

  ghost function Events(k: Codec, s: Site, acts: seq<Act>): seq<Event>
    decreases |acts|
  {
    if acts == [] then [] else [EventOf(k, s, acts[0])] + Events(k, Advance(k, s, acts[0]), acts[1..])
  }

  /** Seen from the queue, a run of the database is a run of the queue; all that was proved about those holds here. */
  lemma {:induction false} Projects(k: Codec, s: Site, acts: seq<Act>)
    ensures WorldOf(AdvanceAll(k, s, acts)) == After(WorldOf(s), Events(k, s, acts))
    decreases |acts|
  {
    if acts != [] {
      Projects(k, Advance(k, s, acts[0]), acts[1..]);
      assert Events(k, s, acts)[1..] == Events(k, Advance(k, s, acts[0]), acts[1..]);
    }
  }

  /** The act ends the claim of its worker. */
  predicate EndsIn(k: Codec, s: Site, a: Act) {
    (a.Completion? || a.Failure?) && Ends(WorldOf(s), EventOf(k, s, a), a.owner)
  }

  function EntryOf(k: Codec, s: Site, a: Act): Entry
    requires EndsIn(k, s, a)
  {
    var c := s.issued[a.owner];
    match a
    case Completion(_, x, _) => Entry(c.task, c.media, true, x.message, k.digest(ManifestOf(k, s.db.shelf, c, x)))
    case Failure(_, message, _) => Entry(c.task, c.media, false, message, "")
  }

  /** The end of a claim writes one history row, and nothing else writes history; only a completion writes a
      commit row, under a key that was free. */
  lemma BooksMove(k: Codec, s: Site, a: Act)
    ensures var g, g' := s.db.ledger, Advance(k, s, a).db.ledger;
      && g'.history == (if EndsIn(k, s, a) then g.history + [EntryOf(k, s, a)] else g.history)
      && (if EndsIn(k, s, a) && a.Completion? then
            && KeyOf(s.issued[a.owner]) !in g.commits
            && g'.commits == g.commits[KeyOf(s.issued[a.owner]) := g'.commits[KeyOf(s.issued[a.owner])]]
          else g'.commits == g.commits)
  {
    if a.Completion? && EndsIn(k, s, a) {
      var c, x := s.issued[a.owner], a.request;
      CompletionBooks(k, s.db.ledger, c, x, ManifestOf(k, s.db.shelf, c, x));
    }
  }

  lemma CompletionBooks(k: Codec, g: Ledger, c: Claim, x: Request, manifest: string)
    requires LedgerAccepts(g, c, x, manifest)
    ensures var g' := LedgerAfter(k, g, c, x, manifest);
      && g'.history == g.history + [Entry(c.task, c.media, true, x.message, k.digest(manifest))]
      && KeyOf(c) !in g.commits && g'.commits == g.commits[KeyOf(c) := g'.commits[KeyOf(c)]]
  {
  }

  /** A refused or rolled back end changes nothing at all: no row of the queue, of the library or of the books. */
  lemma RefusedChangesNothing(k: Codec, s: Site, a: Act)
    requires a.Completion? || a.Failure?
    requires !EndsIn(k, s, a)
    ensures Advance(k, s, a) == s
  {
  }

  // ---------- what a finished task keeps ----------

  /** A done task stays as it is until someone queues it again. */
  lemma DoneStays(w: World, ev: Event, id: Key)
    requires WorldOk(w) && id in w.queue.tasks && w.queue.tasks[id].status == Done
    requires !(ev.Requeue? && ev.task == id)
    ensures id in Next(w, ev).queue.tasks && Next(w, ev).queue.tasks[id] == w.queue.tasks[id]
  {
    if OfWorkers(ev) {
      WorkersLeaveDone(w, ev, id);
    } else if OfUpkeep(ev) {
      UpkeepLeavesDone(w, ev, id);
    } else {
      OthersLeaveDone(w, ev, id);
    }
  }

  lemma WorkersLeaveDone(w: World, ev: Event, id: Key)
    requires id in w.queue.tasks && w.queue.tasks[id].status == Done && OfWorkers(ev)
    ensures id in Next(w, ev).queue.tasks && Next(w, ev).queue.tasks[id] == w.queue.tasks[id]
  {
  }

  lemma UpkeepLeavesDone(w: World, ev: Event, id: Key)
    requires id in w.queue.tasks && w.queue.tasks[id].status == Done && OfUpkeep(ev)
    ensures id in Next(w, ev).queue.tasks && Next(w, ev).queue.tasks[id] == w.queue.tasks[id]
  {
    if ev.Aggregate? && Enabled(w, ev) {
      AggregatedTask(w.queue, ev.run, ev.others, ev.preserve, ev.reason, w.now, id);
    }
  }

  lemma OthersLeaveDone(w: World, ev: Event, id: Key)
    requires id in w.queue.tasks && w.queue.tasks[id].status == Done && !OfWorkers(ev) && !OfUpkeep(ev)
    requires !(ev.Requeue? && ev.task == id)
    ensures id in Next(w, ev).queue.tasks && Next(w, ev).queue.tasks[id] == w.queue.tasks[id]
  {
  }

  /** A done step stays done. */
  lemma DoneStepStays(w: World, ev: Event, step: Key)
    requires WorldOk(w) && step in w.queue.steps && w.queue.steps[step].status == Done
    ensures step in Next(w, ev).queue.steps && Next(w, ev).queue.steps[step].status == Done
  {
    if OfWorkers(ev) {
      WorkersLeaveDoneStep(w, ev, step);
    } else if OfUpkeep(ev) {
      UpkeepLeavesDoneStep(w, ev, step);
    } else {
      OthersLeaveDoneStep(w, ev, step);
    }
  }

  lemma WorkersLeaveDoneStep(w: World, ev: Event, step: Key)
    requires WorldOk(w) && step in w.queue.steps && w.queue.steps[step].status == Done && OfWorkers(ev)
    ensures step in Next(w, ev).queue.steps && Next(w, ev).queue.steps[step].status == Done
  {
  }

  lemma UpkeepLeavesDoneStep(w: World, ev: Event, step: Key)
    requires WorldOk(w) && step in w.queue.steps && w.queue.steps[step].status == Done && OfUpkeep(ev)
    ensures step in Next(w, ev).queue.steps && Next(w, ev).queue.steps[step].status == Done
  {
    if ev.Aggregate? && Enabled(w, ev) {
      AggregatedStep(w.queue, ev.run, ev.others, ev.preserve, ev.reason, w.now, step);
    }
  }

  lemma OthersLeaveDoneStep(w: World, ev: Event, step: Key)
    requires WorldOk(w) && step in w.queue.steps && w.queue.steps[step].status == Done && !OfWorkers(ev) && !OfUpkeep(ev)
    ensures step in Next(w, ev).queue.steps && Next(w, ev).queue.steps[step].status == Done
  {
  }
}
