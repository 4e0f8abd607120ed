/** Series effects of a finished scrape: a snapshot with the wanted values is prepared before the
    transaction, and the transaction compares and sets every row of it. */
module PreparedSeries {
  import opened Basics
  import Text

  datatype Series = Series(library: int, title: Option<string>, poster: Option<string>, tmdb: Option<string>,
                           tvdb: Option<string>, meta: Option<string>)

  /** The five columns a completion may rewrite, with NULL read as the empty string. */
  datatype Columns = Columns(title: string, poster: string, tmdb: string, tvdb: string, meta: string)

  function ColumnsOf(s: Series): Columns {
    Columns(OrEmpty(s.title), OrEmpty(s.poster), OrEmpty(s.tmdb), OrEmpty(s.tvdb), OrEmpty(s.meta))
  }

  function WithColumns(s: Series, c: Columns): Series {
    Series(s.library, Some(c.title), Some(c.poster), Some(c.tmdb), Some(c.tvdb), Some(c.meta))
  }

  datatype Sibling = Sibling(id: Key, original: string, desired: string)

  datatype Prepared = Prepared(id: Key, original: Columns, desired: Columns, siblings: seq<Sibling>)

  /** The show-level fields of a scrape result; an absent `extra` is all empty. */
  datatype Scraped = Scraped(title: string, poster: string, overview: string, backdrop: string,
                             seriesTitle: string, seriesPoster: string, seriesOverview: string, seriesBackdrop: string,
                             tmdb: string, tvdb: string)

  /** The JSON work, kept abstract: reading the old overview and backdrop, building the series
      document, and merging the shared fields into a sibling's document, which may fail. */
  datatype Json = Json(
    overview: string -> Option<string>, backdrop: string -> Option<string>,
    document: (Columns, string, string) -> string,
    merge: (string, Columns, string, string) -> Option<string>)

  // ---------- preparation ----------

  function Given(value: string, fallback: string): string {
    if Text.Trim(value) != "" then value else fallback
  }

  function Stated(value: string, fallback: string): string {
    var v := Text.Trim(value);
    if v != "" then v else fallback
  }

  /** An established title is kept once a second episode is linked. */
  predicate KeepsTitle(title: string, linked: int) {
    Text.Trim(title) != "" && linked > 1
  }

  /** A blank value falls back to the one in the old document, if that can be read. */
  function Recalled(value: string, previous: Option<string>): string {
    if Text.Trim(value) == "" && previous.Some? then Text.Trim(previous.value) else value
  }

  function WantedOverview(j: Json, row: Series, res: Scraped): string {
    Stated(res.seriesOverview, Recalled(res.overview, j.overview(OrEmpty(row.meta))))
  }

  function WantedBackdrop(j: Json, row: Series, res: Scraped): string {
    Stated(res.seriesBackdrop, Recalled(res.backdrop, j.backdrop(OrEmpty(row.meta))))
  }

  /** The wanted columns, before the document is built from them. */
  function WantedBare(row: Series, linked: int, res: Scraped): Columns {
    var held := ColumnsOf(row);
    Columns(
      if KeepsTitle(held.title, linked) then held.title else Stated(res.seriesTitle, Given(res.title, held.title)),
      Stated(res.seriesPoster, Given(res.poster, held.poster)),
      if held.tmdb == "" then Stated(res.tmdb, "") else held.tmdb,
      if held.tvdb == "" then Stated(res.tvdb, "") else held.tvdb,
      "")
  }

  function Wanted(j: Json, row: Series, linked: int, res: Scraped): Columns {
    var bare := WantedBare(row, linked, res);
    bare.(meta := j.document(bare, WantedOverview(j, row, res), WantedBackdrop(j, row, res)))
  }

  /** How the shared fields are merged into a sibling's document. */
  function Merger(j: Json, row: Series, linked: int, res: Scraped): string -> Option<string> {
    meta => j.merge(meta, WantedBare(row, linked, res), WantedOverview(j, row, res), WantedBackdrop(j, row, res))
  }

  ghost predicate SiblingFrom(merge: string -> Option<string>, row: (Key, Option<string>), v: Sibling) {
    v.id == row.0 && v.original == OrEmpty(row.1) && merge(v.original) == Some(v.desired)
  }

  ghost predicate SiblingsFrom(merge: string -> Option<string>, rows: seq<(Key, Option<string>)>, xs: seq<Sibling>) {
    |xs| == |rows| && forall i | 0 <= i < |rows| :: SiblingFrom(merge, rows[i], xs[i])
  }

  /** `x` is the snapshot of these rows together with the wanted values. */
  ghost predicate PreparedFrom(j: Json, id: Key, row: Series, linked: int, rows: seq<(Key, Option<string>)>, res: Scraped,
                               x: Prepared)
  {
    && x.id == id && x.original == ColumnsOf(row) && x.desired == Wanted(j, row, linked, res)
    && SiblingsFrom(Merger(j, row, linked, res), rows, x.siblings)
  }

  /** The values wanted for the series itself, worked out field by field as the handler does. */
  method Desire(j: Json, row: Series, linked: int, res: Scraped) returns (bare: Columns, overview: string, backdrop: string)
    ensures bare == WantedBare(row, linked, res)
    ensures overview == WantedOverview(j, row, res) && backdrop == WantedBackdrop(j, row, res)
  {
    var original := ColumnsOf(row);
    var title, poster := Given(res.title, original.title), Given(res.poster, original.poster);
    var tmdb, tvdb := original.tmdb, original.tvdb;
    overview, backdrop := res.overview, res.backdrop;
    if Text.Trim(overview) == "" || Text.Trim(backdrop) == "" {
      overview := Recalled(overview, j.overview(original.meta));
      backdrop := Recalled(backdrop, j.backdrop(original.meta));
    }
    title, poster := Stated(res.seriesTitle, title), Stated(res.seriesPoster, poster);
    overview, backdrop := Stated(res.seriesOverview, overview), Stated(res.seriesBackdrop, backdrop);
    if tmdb == "" {
      tmdb := Stated(res.tmdb, "");
    }
    if tvdb == "" {
      tvdb := Stated(res.tvdb, "");
    }
    if KeepsTitle(original.title, linked) {
      title := original.title;
    }
    bare := Columns(title, poster, tmdb, tvdb, "");
  }

  /** Fails exactly when some sibling's document cannot be merged. */
  method PrepareSiblings(merge: string -> Option<string>, rows: seq<(Key, Option<string>)>) returns (r: Option<seq<Sibling>>)
    ensures r.None? <==> exists row :: row in rows && merge(OrEmpty(row.1)).None?
    ensures r.Some? ==> SiblingsFrom(merge, rows, r.value)
  {
    var out: seq<Sibling> := [];
    for i := 0 to |rows|
      invariant SiblingsFrom(merge, rows[..i], out)
      invariant forall row | row in rows[..i] :: merge(OrEmpty(row.1)).Some?
    {
      var original := OrEmpty(rows[i].1);
      var merged := merge(original);
      if merged.None? {
        return None;
      }
      out := out + [Sibling(rows[i].0, original, merged.value)];
      assert rows[..i + 1] == rows[..i] + [rows[i]];
    }
    assert rows[..|rows|] == rows;
    r := Some(out);
  }

  method Prepare(j: Json, id: Key, row: Series, linked: int, rows: seq<(Key, Option<string>)>, res: Scraped)
    returns (r: Option<Prepared>)
    ensures r.None? <==> exists s :: s in rows && Merger(j, row, linked, res)(OrEmpty(s.1)).None?
    ensures r.Some? ==> PreparedFrom(j, id, row, linked, rows, res, r.value)
  {
    var bare, overview, backdrop := Desire(j, row, linked, res);
    var desired := bare.(meta := j.document(bare, overview, backdrop));
    var siblings := PrepareSiblings(Merger(j, row, linked, res), rows);
    if siblings.None? {
      return None;
    }
    r := Some(Prepared(id, ColumnsOf(row), desired, siblings.value));
  }

  /** An external id is only ever filled in, the title of an established series with more than one linked
      medium stays, and a title or poster is never blanked. */
  lemma PreparationRespects(j: Json, row: Series, linked: int, res: Scraped)
    ensures var was, want := ColumnsOf(row), Wanted(j, row, linked, res);
      && (was.tmdb != "" ==> want.tmdb == was.tmdb) && (was.tvdb != "" ==> want.tvdb == was.tvdb)
      && (Text.Trim(was.title) != "" && linked > 1 ==> want.title == was.title)
      && (was.title != "" ==> want.title != "") && (was.poster != "" ==> want.poster != "")
  {
  }

  /** What is wanted, column by column: the show's own fields of the result go before the general ones, blank fields change nothing,
      and the document is built from the other columns, the overview and the backdrop, which fall back to the old document. */
  lemma WantedExact(j: Json, row: Series, linked: int, res: Scraped)
    ensures var was, want, held := ColumnsOf(row), Wanted(j, row, linked, res), if row.meta.Some? then row.meta.value else "";
      && want.title == (if Text.Trim(was.title) != "" && linked > 1 then was.title
                        else if Text.Trim(res.seriesTitle) != "" then Text.Trim(res.seriesTitle)
                        else if Text.Trim(res.title) != "" then res.title else was.title)
      && want.poster == (if Text.Trim(res.seriesPoster) != "" then Text.Trim(res.seriesPoster)
                         else if Text.Trim(res.poster) != "" then res.poster else was.poster)
      && want.tmdb == (if was.tmdb != "" then was.tmdb else Text.Trim(res.tmdb))
      && want.tvdb == (if was.tvdb != "" then was.tvdb else Text.Trim(res.tvdb))
      && var overview := if Text.Trim(res.seriesOverview) != "" then Text.Trim(res.seriesOverview)
                         else if Text.Trim(res.overview) != "" || j.overview(held).None? then res.overview
                         else Text.Trim(j.overview(held).value);
         var backdrop := if Text.Trim(res.seriesBackdrop) != "" then Text.Trim(res.seriesBackdrop)
                         else if Text.Trim(res.backdrop) != "" || j.backdrop(held).None? then res.backdrop
                         else Text.Trim(j.backdrop(held).value);
         want.meta == j.document(want.(meta := ""), overview, backdrop)
         && forall meta :: Merger(j, row, linked, res)(meta) == j.merge(meta, want.(meta := ""), overview, backdrop)
  {
  }

  /** The columns of a row are its own, with NULL read as empty; and setting them sets these and nothing else. */
  lemma ColumnsExact(row: Series, c: Columns)
    ensures WithColumns(row, c).library == row.library && ColumnsOf(WithColumns(row, c)) == c
    ensures var was := ColumnsOf(row);
      && was.title == (if row.title.Some? then row.title.value else "") && was.poster == (if row.poster.Some? then row.poster.value else "")
      && was.tmdb == (if row.tmdb.Some? then row.tmdb.value else "") && was.tvdb == (if row.tvdb.Some? then row.tvdb.value else "")
      && was.meta == (if row.meta.Some? then row.meta.value else "")
  {
  }

  /** The result says nothing about the show. */
  predicate Blank(res: Scraped) {
    && Text.Trim(res.title) == "" && Text.Trim(res.seriesTitle) == ""
    && Text.Trim(res.poster) == "" && Text.Trim(res.seriesPoster) == ""
    && Text.Trim(res.tmdb) == "" && Text.Trim(res.tvdb) == ""
  }

  lemma BlankChangesNothing(j: Json, row: Series, linked: int, res: Scraped)
    requires Blank(res)
    ensures Wanted(j, row, linked, res).(meta := "") == ColumnsOf(row).(meta := "")
  {
  }

  // ---------- compare and set ----------

  type Metas = map<Key, Option<string>>

  predicate SeriesHeld(series: map<Key, Series>, x: Prepared) {
    x.id in series && ColumnsOf(series[x.id]) == x.original
  }

  predicate SiblingHeld(metas: Metas, v: Sibling) {
    v.id in metas && OrEmpty(metas[v.id]) == v.original
  }

  /** The siblings one after the other; None when some row no longer matches. */
  function ApplySiblings(metas: Metas, xs: seq<Sibling>): Option<Metas> {
    if xs == [] then Some(metas)
    else if !SiblingHeld(metas, xs[0]) then None
    else ApplySiblings(metas[xs[0].id := Some(xs[0].desired)], xs[1..])
  }

  /** All or nothing: the enclosing transaction rolls a partial update back. */
  function Apply(series: map<Key, Series>, metas: Metas, x: Prepared): Option<(map<Key, Series>, Metas)> {
    if !SeriesHeld(series, x) then None
    else
      var updated := ApplySiblings(metas, x.siblings);
      if updated.None? then None
      else Some((series[x.id := WithColumns(series[x.id], x.desired)], updated.value))
  }

  /** Entries for the same row agree, as they do when they come from one snapshot. */
  ghost predicate OneSnapshot(xs: seq<Sibling>) {
    forall i, j | 0 <= i < j < |xs| && xs[i].id == xs[j].id :: xs[i] == xs[j]
  }

  /** A row that is listed twice is one that the update does not change. */
  ghost predicate RepeatsSettled(xs: seq<Sibling>) {
    forall i, j | 0 <= i < j < |xs| && xs[i].id == xs[j].id :: xs[i].desired == xs[i].original
  }

  lemma HeldAfter(metas: Metas, x: Sibling, v: Sibling)
    requires SiblingHeld(metas, x) && (v.id == x.id ==> v == x)
    ensures SiblingHeld(metas[x.id := Some(x.desired)], v) <==> if v == x then x.desired == x.original else SiblingHeld(metas, v)
  {
  }

  lemma {:induction false} SiblingsApply(metas: Metas, xs: seq<Sibling>)
    requires OneSnapshot(xs)
    ensures ApplySiblings(metas, xs).Some? <==> (forall v | v in xs :: SiblingHeld(metas, v)) && RepeatsSettled(xs)
    decreases |xs|
  {
    if xs != [] {
      var x, rest := xs[0], xs[1..];
      var next := metas[x.id := Some(x.desired)];
      assert xs == [x] + rest;
      HeadRepeats(xs);
      SiblingsApply(next, rest);
      if SiblingHeld(metas, x) {
        forall v | v in rest ensures SiblingHeld(next, v) <==> if v == x then x.desired == x.original else SiblingHeld(metas, v) {
          HeldAfter(metas, x, v);
        }
      }
    }
  }

  /** What a successful update leaves behind. */
  ghost predicate SiblingsSet(metas: Metas, xs: seq<Sibling>, after: Metas) {
    && after.Keys == metas.Keys
    && (forall v | v in xs :: v.id in after && after[v.id] == Some(v.desired))
    && (forall k | k in metas && (forall v | v in xs :: v.id != k) :: after[k] == metas[k])
  }

  lemma SiblingsEffect(metas: Metas, xs: seq<Sibling>)
    requires OneSnapshot(xs) && ApplySiblings(metas, xs).Some?
    ensures SiblingsSet(metas, xs, ApplySiblings(metas, xs).value)
  {
  }

  lemma HeadRepeats(xs: seq<Sibling>)
    requires xs != [] && OneSnapshot(xs)
    ensures OneSnapshot(xs[1..])
    ensures forall v | v in xs[1..] && v.id == xs[0].id :: v == xs[0]
    ensures RepeatsSettled(xs) <==> RepeatsSettled(xs[1..]) && (xs[0] in xs[1..] ==> xs[0].desired == xs[0].original)
  {
  }

  /** Applying succeeds exactly when every row still holds its snapshot value and no row that is listed twice
      is to change; it then sets exactly the wanted values and touches no other row. */
  lemma ApplyExact(series: map<Key, Series>, metas: Metas, x: Prepared)
    requires OneSnapshot(x.siblings)
    ensures Apply(series, metas, x).Some? <==>
      SeriesHeld(series, x) && (forall v | v in x.siblings :: SiblingHeld(metas, v)) && RepeatsSettled(x.siblings)
    ensures Apply(series, metas, x).Some? ==>
      var (series', metas') := Apply(series, metas, x).value;
      && series' == series[x.id := series'[x.id]] && ColumnsOf(series'[x.id]) == x.desired && series'[x.id].library == series[x.id].library
      && SiblingsSet(metas, x.siblings, metas')
  {
    SiblingsApply(metas, x.siblings);
    if ApplySiblings(metas, x.siblings).Some? {
      SiblingsEffect(metas, x.siblings);
    }
  }

  /** No update in between is overwritten: if applying succeeds, the series row and every sibling held,
      just before, the very values that the preparation read. */
  lemma NoLostUpdate(j: Json, id: Key, row: Series, linked: int, rows: seq<(Key, Option<string>)>, res: Scraped, x: Prepared,
                     series: map<Key, Series>, metas: Metas)
    requires PreparedFrom(j, id, row, linked, rows, res, x)
    requires forall a, b | 0 <= a < b < |rows| && rows[a].0 == rows[b].0 :: rows[a] == rows[b]
    requires Apply(series, metas, x).Some?
    ensures id in series && ColumnsOf(series[id]) == ColumnsOf(row)
    ensures forall i | 0 <= i < |rows| :: rows[i].0 in metas && OrEmpty(metas[rows[i].0]) == OrEmpty(rows[i].1)
  {
    ApplyExact(series, metas, x);
    forall i | 0 <= i < |rows| ensures rows[i].0 in metas && OrEmpty(metas[rows[i].0]) == OrEmpty(rows[i].1) {
      assert x.siblings[i] in x.siblings;
    }
  }

  /** An episode file linked twice to its series blocks the update: with the snapshot unchanged
      it still fails as soon as the document would change. */
  lemma RepeatedSiblingFails(series: map<Key, Series>, id: Key, row: Series)
    requires id in series && series[id] == row
    ensures var v := Sibling(Key(7), "", "{}");
            var x := Prepared(id, ColumnsOf(row), ColumnsOf(row), [v, v]);
            && SeriesHeld(series, x) && (forall w | w in x.siblings :: SiblingHeld(map[Key(7) := None], w))
            && Apply(series, map[Key(7) := None], x).None?
  {
  }
}
