/** The admin listing: one page per request, and a client that follows `next_cursor` until there is no more. */
module MediaPages {
  import opened Basics
  import opened MediaListing
  import Sorting

  datatype Page = Page(rows: seq<Row>, hasMore: bool, next: Option<int>)

  /** A cursor is a positive row id, and it is only accepted for the listing by id. */
  function ParseCursor(sort: SortOrder, raw: Option<int>): Result<Option<Cursor>, string> {
    if raw.None? then Ok(None)
    else if raw.value <= 0 || sort != IdDesc then Err("invalid cursor")
    else Ok(Some(Cursor(None, raw.value)))
  }

  /** A request without a cursor is accepted, and of the others those by id behind a positive one, which then stands for the id. */
  lemma ParseExact(sort: SortOrder, raw: Option<int>)
    ensures var r := ParseCursor(sort, raw);
      && (r.Ok? <==> raw.None? || (sort == IdDesc && raw.value > 0))
      && (r.Ok? && raw.None? ==> r.value.None?)
      && (r.Ok? && raw.Some? ==> r.value.Some? && forall x: Row :: Follows(sort, r.value, x) <==> x.id < raw.value)
  {
  }

  /** One row more than asked for is read, to know whether there are more. */
  function PageOf(rows: seq<Row>, limit: nat): Page {
    var shown := Take(rows, limit);
    var more := |rows| > limit;
    Page(shown, more, if more && shown != [] then Some(shown[|shown| - 1].id) else None)
  }

  /** All rows that pass the filters, from the cursor on. */
  function Kept(table: seq<Row>, spec: Spec): seq<Row> {
    Filter(Sorted(table, spec), Keeping(spec))
  }

  method Serve(table: seq<Row>, spec: Spec, raw: Option<int>) returns (page: Result<Page, string>)
    requires Keyed(table) && spec.batchSize > 0
    ensures page.Ok? <==> ParseCursor(spec.sort, raw).Ok?
    ensures page.Ok? ==> page.value == PageOf(Take(Kept(table, spec.(cursor := ParseCursor(spec.sort, raw).value)), spec.limit + 1), spec.limit)
  {
    var cursor := ParseCursor(spec.sort, raw);
    if cursor.Err? {
      return Err(cursor.error);
    }
    var request := spec.(cursor := cursor.value, limit := spec.limit + 1);
    var rows, _ := List(table, request);
    SameRows(table, request, spec.(cursor := cursor.value));
    page := Ok(PageOf(rows.value, spec.limit));
  }

  /** The limit plays no part in what is kept. */
  lemma SameRows(table: seq<Row>, a: Spec, b: Spec)
    requires a == b.(limit := a.limit)
    ensures Kept(table, a) == Kept(table, b)
  {
    FilterSame(table, Matching(a, a.cursor), Matching(b, b.cursor));
    FilterSame(Sorted(table, a), Keeping(a), Keeping(b));
  }

  function Below(id: int): Row -> bool {
    (r: Row) => r.id < id
  }

  /** Behind the cursor of a row that was shown come exactly the rows that were not. */
  lemma NextPage(table: seq<Row>, spec: Spec, front: seq<Row>, rest: seq<Row>)
    requires Keyed(table) && spec.sort == IdDesc && spec.cursor.None? && Kept(table, spec) == front + rest && front != []
    ensures Kept(table, spec.(cursor := Some(Cursor(None, front[|front| - 1].id)))) == rest
  {
    var last := front[|front| - 1];
    var there := spec.(cursor := Some(Cursor(None, last.id)));
    var all, less, after, keep := Sorted(table, spec), Order(IdDesc), Below(last.id), Keeping(spec);
    CutSorted(table, spec, last.id);
    FilterSame(Filter(all, after), Keeping(there), keep);
    var both := (r: Row) => after(r) && keep(r);
    FilterFilter(all, after, keep, both);
    FilterFilter(all, keep, after, both);
    KeptSorted(table, spec);
    Sorting.SuffixAfter(front + rest, less, |front| - 1, after);
    assert (front + rest)[|front|..] == rest;
  }

  lemma CutSorted(table: seq<Row>, spec: Spec, id: int)
    requires Keyed(table) && spec.sort == IdDesc && spec.cursor.None?
    ensures Sorted(table, spec.(cursor := Some(Cursor(None, id)))) == Filter(Sorted(table, spec), Below(id))
  {
    var there := spec.(cursor := Some(Cursor(None, id)));
    var here, cut := Matching(spec, None), Matching(there, there.cursor);
    OrderRanks(IdDesc, table);
    FilterFilter(table, here, Below(id), cut);
    FilterMembers(table, here);
    Sorting.SortFilter(Filter(table, here), Below(id), Order(IdDesc));
  }

  lemma KeptSorted(table: seq<Row>, spec: Spec)
    requires Keyed(table)
    ensures var kept, less := Kept(table, spec), Order(spec.sort);
      Sorting.Sorted(kept, less) && Sorting.Distinct(kept) && Sorting.Ranks(less, kept) && Sorting.StrictOrder(less)
  {
    var all, less := Sorted(table, spec), Order(spec.sort);
    SortedRows(table, spec);
    Sorting.FilterKeepsSorted(all, Keeping(spec), less);
    Sorting.SelectionDistinct(all, Keeping(spec), less);
    FilterMembers(all, Keeping(spec));
  }

  // ---------- the walk ----------

  lemma ShownBefore(front: seq<Row>, rest: seq<Row>, limit: nat)
    requires limit > 0
    ensures var page := PageOf(Take(rest, limit + 1), limit);
      && page.hasMore == (|rest| > limit)
      && (page.hasMore ==> page.rows == rest[..limit] && page.next == Some(rest[limit - 1].id)
                           && front + rest == (front + page.rows) + rest[limit..])
      && (!page.hasMore ==> page.rows == rest)
  {
  }

  lemma IdsPositive(table: seq<Row>, spec: Spec)
    requires forall r | r in table :: r.id > 0
    ensures forall r | r in Kept(table, spec) :: r.id > 0
  {
    FilterMembers(Sorted(table, spec), Keeping(spec));
    FilterMembers(table, Matching(spec, spec.cursor));
    Sorting.SortElements(Filter(table, Matching(spec, spec.cursor)), Order(spec.sort));
  }

  /** `shown` has been shown, `rest` has not, and `raw` is the cursor that the last page gave. */
  ghost predicate Between(table: seq<Row>, spec: Spec, raw: Option<int>, shown: seq<Row>, rest: seq<Row>) {
    Kept(table, spec) == shown + rest && raw == if shown == [] then None else Some(shown[|shown| - 1].id)
  }

  /** One request of the walk. */
  method Follow(table: seq<Row>, spec: Spec, raw: Option<int>, ghost shown: seq<Row>, ghost rest: seq<Row>)
    returns (page: Result<Page, string>, ghost left: seq<Row>)
    requires Keyed(table) && (forall r | r in table :: r.id > 0)
    requires spec.limit > 0 && spec.batchSize > 0 && spec.cursor.None? && Between(table, spec, raw, shown, rest)
    ensures page.Ok? <==> raw.None? || spec.sort == IdDesc
    ensures page.Ok? ==> |page.value.rows| + |left| == |rest| && (page.value.hasMore <==> left != []) && |page.value.rows| <= spec.limit
    ensures page.Ok? && page.value.hasMore ==> |page.value.rows| == spec.limit
    ensures page.Ok? && page.value.hasMore ==> Between(table, spec, page.value.next, shown + page.value.rows, left)
    ensures page.Ok? && !page.value.hasMore ==> Kept(table, spec) == shown + page.value.rows
  {
    NotShown(table, spec, raw, shown, rest);
    page := Serve(table, spec, raw);
    left := [];
    if page.Ok? {
      ShownBefore(shown, rest, spec.limit);
      left := if page.value.hasMore then rest[spec.limit..] else [];
    }
  }

  /** The cursor of the last page selects what has not been shown. */
  lemma NotShown(table: seq<Row>, spec: Spec, raw: Option<int>, shown: seq<Row>, rest: seq<Row>)
    requires Keyed(table) && (forall r | r in table :: r.id > 0) && spec.cursor.None? && Between(table, spec, raw, shown, rest)
    ensures ParseCursor(spec.sort, raw).Ok? <==> raw.None? || spec.sort == IdDesc
    ensures ParseCursor(spec.sort, raw).Ok? ==> Kept(table, spec.(cursor := ParseCursor(spec.sort, raw).value)) == rest
  {
    if raw.Some? {
      assert shown[|shown| - 1] in shown + rest;
      IdsPositive(table, spec);
      if spec.sort == IdDesc {
        NextPage(table, spec, shown, rest);
      }
    } else {
      assert shown + rest == rest;
      assert spec.(cursor := None) == spec;
    }
  }

  /** Following `next_cursor` from the first page on. In the listing by id this shows every matching row exactly once,
      newest first, whatever the limit. In the other two the second request is refused, so the walk is complete
      exactly when everything fits on the first page. */
  method Walk(table: seq<Row>, spec: Spec) returns (shown: seq<Row>, complete: bool)
    requires Keyed(table) && (forall r | r in table :: r.id > 0)
    requires spec.limit > 0 && spec.batchSize > 0 && spec.cursor.None?
    ensures complete <==> spec.sort == IdDesc || |Kept(table, spec)| <= spec.limit
    ensures complete ==> shown == Kept(table, spec)
    ensures !complete ==> |shown| == spec.limit && shown == Kept(table, spec)[..spec.limit]
  {
    ghost var kept := Kept(table, spec);
    ghost var rest := kept;
    var raw: Option<int> := None;
    shown := [];
    assert [] + rest == rest;
    while true
      invariant Between(table, spec, raw, shown, rest)
      invariant shown != [] ==> rest != [] && (spec.sort != IdDesc ==> |shown| == spec.limit)
      decreases |rest|
    {
      var page: Result<Page, string>;
      ghost var left: seq<Row>;
      page, left := Follow(table, spec, raw, shown, rest);
      if page.Err? {
        assert kept[..spec.limit] == shown;
        return shown, false;
      }
      shown := shown + page.value.rows;
      if !page.value.hasMore {
        assert raw.None? ==> |kept| <= spec.limit;
        return shown, true;
      }
      raw, rest := page.value.next, left;
    }
  }

  /** What the walk shows, by the columns: every row that the query selects and the filters let through, once, newest id first
      in the listing by id. */
  lemma KeptExact(table: seq<Row>, spec: Spec)
    requires Keyed(table) && spec.cursor.None?
    ensures forall r :: r in Kept(table, spec) <==>
      && r in table && spec.where(r)
      && (var library := Key(if r.library.Some? then r.library.value else 0);
          library !in spec.folders || spec.folders[library] == []
          || spec.inFolders(if r.path.Some? then r.path.value else "", spec.folders[library]))
      && (|| spec.photoTag == "" || spec.photoTag == "all" || spec.photoTag in r.tagIds
          || exists tag :: tag in r.tags && spec.photoTag == "custom:" + tag)
    ensures Sorting.Distinct(Kept(table, spec))
    ensures forall i, j | 0 <= i < j < |Kept(table, spec)| :: Before(spec.sort, Kept(table, spec)[i], Kept(table, spec)[j])
    ensures spec.sort == IdDesc ==> forall i, j | 0 <= i < j < |Kept(table, spec)| :: Kept(table, spec)[i].id > Kept(table, spec)[j].id
  {
    KeptRanked(table, spec);
    KeptSorted(table, spec);
    forall r: Row {
      KeepsExact(spec, r);
    }
  }
}
