/** The media listing: batches of rows read by key, filtered in the process, until the limit is reached. */
module MediaListing {
  import opened Basics
  import Sorting
  import Text

  datatype SortOrder = IdDesc | CreatedDesc | TakenDesc

  datatype Row = Row(id: int, idText: string, created: Option<string>, taken: Option<string>, library: Option<int>,
                     path: Option<string>, tags: seq<string>, tagIds: seq<string>)

  datatype Cursor = Cursor(key: Option<string>, id: int)

  /** `where` is the part of the query that does not depend on the cursor; `inFolders` compares a path with a list
      of folders. */
  datatype Spec = Spec(sort: SortOrder, limit: nat, batchSize: int, cursor: Option<Cursor>, where: Row -> bool,
                       photoTag: string, folders: map<Key, seq<string>>, inFolders: (string, seq<string>) -> bool)

  // ---------- the order ----------

  function SortKey(sort: SortOrder, r: Row): Option<string> {
    match sort
    case IdDesc => Some(r.idText)
    case CreatedDesc => r.created
    case TakenDesc => if r.taken.Some? then r.taken else r.created
  }

  /** Newest key first, rows without a key last, ties by id. */
  predicate Before(sort: SortOrder, a: Row, b: Row) {
    var ka, kb := SortKey(sort, a), SortKey(sort, b);
    if sort == IdDesc then a.id > b.id
    else if ka.Some? && kb.Some? then Text.Below(kb.value, ka.value) || (ka == kb && a.id > b.id)
    else if ka.None? && kb.None? then a.id > b.id
    else ka.Some?
  }

  function Order(sort: SortOrder): (Row, Row) -> bool {
    (a, b) => Before(sort, a, b)
  }

  function ById(): (Row, Row) -> bool {
    (a: Row, b: Row) => a.id > b.id
  }

  lemma KeysRank(sort: SortOrder, a: Row, b: Row, c: Row)
    ensures !(Before(sort, a, b) && Before(sort, b, a))
    ensures Before(sort, a, b) && Before(sort, b, c) ==> Before(sort, a, c)
    ensures a.id != b.id ==> Before(sort, a, b) || Before(sort, b, a)
  {
    var ka, kb, kc := OrEmpty(SortKey(sort, a)), OrEmpty(SortKey(sort, b)), OrEmpty(SortKey(sort, c));
    Text.BelowIsTotal(ka, kb);
    if Text.Below(kc, kb) && Text.Below(kb, ka) {
      Text.BelowIsTransitive(kc, kb, ka);
    }
  }

  /** What the orders are, by the columns: by id; by the time of creation, newest first, those without one last, ties by id;
      and the same by the time a picture was taken, where there is one. */
  lemma OrdersExact(a: Row, b: Row)
    ensures Before(IdDesc, a, b) <==> a.id > b.id
    ensures a.created.Some? && b.created.Some? && Text.Below(b.created.value, a.created.value) ==> Before(CreatedDesc, a, b)
    ensures a.created.Some? && b.created.None? ==> Before(CreatedDesc, a, b)
    ensures a.created == b.created ==> (Before(CreatedDesc, a, b) <==> a.id > b.id)
    ensures var a', b' := if a.taken.Some? then a.(created := a.taken) else a, if b.taken.Some? then b.(created := b.taken) else b;
      Before(TakenDesc, a, b) <==> Before(CreatedDesc, a', b')
  {
    if a.created.Some? && b.created.Some? {
      Text.BelowIsTotal(a.created.value, b.created.value);
    }
  }

  /** The id is the primary key. */
  ghost predicate Keyed(table: seq<Row>) {
    forall i, j | 0 <= i < j < |table| :: table[i].id != table[j].id
  }

  lemma OrderRanks(sort: SortOrder, table: seq<Row>)
    requires Keyed(table)
    ensures Sorting.StrictOrder(Order(sort)) && Sorting.Ranks(Order(sort), table) && Sorting.Distinct(table)
    ensures Sorting.StrictOrder(ById())
  {
    forall a: Row, b: Row ensures !(Order(sort)(a, b) && Order(sort)(b, a)) {
      KeysRank(sort, a, b, a);
    }
    forall a: Row, b: Row, c: Row | Order(sort)(a, b) && Order(sort)(b, c) ensures Order(sort)(a, c) {
      KeysRank(sort, a, b, c);
    }
    forall a, b | a in table && b in table ensures Order(sort)(a, b) || a == b || Order(sort)(b, a) {
      KeysRank(sort, a, b, a);
    }
  }

  // ---------- one query ----------

  /** The cursor predicate; a comparison with NULL is not true. */
  predicate Follows(sort: SortOrder, cursor: Option<Cursor>, r: Row) {
    if cursor.None? then true
    else
      var c, key := cursor.value, SortKey(sort, r);
      if sort == IdDesc then r.id < c.id
      else if c.key.None? then key.None? && r.id < c.id
      else (key.Some? && Text.Below(key.value, c.key.value)) || (key == c.key && r.id < c.id) || key.None?
  }

  function Matching(spec: Spec, cursor: Option<Cursor>): Row -> bool {
    r => spec.where(r) && Follows(spec.sort, cursor, r)
  }

  /** Past the first row without a key, the query orders by id alone. */
  function QueryOrder(sort: SortOrder, cursor: Option<Cursor>): (Row, Row) -> bool {
    if sort != IdDesc && cursor.Some? && cursor.value.key.None? then ById() else Order(sort)
  }

  function Query(table: seq<Row>, spec: Spec, cursor: Option<Cursor>, n: nat): seq<Row> {
    Take(Sorting.Sort(Filter(table, Matching(spec, cursor)), QueryOrder(spec.sort, cursor)), n)
  }

  function CursorFrom(sort: SortOrder, r: Row): Cursor {
    Cursor(SortKey(sort, r), r.id)
  }

  /** A row behind the cursor of another row is a row that the order puts after it. */
  lemma CursorExact(sort: SortOrder, r: Row, x: Row)
    ensures Follows(sort, Some(CursorFrom(sort, r)), x) <==> Before(sort, r, x)
  {
  }

  /** Whatever comes after a row behind a cursor is behind that cursor too. */
  lemma FollowsClosed(sort: SortOrder, cursor: Option<Cursor>, r: Row, x: Row)
    requires Follows(sort, cursor, r) && Before(sort, r, x)
    ensures Follows(sort, cursor, x)
  {
    if cursor.Some? && cursor.value.key.Some? && SortKey(sort, r).Some? && SortKey(sort, x).Some? {
      var k, kr, kx := cursor.value.key.value, SortKey(sort, r).value, SortKey(sort, x).value;
      if Text.Below(kx, kr) && Text.Below(kr, k) {
        Text.BelowIsTransitive(kx, kr, k);
      }
    }
  }

  // ---------- the listing ----------

  /** All rows behind the cursor, in order. */
  function Sorted(table: seq<Row>, spec: Spec): seq<Row> {
    Sorting.Sort(Filter(table, Matching(spec, spec.cursor)), Order(spec.sort))
  }

  predicate TagMatches(filter: string, tags: seq<string>, tagIds: seq<string>) {
    filter == "" || filter == "all" || filter in tagIds || ("custom:" <= filter && filter[7..] in tags)
  }

  predicate Keeps(spec: Spec, r: Row) {
    var folders := FoldersOf(spec, r);
    (folders != [] ==> spec.inFolders(OrEmpty(r.path), folders)) && TagMatches(spec.photoTag, r.tags, r.tagIds)
  }

  /** A row without a library counts as one of library 0. */
  function FoldersOf(spec: Spec, r: Row): seq<string> {
    var id := Key(OrElse(r.library, 0));
    if id in spec.folders then spec.folders[id] else []
  }

  function Keeping(spec: Spec): Row -> bool {
    r => Keeps(spec, r)
  }

  /** What the listing promises: sort everything, filter, take the first `limit` rows. */
  function Listing(table: seq<Row>, spec: Spec): seq<Row> {
    Take(Filter(Sorted(table, spec), Keeping(spec)), spec.limit)
  }

  /** Which rows pass the filters, by the columns: a row of a library with a list of folders lies in one of them, a row
      without a library counting as one of library 0; and the tag asked for, if any, is among its tag ids, or names one of
      its tags. */
  lemma KeepsExact(spec: Spec, r: Row)
    ensures Keeps(spec, r) <==>
      && (var library := Key(if r.library.Some? then r.library.value else 0);
          library !in spec.folders || spec.folders[library] == []
          || spec.inFolders(if r.path.Some? then r.path.value else "", spec.folders[library]))
      && (|| spec.photoTag == "" || spec.photoTag == "all" || spec.photoTag in r.tagIds
          || exists tag :: tag in r.tags && spec.photoTag == "custom:" + tag)
  {
    var filter := spec.photoTag;
    if "custom:" <= filter {
      assert filter == "custom:" + filter[7..];
    }
    forall tag | filter == "custom:" + tag ensures filter[7..] == tag {
    }
  }

  /** What the listing returns, by the columns: rows of the table behind the cursor that the query and the filters let through,
      in order; and if one of those is missing, the listing is full, and everything in it comes before that row. */
  lemma ListingExact(table: seq<Row>, spec: Spec)
    requires Keyed(table)
    ensures var shown := Listing(table, spec);
      && |shown| <= spec.limit
      && (forall i, j | 0 <= i < j < |shown| :: Before(spec.sort, shown[i], shown[j]))
      && (forall r | r in shown :: r in table && spec.where(r) && Follows(spec.sort, spec.cursor, r))
      && forall r | r in table && spec.where(r) && Follows(spec.sort, spec.cursor, r) ::
           var library := Key(if r.library.Some? then r.library.value else 0);
           var passes :=
             && (library !in spec.folders || spec.folders[library] == []
                 || spec.inFolders(if r.path.Some? then r.path.value else "", spec.folders[library]))
             && (|| spec.photoTag == "" || spec.photoTag == "all" || spec.photoTag in r.tagIds
                 || exists tag :: tag in r.tags && spec.photoTag == "custom:" + tag);
           && (r in shown ==> passes)
           && (passes && r !in shown ==> |shown| == spec.limit && forall x | x in shown :: Before(spec.sort, x, r))
  {
    KeptRanked(table, spec);
    forall r: Row {
      KeepsExact(spec, r);
    }
  }

  /** All rows that pass, in order. */
  lemma KeptRanked(table: seq<Row>, spec: Spec)
    requires Keyed(table)
    ensures var kept := Filter(Sorted(table, spec), Keeping(spec));
      && (forall i, j | 0 <= i < j < |kept| :: Before(spec.sort, kept[i], kept[j]))
      && forall r :: r in kept <==> r in table && spec.where(r) && Follows(spec.sort, spec.cursor, r) && Keeps(spec, r)
  {
    var all, kept, less := Sorted(table, spec), Filter(Sorted(table, spec), Keeping(spec)), Order(spec.sort);
    SortedRows(table, spec);
    Sorting.FilterKeepsSorted(all, Keeping(spec), less);
    Sorting.SelectionDistinct(all, Keeping(spec), less);
    FilterMembers(all, Keeping(spec));
    FilterMembers(table, Matching(spec, spec.cursor));
    Sorting.SortElements(Filter(table, Matching(spec, spec.cursor)), less);
    forall i, j | 0 <= i < j < |kept| ensures Before(spec.sort, kept[i], kept[j]) {
      assert kept[i] in kept && kept[j] in kept && kept[i] != kept[j];
    }
  }

  predicate HasFilters(spec: Spec) {
    (spec.photoTag != "" && spec.photoTag != "all") || exists id :: id in spec.folders && spec.folders[id] != []
  }

  /** Whole batches are read only where a row may be rejected. */
  lemma NoFiltersKeepAll(spec: Spec, r: Row)
    requires !HasFilters(spec)
    ensures Keeps(spec, r)
  {
  }

  lemma SortedRows(table: seq<Row>, spec: Spec)
    requires Keyed(table)
    ensures var all := Sorted(table, spec);
      && Sorting.Sorted(all, Order(spec.sort)) && Sorting.Distinct(all) && Sorting.Ranks(Order(spec.sort), all)
      && Sorting.StrictOrder(Order(spec.sort))
  {
    OrderRanks(spec.sort, table);
    FilterMembers(table, Matching(spec, spec.cursor));
    var rows := Filter(table, Matching(spec, spec.cursor));
    Sorting.SortSorts(rows, Order(spec.sort));
    Sorting.SelectionDistinct(table, Matching(spec, spec.cursor), Order(spec.sort));
  }

  /** The rows of a query in their final order, whichever ORDER BY it uses. */
  lemma QuerySorts(table: seq<Row>, spec: Spec, cursor: Option<Cursor>)
    requires Keyed(table)
    ensures Sorting.Sort(Filter(table, Matching(spec, cursor)), QueryOrder(spec.sort, cursor))
         == Sorting.Sort(Filter(table, Matching(spec, cursor)), Order(spec.sort))
  {
    OrderRanks(spec.sort, table);
    FilterMembers(table, Matching(spec, cursor));
    Sorting.SortAgrees(Filter(table, Matching(spec, cursor)), Order(spec.sort), QueryOrder(spec.sort, cursor));
  }

  /** Continuing behind the p-th row of the whole list yields exactly the rest of the list. */
  lemma QueryContinues(table: seq<Row>, spec: Spec, p: nat, n: nat)
    requires Keyed(table) && 0 < p <= |Sorted(table, spec)|
    ensures var all := Sorted(table, spec);
            Query(table, spec, Some(CursorFrom(spec.sort, all[p - 1])), n) == Take(all[p..], n)
  {
    var all, less := Sorted(table, spec), Order(spec.sort);
    var r := all[p - 1];
    var cursor := Some(CursorFrom(spec.sort, r));
    var first, next := Matching(spec, spec.cursor), Matching(spec, cursor);
    var rows := Filter(table, first);
    SortedRows(table, spec);
    OrderRanks(spec.sort, table);
    FilterMembers(table, first);
    Sorting.SortElements(rows, less);
    forall x | x in table ensures next(x) <==> first(x) && next(x) {
      CursorExact(spec.sort, r, x);
      assert r in rows;
      if next(x) {
        FollowsClosed(spec.sort, spec.cursor, r, x);
      }
    }
    FilterFilter(table, first, next, next);
    QuerySorts(table, spec, cursor);
    Sorting.SortFilter(rows, next, less);
    forall x | x in all ensures next(x) == less(r, x) {
      CursorExact(spec.sort, r, x);
    }
    Sorting.SuffixAfter(all, less, p - 1, next);
  }

  /** The cursor stands behind the rows of `front`. */
  ghost predicate At(spec: Spec, cursor: Option<Cursor>, front: seq<Row>) {
    cursor == if front == [] then spec.cursor else Some(CursorFrom(spec.sort, front[|front| - 1]))
  }

  /** The first query, and every later one, continues the whole list. */
  lemma QueryAt(table: seq<Row>, spec: Spec, cursor: Option<Cursor>, front: seq<Row>, rest: seq<Row>, n: nat)
    requires Keyed(table) && At(spec, cursor, front) && Sorted(table, spec) == front + rest
    ensures Query(table, spec, cursor, n) == Take(rest, n)
  {
    if front == [] {
      QuerySorts(table, spec, cursor);
      assert front + rest == rest;
    } else {
      QueryContinues(table, spec, |front|, n);
      assert (front + rest)[|front|..] == rest && (front + rest)[|front| - 1] == front[|front| - 1];
    }
  }

  // ---------- the loops ----------

  method TagIdMatches(filter: string, tags: seq<string>, tagIds: seq<string>) returns (ok: bool)
    ensures ok == TagMatches(filter, tags, tagIds)
  {
    if filter == "" || filter == "all" {
      return true;
    }
    for i := 0 to |tagIds|
      invariant filter !in tagIds[..i]
    {
      if tagIds[i] == filter {
        return true;
      }
    }
    if "custom:" <= filter {
      var name := filter[7..];
      for i := 0 to |tags|
        invariant name !in tags[..i]
      {
        if tags[i] == name {
          return true;
        }
      }
    }
    return false;
  }

  datatype Stats = Stats(batches: nat, candidates: nat, rejected: nat, returned: nat)

  /** The rows of one batch that pass the filters, up to the limit. */
  method FilterBatch(keep: Row -> bool, limit: nat, batch: seq<Row>, items: seq<Row>) returns (out: seq<Row>, rejected: nat)
    requires |items| < limit
    ensures out == Take(items + Filter(batch, keep), limit)
    ensures |out| - |items| + rejected <= |batch|
  {
    out, rejected := items, 0;
    ghost var front: seq<Row> := [];
    for i := 0 to |batch|
      invariant front == batch[..i] && out == items + Filter(front, keep) && |out| < limit
      invariant |out| - |items| + rejected == i
    {
      var r := batch[i];
      FilterOne(front, r, keep);
      front := front + [r];
      if !keep(r) {
        rejected := rejected + 1;
        continue;
      }
      out := out + [r];
      if |out| == limit {
        EnoughOfBatch(keep, front, batch[i + 1..], items, out, limit);
        assert batch == front + batch[i + 1..];
        return;
      }
    }
    assert front == batch;
  }

  lemma EnoughOfBatch(keep: Row -> bool, front: seq<Row>, rest: seq<Row>, items: seq<Row>, out: seq<Row>, limit: nat)
    requires out == items + Filter(front, keep) && |out| == limit
    ensures out == Take(items + Filter(front + rest, keep), limit)
  {
    FilterAppend(front, rest, keep);
    assert items + Filter(front + rest, keep) == out + Filter(rest, keep);
    TakeEnough(out, Filter(rest, keep), limit);
  }

  /** One query: the next n rows, or all that are left. */
  method Fetch(table: seq<Row>, spec: Spec, cursor: Option<Cursor>, n: nat, ghost front: seq<Row>, ghost rest: seq<Row>)
    returns (batch: seq<Row>, ghost left: seq<Row>)
    requires Keyed(table) && At(spec, cursor, front) && Sorted(table, spec) == front + rest
    ensures |batch| + |left| == |rest| && |batch| <= n && (|batch| < n ==> left == [])
    ensures Sorted(table, spec) == (front + batch) + left
    ensures batch != [] ==> At(spec, Some(CursorFrom(spec.sort, batch[|batch| - 1])), front + batch)
  {
    batch := Query(table, spec, cursor, n);
    QueryAt(table, spec, cursor, front, rest, n);
    left := rest[|batch|..];
    TakeSplits(front, rest, n);
  }

  method Scan(table: seq<Row>, spec: Spec, keep: Row -> bool) returns (r: Result<seq<Row>, string>, stats: Stats)
    requires Keyed(table)
    ensures r.Ok? <==> spec.limit == 0 || spec.batchSize > 0
    ensures r.Ok? ==> r.value == Take(Filter(Sorted(table, spec), keep), spec.limit)
    ensures r.Ok? ==> stats.returned == |r.value| && stats.rejected + stats.returned <= stats.candidates
  {
    ghost var front: seq<Row>, rest := [], Sorted(table, spec);
    var items: seq<Row> := [];
    var cursor := spec.cursor;
    stats := Stats(0, 0, 0, 0);
    while |items| < spec.limit
      invariant At(spec, cursor, front) && Sorted(table, spec) == front + rest
      invariant items == Take(Filter(front, keep), spec.limit)
      invariant stats.rejected + |items| <= stats.candidates
      invariant spec.limit == 0 || spec.batchSize > 0 || front == []
      decreases |rest|
    {
      var n := spec.limit - |items|;
      if n > spec.batchSize || HasFilters(spec) {
        n := spec.batchSize;
      }
      if n <= 0 {
        return Err("invalid batch limit"), stats;
      }
      var batch: seq<Row>;
      ghost var left: seq<Row>;
      batch, left := Fetch(table, spec, cursor, n, front, rest);
      stats := stats.(batches := stats.batches + 1, candidates := stats.candidates + |batch|);
      if |batch| == 0 {
        break;
      }
      var rejected;
      BatchAdvances(keep, front, batch, spec.limit, items);
      items, rejected := FilterBatch(keep, spec.limit, batch, items);
      stats := stats.(rejected := stats.rejected + rejected);
      cursor := Some(CursorFrom(spec.sort, batch[|batch| - 1]));
      front, rest := front + batch, left;
      if |batch| < n {
        break;
      }
    }
    FilterFinishes(keep, front, rest, spec.limit, items);
    return Ok(items), stats.(returned := |items|);
  }

  /** The batched scan returns exactly the listing, with no gap and no duplicate between batches. It fails only for
      a batch size that is not positive. */
  method List(table: seq<Row>, spec: Spec) returns (r: Result<seq<Row>, string>, stats: Stats)
    requires Keyed(table)
    ensures r.Ok? <==> spec.limit == 0 || spec.batchSize > 0
    ensures r.Ok? ==> r.value == Listing(table, spec)
    ensures r.Ok? ==> stats.returned == |r.value| && stats.rejected + stats.returned <= stats.candidates
  {
    r, stats := Scan(table, spec, Keeping(spec));
  }
}
