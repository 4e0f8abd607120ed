/** The batch transaction over the tags of many documents, and the facet deltas it reports. */
module DocumentTagBatch {
  import opened Basics
  import opened DocumentTags
  import Sorting
  import Text

  /** The tags of each document; a document without an entry has none. */
  type Table = map<Key, seq<string>>

  datatype FacetDelta = FacetDelta(tag: string, delta: int)

  datatype Item = Item(id: Key, tags: seq<string>)

  function TagsOf(table: Table, id: Key): seq<string> {
    if id in table then table[id] else []
  }

  predicate NonBlank(tag: string) {
    Text.Trim(tag) != ""
  }

  /** Blank tags that an older version stored are not read; rewriting the document drops them. */
  function Visible(table: Table, id: Key): seq<string> {
    Filter(TagsOf(table, id), NonBlank)
  }

  function Final(fold: string -> string, table: Table, tags: seq<string>, mode: Mode, id: Key): seq<string> {
    Apply(fold, Visible(table, id), tags, mode)
  }

  // ---------- counting ----------

  function HasFold(fold: string -> string, f: string): string -> bool {
    (tag: string) => fold(tag) == f
  }

  function Occurrences(fold: string -> string, tags: seq<string>, f: string): nat {
    Count(tags, HasFold(fold, f))
  }

  function Change(fold: string -> string, table: Table, tags: seq<string>, mode: Mode, f: string): Key -> int {
    (id: Key) => Occurrences(fold, Final(fold, table, tags, mode, id), f) - Occurrences(fold, Visible(table, id), f)
  }

  function Sum(xs: seq<Key>, g: Key -> int): int {
    if xs == [] then 0 else g(xs[0]) + Sum(xs[1..], g)
  }

  lemma {:induction false} SumAppend(xs: seq<Key>, ys: seq<Key>, g: Key -> int)
    ensures Sum(xs + ys, g) == Sum(xs, g) + Sum(ys, g)
  {
    if xs == [] {
      assert xs + ys == ys;
    } else {
      assert (xs + ys)[1..] == xs[1..] + ys;
      SumAppend(xs[1..], ys, g);
    }
  }

  lemma SumOne(xs: seq<Key>, x: Key, g: Key -> int)
    ensures Sum(xs + [x], g) == Sum(xs, g) + g(x)
  {
    SumAppend(xs, [x], g);
    assert [x][1..] == [];
  }

  function Get(counts: map<string, int>, f: string): int {
    if f in counts then counts[f] else 0
  }

  method CountTags(fold: string -> string, counts: map<string, int>, tags: seq<string>, sign: int) returns (out: map<string, int>)
    ensures forall f :: Get(out, f) == Get(counts, f) + sign * Occurrences(fold, tags, f)
  {
    out := counts;
    ghost var front: seq<string> := [];
    for i := 0 to |tags|
      invariant front == tags[..i]
      invariant forall f :: Get(out, f) == Get(counts, f) + sign * Occurrences(fold, front, f)
    {
      var folded := fold(tags[i]);
      forall f ensures Occurrences(fold, front + [tags[i]], f) == Occurrences(fold, front, f) + (if f == folded then 1 else 0) {
        CountAppend(front, tags[i], HasFold(fold, f));
      }
      OneMore(sign);
      front := front + [tags[i]];
      out := out[folded := Get(out, folded) + sign];
    }
    assert front == tags;
  }

  lemma OneMore(a: int)
    ensures forall n: nat {:trigger a * n} :: a * (n + 1) == a * n + a
  {
  }

  function DeltaOrder(): (FacetDelta, FacetDelta) -> bool {
    (a: FacetDelta, b: FacetDelta) => Text.Below(a.tag, b.tag)
  }

  /** The non-zero counts, whatever order the map yields them in, sorted by tag. */
  method Report(counts: map<string, int>) returns (deltas: seq<FacetDelta>)
    ensures forall d :: d in deltas <==> d.tag in counts && d.delta == counts[d.tag] && d.delta != 0
    ensures Sorting.Sorted(deltas, DeltaOrder())
  {
    deltas := [];
    var todo := counts.Keys;
    while exists f :: f in todo
      invariant todo <= counts.Keys
      invariant forall d :: d in deltas <==> d.tag in counts && d.tag !in todo && d.delta == counts[d.tag] && d.delta != 0
      decreases |todo|
    {
      var f :| f in todo;
      todo := todo - {f};
      if counts[f] != 0 {
        deltas := deltas + [FacetDelta(f, counts[f])];
      }
    }
    DeltasRank(deltas);
    Sorting.SortSorts(deltas, DeltaOrder());
    deltas := Sorting.Sort(deltas, DeltaOrder());
  }

  lemma DeltasRank(deltas: seq<FacetDelta>)
    requires forall d, e | d in deltas && e in deltas && d.tag == e.tag :: d == e
    ensures Sorting.StrictOrder(DeltaOrder()) && Sorting.Ranks(DeltaOrder(), deltas)
  {
    forall a: FacetDelta, b: FacetDelta
      ensures !(DeltaOrder()(a, b) && DeltaOrder()(b, a)) && (DeltaOrder()(a, b) || a.tag == b.tag || DeltaOrder()(b, a))
    {
      Text.BelowIsTotal(a.tag, b.tag);
    }
    forall a: FacetDelta, b: FacetDelta, c: FacetDelta | DeltaOrder()(a, b) && DeltaOrder()(b, c) ensures DeltaOrder()(a, c) {
      Text.BelowIsTransitive(a.tag, b.tag, c.tag);
    }
  }

  // ---------- the transaction ----------

  ghost predicate PlannedFor(fold: string -> string, table: Table, tags: seq<string>, mode: Mode, id: Key, item: Item) {
    item == Item(id, Final(fold, table, tags, mode, id)) && |item.tags| <= MAX_TAGS
  }

  /** The new list of one document, and the facet counts with its difference. */
  method PlanOne(fold: string -> string, table: Table, tags: seq<string>, mode: Mode, id: Key, before: map<string, int>)
    returns (item: Option<Item>, counts: map<string, int>)
    ensures item.None? <==> |Final(fold, table, tags, mode, id)| > MAX_TAGS
    ensures item.Some? ==> PlannedFor(fold, table, tags, mode, id, item.value)
    ensures item.Some? ==> forall f :: Get(counts, f) == Get(before, f) + Change(fold, table, tags, mode, f)(id)
  {
    var finalTags := ApplyMode(fold, Visible(table, id), tags, mode);
    if |finalTags| > MAX_TAGS {
      return None, before;
    }
    counts := CountTags(fold, before, Visible(table, id), -1);
    counts := CountTags(fold, counts, finalTags, 1);
    item := Some(Item(id, finalTags));
  }

  ghost predicate Planned(fold: string -> string, table: Table, ids: seq<Key>, tags: seq<string>, mode: Mode, items: seq<Item>) {
    |items| == |ids| && forall i | 0 <= i < |ids| :: PlannedFor(fold, table, tags, mode, ids[i], items[i])
  }

  /** Works document by document; stops at the first list that is too long. */
  method Plan(fold: string -> string, table: Table, ids: seq<Key>, tags: seq<string>, mode: Mode)
    returns (items: Option<seq<Item>>, counts: map<string, int>)
    ensures items.Some? <==> forall id | id in ids :: |Final(fold, table, tags, mode, id)| <= MAX_TAGS
    ensures items.Some? ==> Planned(fold, table, ids, tags, mode, items.value)
    ensures items.Some? ==> forall f :: Get(counts, f) == Sum(ids, Change(fold, table, tags, mode, f))
  {
    var out: seq<Item> := [];
    counts := map[];
    ghost var front: seq<Key> := [];
    for i := 0 to |ids|
      invariant front == ids[..i] && Planned(fold, table, front, tags, mode, out)
      invariant forall f :: Get(counts, f) == Sum(front, Change(fold, table, tags, mode, f))
    {
      var item;
      item, counts := PlanOne(fold, table, tags, mode, ids[i], counts);
      if item.None? {
        assert ids[i] in ids;
        return None, counts;
      }
      forall f ensures Sum(front + [ids[i]], Change(fold, table, tags, mode, f)) == Get(counts, f) {
        SumOne(front, ids[i], Change(fold, table, tags, mode, f));
      }
      front := front + [ids[i]];
      out := out + [item.value];
    }
    assert front == ids;
    return Some(out), counts;
  }

  ghost predicate Rewritten(fold: string -> string, table: Table, ids: seq<Key>, tags: seq<string>, mode: Mode, after: Table) {
    forall id :: TagsOf(after, id) == if id in ids then Final(fold, table, tags, mode, id) else TagsOf(table, id)
  }

  /** The old rows of the addressed documents are deleted, then the new ones inserted. */
  method Rewrite(fold: string -> string, table: Table, ids: seq<Key>, tags: seq<string>, mode: Mode, items: seq<Item>)
    returns (after: Table)
    requires Planned(fold, table, ids, tags, mode, items)
    ensures Rewritten(fold, table, ids, tags, mode, after)
  {
    after := map id | id in table && id !in ids :: table[id];
    ghost var front: seq<Key> := [];
    for i := 0 to |items|
      invariant front == ids[..i]
      invariant forall id :: TagsOf(after, id) ==
                             (if id in front then Final(fold, table, tags, mode, id) else if id in ids then [] else TagsOf(table, id))
    {
      assert PlannedFor(fold, table, tags, mode, ids[i], items[i]);
      after := after[items[i].id := items[i].tags];
      front := front + [ids[i]];
    }
    assert front == ids;
  }

  class TagStore {
    var documents: set<Key>
    var table: Table

    constructor (documents: set<Key>, table: Table)
      ensures this.documents == documents && this.table == table
    {
      this.documents, this.table := documents, table;
    }

    /** All or nothing: a missing document or an over-long list leaves the table as it was. Otherwise exactly the
        addressed documents get their new lists, and the report names exactly the folded tags whose number of
        occurrences in these documents changed, with the difference. */
    method Update(fold: string -> string, ids: seq<Key>, tags: seq<string>, mode: Mode)
      returns (r: Result<seq<FacetDelta>, string>)
      modifies `table
      ensures r.Ok? <==>
        (forall id | id in ids :: id in documents) && forall id | id in ids :: |Final(fold, old(table), tags, mode, id)| <= MAX_TAGS
      ensures r.Err? ==> table == old(table)
      ensures r.Ok? ==> Rewritten(fold, old(table), ids, tags, mode, table)
      ensures r.Ok? ==> forall d :: d in r.value <==>
        d.delta == Sum(ids, Change(fold, old(table), tags, mode, d.tag)) && d.delta != 0
      ensures r.Ok? ==> Sorting.Sorted(r.value, DeltaOrder())
    {
      if exists id :: id in ids && id !in documents {
        return Err("document tag target not found");
      }
      var items, counts := Plan(fold, table, ids, tags, mode);
      if items.None? {
        return Err("a document cannot have more than 50 tags");
      }
      var deltas := Report(counts);
      table := Rewrite(fold, table, ids, tags, mode, items.value);
      return Ok(deltas);
    }
  }

  // ---------- conservation ----------

  function Visibles(fold: string -> string, table: Table, f: string): Key -> int {
    (id: Key) => Occurrences(fold, Visible(table, id), f)
  }

  /** How often the folded tag is shown over a list of documents. */
  function Facet(fold: string -> string, table: Table, documents: seq<Key>, f: string): int {
    Sum(documents, Visibles(fold, table, f))
  }

  lemma {:induction false} SumSplit(xs: seq<Key>, g: Key -> int, h: Key -> int, d: Key -> int)
    requires forall x | x in xs :: g(x) == h(x) + d(x)
    ensures Sum(xs, g) == Sum(xs, h) + Sum(xs, d)
  {
    if xs != [] {
      assert xs[0] in xs && forall x | x in xs[1..] :: x in xs;
      SumSplit(xs[1..], g, h, d);
    }
  }

  /** Documents that a function ignores can be left out of its sum. */
  lemma {:induction false} SumOver(all: seq<Key>, ids: seq<Key>, g: Key -> int)
    requires Sorting.Distinct(all) && Sorting.Distinct(ids) && forall id | id in ids :: id in all
    requires forall x | x in all && x !in ids :: g(x) == 0
    ensures Sum(all, g) == Sum(ids, g)
    decreases |ids|
  {
    if ids == [] {
      SumZero(all, g);
    } else {
      var x, rest := ids[0], ids[1..];
      Sorting.DistinctTail(ids);
      var k :| 0 <= k < |all| && all[k] == x;
      var before, after := all[..k], all[k + 1..];
      LeftOut(all, k);
      SumOver(before + after, rest, g);
      assert all == before + ([x] + after);
      SumAppend(before, [x] + after, g);
      SumAppend(before, after, g);
      assert ([x] + after)[1..] == after;
    }
  }

  lemma LeftOut(all: seq<Key>, k: nat)
    requires Sorting.Distinct(all) && k < |all|
    ensures Sorting.Distinct(all[..k] + all[k + 1..])
    ensures forall y :: y in all[..k] + all[k + 1..] <==> y in all && y != all[k]
  {
  }

  lemma {:induction false} SumZero(xs: seq<Key>, g: Key -> int)
    requires forall x | x in xs :: g(x) == 0
    ensures Sum(xs, g) == 0
  {
    if xs != [] {
      assert xs[0] in xs && forall x | x in xs[1..] :: x in xs;
      SumZero(xs[1..], g);
    }
  }

  lemma FinalIsVisible(fold: string -> string, table: Table, tags: seq<string>, mode: Mode, id: Key)
    requires forall t | t in tags :: NonBlank(t)
    ensures Filter(Final(fold, table, tags, mode, id), NonBlank) == Final(fold, table, tags, mode, id)
  {
    var current, final := Visible(table, id), Final(fold, table, tags, mode, id);
    FilterMembers(TagsOf(table, id), NonBlank);
    ApplyMembers(fold, current, tags, mode);
    forall t | t in final ensures NonBlank(t) {
      if mode == Replace {
        Sorting.SameElements(final, tags);
      }
    }
    FilterAll(final, NonBlank);
  }

  /** The number of times a facet is shown over the whole library changes by exactly the reported delta, which is zero
      for every facet that is not reported. */
  lemma FacetsConserved(fold: string -> string, table: Table, after: Table, library: seq<Key>, ids: seq<Key>, tags: seq<string>,
                        mode: Mode, f: string)
    requires Sorting.Distinct(library) && Sorting.Distinct(ids) && forall id | id in ids :: id in library
    requires forall t | t in tags :: NonBlank(t)
    requires Rewritten(fold, table, ids, tags, mode, after)
    ensures Facet(fold, after, library, f) == Facet(fold, table, library, f) + Sum(ids, Change(fold, table, tags, mode, f))
  {
    var before, now, change := Visibles(fold, table, f), Visibles(fold, after, f), Change(fold, table, tags, mode, f);
    var diff := (id: Key) => now(id) - before(id);
    SumSplit(library, now, before, diff);
    forall id | id in ids ensures diff(id) == change(id) {
      FinalIsVisible(fold, table, tags, mode, id);
    }
    SumOver(library, ids, diff);
    SumSame(ids, diff, change);
  }

  lemma {:induction false} SumSame(xs: seq<Key>, g: Key -> int, h: Key -> int)
    requires forall x | x in xs :: g(x) == h(x)
    ensures Sum(xs, g) == Sum(xs, h)
  {
    if xs != [] {
      assert xs[0] in xs && forall x | x in xs[1..] :: x in xs;
      SumSame(xs[1..], g, h);
    }
  }
}
