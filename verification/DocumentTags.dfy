/** Tags of documents: normalising a request, applying it to one list of tags, and the batch transaction with its facet
    deltas. `fold` stands for case folding: two tags are the same tag when their folds are equal. */
module DocumentTags {
  import opened Basics
  import Sorting
  import Text

  datatype Mode = Add | Remove | Replace

  const MAX_TAGS := 50
  const MAX_IDS := 200

  // ---------- one list of tags ----------

  predicate ContainsFold(fold: string -> string, tags: seq<string>, tag: string) {
    exists t :: t in tags && fold(t) == fold(tag)
  }

  /** The tags of `requested` that are not there yet, appended one by one. */
  function AddAll(fold: string -> string, current: seq<string>, requested: seq<string>): seq<string>
    decreases |requested|
  {
    if requested == [] then current
    else AddAll(fold, if ContainsFold(fold, current, requested[0]) then current else current + [requested[0]], requested[1..])
  }

  function Unwanted(fold: string -> string, requested: seq<string>): string -> bool {
    (tag: string) => !ContainsFold(fold, requested, tag)
  }

  predicate TagBefore(fold: string -> string, a: string, b: string) {
    Text.Below(fold(a), fold(b)) || (fold(a) == fold(b) && Text.Below(a, b))
  }

  function TagOrder(fold: string -> string): (string, string) -> bool {
    (a, b) => TagBefore(fold, a, b)
  }

  function Changed(fold: string -> string, current: seq<string>, requested: seq<string>, mode: Mode): seq<string> {
    match mode
    case Replace => requested
    case Remove => Filter(current, Unwanted(fold, requested))
    case Add => AddAll(fold, current, requested)
  }

  function Apply(fold: string -> string, current: seq<string>, requested: seq<string>, mode: Mode): seq<string> {
    Sorting.Sort(Changed(fold, current, requested, mode), TagOrder(fold))
  }

  method Contains(fold: string -> string, tags: seq<string>, tag: string) returns (found: bool)
    ensures found == ContainsFold(fold, tags, tag)
  {
    for i := 0 to |tags|
      invariant forall t | t in tags[..i] :: fold(t) != fold(tag)
    {
      if fold(tags[i]) == fold(tag) {
        assert tags[i] in tags;
        return true;
      }
    }
    assert tags[..|tags|] == tags;
    return false;
  }

  method ApplyMode(fold: string -> string, current: seq<string>, requested: seq<string>, mode: Mode) returns (result: seq<string>)
    ensures result == Apply(fold, current, requested, mode)
  {
    result := [];
    match mode {
      case Replace =>
        result := requested;
      case Remove =>
        ghost var front: seq<string> := [];
        for i := 0 to |current|
          invariant front == current[..i] && result == Filter(front, Unwanted(fold, requested))
        {
          var found := Contains(fold, requested, current[i]);
          FilterOne(front, current[i], Unwanted(fold, requested));
          front := front + [current[i]];
          if !found {
            result := result + [current[i]];
          }
        }
        assert front == current;
      case Add =>
        result := current;
        for i := 0 to |requested|
          invariant AddAll(fold, result, requested[i..]) == AddAll(fold, current, requested)
        {
          assert requested[i..][1..] == requested[i + 1..];
          var found := Contains(fold, result, requested[i]);
          if !found {
            result := result + [requested[i]];
          }
        }
    }
    result := Sorting.Sort(result, TagOrder(fold));
  }

  // ---------- what applying achieves ----------

  lemma TagOrderRanks(fold: string -> string, tags: seq<string>)
    ensures Sorting.StrictOrder(TagOrder(fold)) && Sorting.Ranks(TagOrder(fold), tags)
  {
    forall a: string, b: string
      ensures !(TagBefore(fold, a, b) && TagBefore(fold, b, a)) && (TagBefore(fold, a, b) || a == b || TagBefore(fold, b, a))
    {
      Text.BelowIsTotal(a, b);
      Text.BelowIsTotal(fold(a), fold(b));
    }
    forall a: string, b: string, c: string | TagBefore(fold, a, b) && TagBefore(fold, b, c) ensures TagBefore(fold, a, c) {
      if fold(a) == fold(b) == fold(c) {
        Text.BelowIsTransitive(a, b, c);
      } else if fold(a) != fold(b) && fold(b) != fold(c) {
        Text.BelowIsTransitive(fold(a), fold(b), fold(c));
      }
    }
  }

  /** No two entries are the same tag. */
  ghost predicate FoldDistinct(fold: string -> string, tags: seq<string>) {
    forall i, j | 0 <= i < j < |tags| :: fold(tags[i]) != fold(tags[j])
  }

  lemma {:induction false} AddAllMembers(fold: string -> string, current: seq<string>, requested: seq<string>)
    ensures forall t | t in current :: t in AddAll(fold, current, requested)
    ensures forall t | t in requested :: ContainsFold(fold, AddAll(fold, current, requested), t)
    ensures forall t | t in AddAll(fold, current, requested) :: t in current || (t in requested && !ContainsFold(fold, current, t))
    decreases |requested|
  {
    if requested != [] {
      var head, tail := requested[0], requested[1..];
      assert requested == [head] + tail;
      var next := if ContainsFold(fold, current, head) then current else current + [head];
      assert forall t | t in current :: t in next;
      AddAllMembers(fold, next, tail);
      assert ContainsFold(fold, next, head) by {
        assert head in next || ContainsFold(fold, current, head);
      }
      var t0 :| t0 in next && fold(t0) == fold(head);
      assert t0 in AddAll(fold, next, tail);
      forall t | t in AddAll(fold, current, requested) ensures t in current || (t in requested && !ContainsFold(fold, current, t)) {
        if t !in next {
          assert !ContainsFold(fold, next, t);
        }
      }
    }
  }

  /** The first spelling of its tag among the requested ones. */
  ghost predicate First(fold: string -> string, requested: seq<string>, i: int) {
    0 <= i < |requested| && forall j | 0 <= j < i :: fold(requested[j]) != fold(requested[i])
  }

  /** What adding adds: of each tag that was not there the first spelling. */
  lemma {:induction false} AddAllFirsts(fold: string -> string, current: seq<string>, requested: seq<string>)
    ensures forall t :: t in AddAll(fold, current, requested) <==>
      t in current || (!ContainsFold(fold, current, t) && exists i :: First(fold, requested, i) && requested[i] == t)
    decreases |requested|
  {
    if requested != [] {
      var head, tail := requested[0], requested[1..];
      var next := if ContainsFold(fold, current, head) then current else current + [head];
      AddAllFirsts(fold, next, tail);
      forall t ensures t in AddAll(fold, current, requested) <==>
        t in current || (!ContainsFold(fold, current, t) && exists i :: First(fold, requested, i) && requested[i] == t)
      {
        FirstOfTail(fold, current, requested, t);
      }
    }
  }

  lemma ContainsMore(fold: string -> string, current: seq<string>, head: string, t: string)
    ensures ContainsFold(fold, if ContainsFold(fold, current, head) then current else current + [head], t) <==>
      ContainsFold(fold, current, t) || fold(t) == fold(head)
  {
    assert head in current + [head];
    assert forall u | u in current :: u in current + [head];
  }

  lemma FirstOfTail(fold: string -> string, current: seq<string>, requested: seq<string>, t: string)
    requires requested != []
    ensures var head, tail := requested[0], requested[1..];
      var next := if ContainsFold(fold, current, head) then current else current + [head];
      (t in next || (!ContainsFold(fold, next, t) && exists i :: First(fold, tail, i) && tail[i] == t)) <==>
      (t in current || (!ContainsFold(fold, current, t) && exists i :: First(fold, requested, i) && requested[i] == t))
  {
    var head, tail := requested[0], requested[1..];
    var next := if ContainsFold(fold, current, head) then current else current + [head];
    assert First(fold, requested, 0) && requested[0] == head;
    ContainsMore(fold, current, head, t);
    if fold(t) != fold(head) {
      if i :| First(fold, tail, i) && tail[i] == t {
        assert First(fold, requested, i + 1) && requested[i + 1] == t;
      }
      if i :| First(fold, requested, i) && requested[i] == t {
        assert First(fold, tail, i - 1) && tail[i - 1] == t;
      }
    }
  }

  lemma {:induction false} AddAllNothing(fold: string -> string, current: seq<string>, requested: seq<string>)
    requires forall t | t in requested :: ContainsFold(fold, current, t)
    ensures AddAll(fold, current, requested) == current
    decreases |requested|
  {
    if requested != [] {
      assert requested[0] in requested && forall t | t in requested[1..] :: t in requested;
      AddAllNothing(fold, current, requested[1..]);
    }
  }

  lemma {:induction false} AddAllDistinct(fold: string -> string, current: seq<string>, requested: seq<string>)
    requires FoldDistinct(fold, current)
    ensures FoldDistinct(fold, AddAll(fold, current, requested))
    decreases |requested|
  {
    if requested != [] {
      var next := if ContainsFold(fold, current, requested[0]) then current else current + [requested[0]];
      forall i, j | 0 <= i < j < |next| ensures fold(next[i]) != fold(next[j]) {
        assert next[i] in current;
      }
      AddAllDistinct(fold, next, requested[1..]);
    }
  }

  /** What ends up in the list: for adding, everything that was there and whatever was missing; for removing, everything
      that was not named; for replacing, what was named. */
  lemma ApplyMembers(fold: string -> string, current: seq<string>, requested: seq<string>, mode: Mode)
    ensures var result := Apply(fold, current, requested, mode);
      match mode
      case Add =>
        && (forall t | t in current :: t in result) && (forall t | t in requested :: ContainsFold(fold, result, t))
        && (forall t | t in result :: t in current || (t in requested && !ContainsFold(fold, current, t)))
      case Remove => forall t :: t in result <==> t in current && !ContainsFold(fold, requested, t)
      case Replace => multiset(result) == multiset(requested)
  {
    AddAllMembers(fold, current, requested);
    FilterMembers(current, Unwanted(fold, requested));
    var added, result := AddAll(fold, current, requested), Apply(fold, current, requested, mode);
    Sorting.SortElements(Changed(fold, current, requested, mode), TagOrder(fold));
    if mode == Add {
      forall t | t in requested ensures ContainsFold(fold, result, t) {
        var u :| u in added && fold(u) == fold(t);
        assert u in result;
      }
    }
  }

  lemma FoldDistinctByCounts(fold: string -> string, xs: seq<string>, ys: seq<string>)
    requires FoldDistinct(fold, xs) && multiset(ys) <= multiset(xs)
    ensures FoldDistinct(fold, ys)
  {
    forall i, j | 0 <= i < j < |ys| ensures fold(ys[i]) != fold(ys[j]) {
      assert ys[i] in multiset(ys) && ys[j] in multiset(ys);
      assert ys[i] in multiset(xs) && ys[j] in multiset(xs);
      var a :| 0 <= a < |xs| && xs[a] == ys[i];
      var b :| 0 <= b < |xs| && xs[b] == ys[j];
      if ys[i] == ys[j] {
        Sorting.RepeatCounts(ys, i, j);
        StringsDistinct(fold, xs);
        Sorting.CountsFromDistinct(xs, ys[i]);
      }
    }
  }

  lemma StringsDistinct(fold: string -> string, xs: seq<string>)
    requires FoldDistinct(fold, xs)
    ensures Sorting.Distinct(xs)
  {
  }

  /** Lists without repeated tags stay so, and come out sorted by folded tag. */
  lemma ApplyCanonical(fold: string -> string, current: seq<string>, requested: seq<string>, mode: Mode)
    requires FoldDistinct(fold, current) && FoldDistinct(fold, requested)
    ensures var result := Apply(fold, current, requested, mode);
      && FoldDistinct(fold, result) && Sorting.Sorted(result, TagOrder(fold))
      && forall i, j | 0 <= i < j < |result| :: Text.Below(fold(result[i]), fold(result[j]))
  {
    var changed, result := Changed(fold, current, requested, mode), Apply(fold, current, requested, mode);
    TagOrderRanks(fold, changed);
    Sorting.SortSorts(changed, TagOrder(fold));
    AddAllDistinct(fold, current, requested);
    FilterBounded(current, Unwanted(fold, requested));
    if mode == Remove {
      FoldDistinctByCounts(fold, current, changed);
    }
    FoldDistinctByCounts(fold, changed, result);
    forall i, j | 0 <= i < j < |result| ensures Text.Below(fold(result[i]), fold(result[j])) {
      Text.BelowIsTotal(fold(result[i]), fold(result[j]));
      assert !TagOrder(fold)(result[j], result[i]);
    }
  }

  /** Adding the same tags again changes nothing. */
  lemma AddIdempotent(fold: string -> string, current: seq<string>, requested: seq<string>)
    ensures var once := Apply(fold, current, requested, Add); Apply(fold, once, requested, Add) == once
  {
    var once := Apply(fold, current, requested, Add);
    ApplyMembers(fold, current, requested, Add);
    AddAllNothing(fold, once, requested);
    var added := AddAll(fold, current, requested);
    TagOrderRanks(fold, added);
    TagOrderRanks(fold, once);
    Sorting.SortSorts(added, TagOrder(fold));
    Sorting.SortKeepsSorted(once, TagOrder(fold));
  }

  lemma {:induction false} AddedIsRemoved(fold: string -> string, current: seq<string>, requested: seq<string>, all: seq<string>)
    requires forall t | t in requested :: t in all
    ensures Filter(AddAll(fold, current, requested), Unwanted(fold, all)) == Filter(current, Unwanted(fold, all))
    decreases |requested|
  {
    if requested != [] {
      assert requested[0] in requested && forall t | t in requested[1..] :: t in requested;
      var next := if ContainsFold(fold, current, requested[0]) then current else current + [requested[0]];
      AddedIsRemoved(fold, next, requested[1..], all);
      FilterOne(current, requested[0], Unwanted(fold, all));
    }
  }

  /** Removing after adding leaves exactly what removing alone leaves, as equal lists. */
  lemma RemoveAfterAdd(fold: string -> string, current: seq<string>, requested: seq<string>)
    ensures Apply(fold, Apply(fold, current, requested, Add), requested, Remove) == Apply(fold, current, requested, Remove)
  {
    var less, keep := TagOrder(fold), Unwanted(fold, requested);
    var added := AddAll(fold, current, requested);
    TagOrderRanks(fold, added);
    Sorting.SortFilter(added, keep, less);
    AddedIsRemoved(fold, current, requested, requested);
    var removed := Filter(current, keep);
    TagOrderRanks(fold, removed);
    TagOrderRanks(fold, Sorting.Sort(removed, less));
    Sorting.SortSorts(removed, less);
    Sorting.SortKeepsSorted(Sorting.Sort(removed, less), less);
  }

  // ---------- normalising a request ----------

  datatype Request = Request(ids: seq<int>, mode: string, tags: seq<string>)

  predicate TagValid(valid: string -> bool, tag: string) {
    tag != "" && valid(tag)
  }

  /** The tags are trimmed and checked one by one; the first spelling of each is kept. */
  method CollectTags(fold: string -> string, trim: string -> string, valid: string -> bool, tags: seq<string>)
    returns (r: Result<seq<string>, string>)
    ensures r.Ok? <==> forall t | t in tags :: TagValid(valid, trim(t))
    ensures r.Ok? ==> r.value == AddAll(fold, [], Map(trim, tags))
  {
    var out: seq<string> := [];
    ghost var all := Map(trim, tags);
    for i := 0 to |tags|
      invariant AddAll(fold, out, all[i..]) == AddAll(fold, [], all)
      invariant forall j | 0 <= j < i :: TagValid(valid, trim(tags[j]))
    {
      var tag := trim(tags[i]);
      if tag == "" || !valid(tag) {
        assert tags[i] in tags;
        return Err("invalid tag");
      }
      assert all[i..][1..] == all[i + 1..];
      var duplicate := Contains(fold, out, tag);
      if !duplicate {
        out := out + [tag];
      }
    }
    r := Ok(out);
  }

  /** `valid` is the check for UTF-8, length and control characters. */
  method NormalizeTags(fold: string -> string, valid: string -> bool, tags: seq<string>) returns (r: Result<seq<string>, string>)
    ensures r.Ok? <==> forall t | t in tags :: Text.Trim(t) != "" && valid(Text.Trim(t))
    ensures r.Ok? ==> r.value == AddAll(fold, [], Map(Text.Trim, tags)) && FoldDistinct(fold, r.value)
    ensures r.Ok? ==> forall t :: t in r.value <==> exists i :: First(fold, Map(Text.Trim, tags), i) && Map(Text.Trim, tags)[i] == t
  {
    r := CollectTags(fold, Text.Trim, valid, tags);
    AddAllFirsts(fold, [], Map(Text.Trim, tags));
    AddAllDistinct(fold, [], Map(Text.Trim, tags));
  }

  function FirstIds(ids: seq<int>): (r: seq<Key>)
    ensures Sorting.Distinct(r) && (forall k :: k in r <==> k.n in ids)
  {
    if ids == [] then []
    else
      var n := |ids| - 1;
      assert ids == ids[..n] + [ids[n]];
      var r := FirstIds(ids[..n]);
      if Key(ids[n]) in r then r else r + [Key(ids[n])]
  }

  function ModeOf(mode: string): Option<Mode> {
    if mode == "add" then Some(Add) else if mode == "remove" then Some(Remove) else if mode == "replace" then Some(Replace) else None
  }

  method NormalizeIds(raw: seq<int>) returns (r: Option<seq<Key>>)
    ensures r.Some? <==> forall id | id in raw :: id > 0
    ensures r.Some? ==> r.value == FirstIds(raw)
  {
    var ids: seq<Key> := [];
    var seen: set<Key> := {};
    for i := 0 to |raw|
      invariant ids == FirstIds(raw[..i]) && (forall k :: k in seen <==> k in ids)
      invariant forall j | 0 <= j < i :: raw[j] > 0
    {
      assert raw[..i + 1][..i] == raw[..i];
      var key := Key(raw[i]);
      if key.n <= 0 {
        assert raw[i] in raw;
        return None;
      }
      if key in seen {
        continue;
      }
      seen := seen + {key};
      ids := ids + [key];
    }
    assert raw[..|raw|] == raw;
    return Some(ids);
  }

  /** A request is accepted exactly when its mode is known, its ids are positive and number 1 to 200 different ones, and
      its tags are valid and number 1 to 50 different ones. */
  method NormalizeRequest(fold: string -> string, valid: string -> bool, q: Request)
    returns (r: Result<(seq<Key>, seq<string>, Mode), string>)
    ensures r.Ok? <==>
      && (q.mode == "add" || q.mode == "remove" || q.mode == "replace") && (forall id | id in q.ids :: id > 0) && 1 <= |FirstIds(q.ids)| <= MAX_IDS
      && (forall t | t in q.tags :: Text.Trim(t) != "" && valid(Text.Trim(t))) && 1 <= |AddAll(fold, [], Map(Text.Trim, q.tags))| <= MAX_TAGS
    ensures r.Ok? ==>
      && r.value.0 == FirstIds(q.ids) && r.value.1 == AddAll(fold, [], Map(Text.Trim, q.tags)) && FoldDistinct(fold, r.value.1)
      && r.value.2 == if q.mode == "add" then Add else if q.mode == "remove" then Remove else Replace
  {
    if ModeOf(q.mode).None? {
      return Err("mode must be add, remove, or replace");
    }
    var ids := NormalizeIds(q.ids);
    if ids.None? {
      return Err("media_ids must be positive");
    }
    if |ids.value| == 0 || |ids.value| > MAX_IDS {
      return Err("media_ids must contain 1 to 200 unique ids");
    }
    var tags := NormalizeTags(fold, valid, q.tags);
    if tags.Err? || |tags.value| == 0 {
      return Err("tags must contain at least one valid tag");
    }
    if |tags.value| > MAX_TAGS {
      return Err("tags must contain at most 50 unique tags");
    }
    return Ok((ids.value, tags.value, ModeOf(q.mode).value));
  }
}
