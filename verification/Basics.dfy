/** Vocabulary shared by the models: nullable columns, row keys, and a few facts about sequences. */
module Basics {

  datatype Option<+T> = None | Some(value: T)

  datatype Result<+T, +E> = Ok(value: T) | Err(error: E)

  /** A row id. A datatype rather than a bare number, so that maps and sets of rows are easy to compare. */
  datatype Key = Key(n: int)

  function OrElse<T>(o: Option<T>, default: T): T {
    if o.Some? then o.value else default
  }

  /** COALESCE(column, '') */
  function OrEmpty(o: Option<string>): string {
    OrElse(o, "")
  }

  function Filter<T(!new)>(xs: seq<T>, keep: T -> bool): (r: seq<T>)
    ensures |r| <= |xs|
  {
    if xs == [] then []
    else if keep(xs[0]) then [xs[0]] + Filter(xs[1..], keep)
    else Filter(xs[1..], keep)
  }

  lemma {:induction false} FilterMembers<T(!new)>(xs: seq<T>, keep: T -> bool)
    ensures forall x :: x in Filter(xs, keep) <==> x in xs && keep(x)
  {
    if xs != [] {
      assert xs == [xs[0]] + xs[1..];
      FilterMembers(xs[1..], keep);
    }
  }

  lemma FilterMapAppend<S, T(!new)>(f: S -> T, keep: T -> bool, xs: seq<S>, x: S)
    ensures Filter(Map(f, xs + [x]), keep) == Filter(Map(f, xs), keep) + (if keep(f(x)) then [f(x)] else [])
  {
    assert Map(f, xs + [x]) == Map(f, xs) + [f(x)];
    FilterOne(Map(f, xs), f(x), keep);
  }

  lemma {:induction false} FilterAppend<T(!new)>(xs: seq<T>, ys: seq<T>, keep: T -> bool)
    ensures Filter(xs + ys, keep) == Filter(xs, keep) + Filter(ys, keep)
  {
    if xs == [] {
      assert xs + ys == ys;
    } else {
      assert (xs + ys)[1..] == xs[1..] + ys;
      FilterAppend(xs[1..], ys, keep);
    }
  }

  lemma {:induction false} FilterSame<T(!new)>(xs: seq<T>, p: T -> bool, q: T -> bool)
    requires forall x | x in xs :: p(x) == q(x)
    ensures Filter(xs, p) == Filter(xs, q)
  {
    if xs != [] {
      assert xs == [xs[0]] + xs[1..];
      FilterSame(xs[1..], p, q);
    }
  }

  lemma {:induction false} FilterFilter<T(!new)>(xs: seq<T>, p: T -> bool, q: T -> bool, both: T -> bool)
    requires forall x | x in xs :: both(x) <==> p(x) && q(x)
    ensures Filter(Filter(xs, p), q) == Filter(xs, both)
  {
    if xs != [] {
      var r := Filter(xs[1..], p);
      assert xs == [xs[0]] + xs[1..];
      assert ([xs[0]] + r)[1..] == r;
      FilterFilter(xs[1..], p, q, both);
    }
  }

  lemma {:induction false} FilterAll<T(!new)>(xs: seq<T>, keep: T -> bool)
    requires forall x | x in xs :: keep(x)
    ensures Filter(xs, keep) == xs
  {
    if xs != [] {
      FilterAll(xs[1..], keep);
    }
  }

  lemma {:induction false} FilterNone<T(!new)>(xs: seq<T>, keep: T -> bool)
    requires forall x | x in xs :: !keep(x)
    ensures Filter(xs, keep) == []
  {
    if xs != [] {
      FilterNone(xs[1..], keep);
    }
  }

  lemma {:induction false} FilterBounded<T(!new)>(xs: seq<T>, keep: T -> bool)
    ensures multiset(Filter(xs, keep)) <= multiset(xs)
  {
    if xs != [] {
      assert xs == [xs[0]] + xs[1..];
      FilterBounded(xs[1..], keep);
    }
  }

  /** SQL's LIMIT */
  function Take<T>(xs: seq<T>, n: nat): seq<T> {
    if |xs| <= n then xs else xs[..n]
  }

  lemma TakeSplits<T>(front: seq<T>, rest: seq<T>, n: nat)
    ensures var batch := Take(rest, n); var left := rest[|batch|..];
      && front + rest == (front + batch) + left && |batch| <= n && (|batch| < n ==> left == [])
      && (batch != [] ==> (front + batch)[|front + batch| - 1] == batch[|batch| - 1])
  {
  }

  lemma {:induction false} FilterOne<T(!new)>(xs: seq<T>, x: T, keep: T -> bool)
    ensures Filter(xs + [x], keep) == Filter(xs, keep) + (if keep(x) then [x] else [])
  {
    FilterAppend(xs, [x], keep);
    assert [x][1..] == [];
  }

  /** Collecting from one batch more. */
  lemma BatchAdvances<T(!new)>(keep: T -> bool, front: seq<T>, batch: seq<T>, limit: nat, items: seq<T>)
    requires items == Take(Filter(front, keep), limit) && |items| < limit
    ensures Take(items + Filter(batch, keep), limit) == Take(Filter(front + batch, keep), limit)
  {
    FilterAppend(front, batch, keep);
  }

  /** Once enough elements passed, or none are left, the rest does not matter. */
  lemma FilterFinishes<T(!new)>(keep: T -> bool, front: seq<T>, rest: seq<T>, limit: nat, items: seq<T>)
    requires items == Take(Filter(front, keep), limit) && (rest == [] || |items| >= limit)
    ensures items == Take(Filter(front + rest, keep), limit)
  {
    FilterAppend(front, rest, keep);
    TakeEnough(Filter(front, keep), Filter(rest, keep), limit);
  }

  lemma TakeEnough<T>(xs: seq<T>, ys: seq<T>, n: nat)
    requires |xs| >= n || ys == []
    ensures Take(xs + ys, n) == Take(xs, n)
  {
  }

  function Map<S, T>(f: S -> T, xs: seq<S>): (r: seq<T>)
    ensures |r| == |xs| && forall i | 0 <= i < |xs| :: r[i] == f(xs[i])
  {
    seq(|xs|, i requires 0 <= i < |xs| => f(xs[i]))
  }

  function Count<T(!new)>(xs: seq<T>, keep: T -> bool): nat {
    |Filter(xs, keep)|
  }

  lemma CountAppend<T(!new)>(xs: seq<T>, x: T, keep: T -> bool)
    ensures Count(xs + [x], keep) == Count(xs, keep) + (if keep(x) then 1 else 0)
  {
    FilterOne(xs, x, keep);
  }
}

/** The string operations the handlers rely on. */
module Text {

  /** unicode.IsSpace */
  predicate IsSpace(c: char) {
    || c == ' ' || '\t' <= c <= '\r' || c == '\U{85}' || c == '\U{A0}' || c == '\U{1680}' || '\U{2000}' <= c <= '\U{200A}'
    || c == '\U{2028}' || c == '\U{2029}' || c == '\U{202F}' || c == '\U{205F}' || c == '\U{3000}'
  }

  function TrimLeft(s: string): string {
    if s != "" && IsSpace(s[0]) then TrimLeft(s[1..]) else s
  }

  function TrimRight(s: string): string {
    if s != "" && IsSpace(s[|s| - 1]) then TrimRight(s[..|s| - 1]) else s
  }

  /** strings.TrimSpace */
  function Trim(s: string): string {
    TrimRight(TrimLeft(s))
  }

  /** strings.Join */
  function Join(parts: seq<string>, separator: string): string {
    if |parts| == 0 then ""
    else if |parts| == 1 then parts[0]
    else parts[0] + separator + Join(parts[1..], separator)
  }

  /** The byte order that sorts strings, read here on characters. */
  predicate Below(a: string, b: string) {
    if b == "" then false
    else if a == "" then true
    else a[0] < b[0] || (a[0] == b[0] && Below(a[1..], b[1..]))
  }

  lemma {:induction false} BelowIsTotal(a: string, b: string)
    ensures Below(a, b) || a == b || Below(b, a)
    ensures !(Below(a, b) && Below(b, a)) && !Below(a, a)
  {
    if a != "" && b != "" {
      assert a == [a[0]] + a[1..] && b == [b[0]] + b[1..];
      BelowIsTotal(a[1..], b[1..]);
      BelowIsTotal(a[1..], a[1..]);
    } else if a != "" {
      BelowIsTotal(a[1..], a[1..]);
    }
  }

  lemma {:induction false} BelowIsTransitive(a: string, b: string, c: string)
    requires Below(a, b) && Below(b, c)
    ensures Below(a, c)
  {
    if a != "" && a[0] == b[0] == c[0] {
      BelowIsTransitive(a[1..], b[1..], c[1..]);
    }
  }

  /** A string is below another exactly if it is a proper part of its beginning, or has the smaller character at the first
      place where they differ. */
  lemma {:induction false} BelowExact(a: string, b: string)
    ensures Below(a, b) <==>
      || a < b
      || exists i | 0 <= i < |a| && i < |b| :: a[..i] == b[..i] && a[i] < b[i]
  {
    if a != "" && b != "" {
      var s, t := a[1..], b[1..];
      BelowExact(s, t);
      assert a == [a[0]] + s && b == [b[0]] + t;
      if i :| 0 <= i < |s| && i < |t| && s[..i] == t[..i] && s[i] < t[i] && a[0] == b[0] {
        assert a[..i + 1] == [a[0]] + s[..i] && b[..i + 1] == [b[0]] + t[..i] && a[i + 1] < b[i + 1];
      }
      if i :| 0 < i < |a| && i < |b| && a[..i] == b[..i] && a[i] < b[i] {
        assert s[..i - 1] == a[..i][1..] && t[..i - 1] == b[..i][1..] && s[i - 1] < t[i - 1];
      }
      if a[0] < b[0] {
        assert a[..0] == b[..0] && a[0] < b[0];
      }
    }
  }

  predicate Blank(s: string) {
    forall c | c in s :: IsSpace(c)
  }

  lemma {:induction false} TrimLeftExact(s: string) returns (i: nat)
    ensures i <= |s| && TrimLeft(s) == s[i..] && Blank(s[..i]) && (i < |s| ==> !IsSpace(s[i]))
  {
    i := 0;
    if s != "" && IsSpace(s[0]) {
      var k := TrimLeftExact(s[1..]);
      i := k + 1;
      assert s[..i] == [s[0]] + s[1..][..k];
    }
  }

  lemma {:induction false} TrimRightExact(s: string) returns (j: nat)
    ensures j <= |s| && TrimRight(s) == s[..j] && Blank(s[j..]) && (j > 0 ==> !IsSpace(s[j - 1]))
  {
    j := |s|;
    if s != "" && IsSpace(s[|s| - 1]) {
      var t := s[..|s| - 1];
      j := TrimRightExact(t);
      assert s[j..] == t[j..] + [s[|s| - 1]];
    }
  }

  /** What is trimmed off is white space, and what is left begins and ends with something else. */
  lemma TrimExact(s: string) returns (left: string, right: string)
    ensures s == left + Trim(s) + right && Blank(left) && Blank(right)
    ensures Trim(s) != "" ==> !IsSpace(Trim(s)[0]) && !IsSpace(Trim(s)[|Trim(s)| - 1])
  {
    var i := TrimLeftExact(s);
    var j := TrimRightExact(s[i..]);
    left, right := s[..i], s[i..][j..];
    assert s == s[..i] + (s[i..][..j] + s[i..][j..]);
  }
}

/** Sorting by an order without ties, which is all that the database's ORDER BY
    and Go's sort package promise where the order leaves no ties. */
module Sorting {
  import opened Basics

  ghost predicate StrictOrder<T(!new)>(less: (T, T) -> bool) {
    && (forall a, b :: !(less(a, b) && less(b, a)))
    && (forall a, b, c :: less(a, b) && less(b, c) ==> less(a, c))
  }

  /** The order ranks any two different elements of `xs`. */
  ghost predicate Ranks<T>(less: (T, T) -> bool, xs: seq<T>) {
    forall a, b | a in xs && b in xs :: less(a, b) || a == b || less(b, a)
  }

  predicate Sorted<T>(xs: seq<T>, less: (T, T) -> bool) {
    forall i, j | 0 <= i < j < |xs| :: !less(xs[j], xs[i])
  }

  function Insert<T(==, !new)>(x: T, xs: seq<T>, less: (T, T) -> bool): seq<T> {
    if xs == [] || less(x, xs[0]) then [x] + xs else [xs[0]] + Insert(x, xs[1..], less)
  }

  function Sort<T(==, !new)>(xs: seq<T>, less: (T, T) -> bool): seq<T> {
    if xs == [] then [] else Insert(xs[0], Sort(xs[1..], less), less)
  }

  lemma {:induction false} InsertElements<T(!new)>(x: T, xs: seq<T>, less: (T, T) -> bool)
    ensures multiset(Insert(x, xs, less)) == multiset(xs) + multiset{x}
    ensures forall y :: y in Insert(x, xs, less) <==> y == x || y in xs
  {
    if xs != [] && !less(x, xs[0]) {
      assert xs == [xs[0]] + xs[1..];
      InsertElements(x, xs[1..], less);
    }
  }

  lemma {:induction false} SortElements<T(!new)>(xs: seq<T>, less: (T, T) -> bool)
    ensures multiset(Sort(xs, less)) == multiset(xs)
    ensures forall y :: y in Sort(xs, less) <==> y in xs
  {
    if xs != [] {
      assert xs == [xs[0]] + xs[1..];
      SortElements(xs[1..], less);
      InsertElements(xs[0], Sort(xs[1..], less), less);
    }
  }

  lemma SameElements<T>(xs: seq<T>, ys: seq<T>)
    requires multiset(xs) == multiset(ys)
    ensures |xs| == |ys| && forall x :: x in xs <==> x in ys
  {
    assert |multiset(xs)| == |multiset(ys)|;
    forall x ensures x in xs <==> x in ys {
      assert x in xs <==> x in multiset(xs);
      assert x in ys <==> x in multiset(ys);
    }
  }

  lemma SortedCons<T>(x: T, xs: seq<T>, less: (T, T) -> bool)
    requires Sorted(xs, less) && forall y | y in xs :: !less(y, x)
    ensures Sorted([x] + xs, less)
  {
  }

  lemma {:induction false} InsertSorts<T(!new)>(x: T, xs: seq<T>, less: (T, T) -> bool)
    requires StrictOrder(less) && Ranks(less, [x] + xs) && Sorted(xs, less)
    ensures Sorted(Insert(x, xs, less), less)
  {
    if xs == [] {
    } else if less(x, xs[0]) {
      forall y | y in xs ensures !less(y, x) {
        var k :| 0 <= k < |xs| && xs[k] == y;
        assert k == 0 || !less(xs[k], xs[0]);
      }
      SortedCons(x, xs, less);
    } else {
      assert forall y | y in [x] + xs[1..] :: y in [x] + xs;
      InsertSorts(x, xs[1..], less);
      InsertElements(x, xs[1..], less);
      forall y | y in Insert(x, xs[1..], less) ensures !less(y, xs[0]) {
        if y in xs[1..] {
          var k :| 0 <= k < |xs[1..]| && xs[1..][k] == y;
          assert y == xs[k + 1];
        }
      }
      SortedCons(xs[0], Insert(x, xs[1..], less), less);
    }
  }

  lemma {:induction false} SortSorts<T(!new)>(xs: seq<T>, less: (T, T) -> bool)
    requires StrictOrder(less) && Ranks(less, xs)
    ensures Sorted(Sort(xs, less), less) && multiset(Sort(xs, less)) == multiset(xs)
    ensures forall y :: y in Sort(xs, less) <==> y in xs
  {
    SortElements(xs, less);
    if xs != [] {
      SortElements(xs[1..], less);
      SortSorts(xs[1..], less);
      InsertSorts(xs[0], Sort(xs[1..], less), less);
    }
  }

  lemma SameFirst<T(!new)>(xs: seq<T>, ys: seq<T>, less: (T, T) -> bool)
    requires Ranks(less, xs) && Sorted(xs, less) && Sorted(ys, less) && xs != [] && ys != []
    requires forall x :: x in xs <==> x in ys
    ensures xs[0] == ys[0]
  {
    assert xs[0] in ys && ys[0] in xs;
    var j :| 0 <= j < |ys| && ys[j] == xs[0];
    var i :| 0 <= i < |xs| && xs[i] == ys[0];
    assert i == 0 || !less(xs[i], xs[0]);
    assert j == 0 || !less(ys[j], ys[0]);
  }

  lemma TailElements<T>(xs: seq<T>)
    requires xs != []
    ensures multiset(xs[1..]) == multiset(xs) - multiset{xs[0]}
  {
    assert xs == [xs[0]] + xs[1..];
  }

  /** A sorted arrangement is determined by what it contains. */
  lemma {:induction false} SortedUnique<T(!new)>(xs: seq<T>, ys: seq<T>, less: (T, T) -> bool)
    requires StrictOrder(less) && Ranks(less, xs) && Sorted(xs, less) && Sorted(ys, less) && multiset(xs) == multiset(ys)
    ensures xs == ys
  {
    SameElements(xs, ys);
    if xs != [] {
      SameFirst(xs, ys, less);
      SortedTail(xs, less);
      SortedTail(ys, less);
      TailElements(xs);
      TailElements(ys);
      SortedUnique(xs[1..], ys[1..], less);
      assert xs == [xs[0]] + xs[1..] && ys == [xs[0]] + ys[1..];
    }
  }

  /** Where the first element of `xs` went in a rearrangement of it. */
  lemma Located<T>(xs: seq<T>, ys: seq<T>) returns (before: seq<T>, after: seq<T>)
    requires multiset(xs) == multiset(ys) && xs != []
    ensures ys == before + ([xs[0]] + after) && multiset(before + after) == multiset(xs[1..])
  {
    assert xs[0] in multiset(xs);
    assert xs[0] in ys;
    var k :| 0 <= k < |ys| && ys[k] == xs[0];
    before, after := ys[..k], ys[k + 1..];
    assert ys == before + ([xs[0]] + after);
    assert multiset(ys) == multiset(before) + multiset{xs[0]} + multiset(after);
    assert xs == [xs[0]] + xs[1..];
    assert multiset(before + after) == multiset(ys) - multiset{xs[0]};
    assert multiset(xs[1..]) == multiset(xs) - multiset{xs[0]};
  }

  lemma {:induction false} FilterOfPermutation<T(!new)>(xs: seq<T>, ys: seq<T>, keep: T -> bool)
    requires multiset(xs) == multiset(ys)
    ensures multiset(Filter(xs, keep)) == multiset(Filter(ys, keep))
    decreases |xs|
  {
    if xs == [] {
      assert |multiset(ys)| == 0;
      assert ys == [];
    } else {
      var before, after := Located(xs, ys);
      FilterOfPermutation(xs[1..], before + after, keep);
      assert xs == [xs[0]] + xs[1..];
      FilterAppend(before, after, keep);
      FilterAppend(before, [xs[0]] + after, keep);
      FilterAppend([xs[0]], after, keep);
      FilterAppend([xs[0]], xs[1..], keep);
    }
  }

  lemma SortedTail<T>(xs: seq<T>, less: (T, T) -> bool)
    requires Sorted(xs, less) && xs != []
    ensures Sorted(xs[1..], less) && forall y | y in xs[1..] :: !less(y, xs[0])
  {
  }

  lemma {:induction false} FilterKeepsSorted<T(!new)>(xs: seq<T>, keep: T -> bool, less: (T, T) -> bool)
    requires Sorted(xs, less)
    ensures Sorted(Filter(xs, keep), less)
  {
    if xs != [] {
      SortedTail(xs, less);
      FilterKeepsSorted(xs[1..], keep, less);
      FilterMembers(xs[1..], keep);
      if keep(xs[0]) {
        SortedCons(xs[0], Filter(xs[1..], keep), less);
      }
    }
  }

  /** Filtering before sorting is filtering after it. */
  lemma SortFilter<T(!new)>(xs: seq<T>, keep: T -> bool, less: (T, T) -> bool)
    requires StrictOrder(less) && Ranks(less, xs)
    ensures Filter(Sort(xs, less), keep) == Sort(Filter(xs, keep), less)
  {
    SortSorts(xs, less);
    FilterMembers(xs, keep);
    FilterMembers(Sort(xs, less), keep);
    FilterKeepsSorted(Sort(xs, less), keep, less);
    FilterOfPermutation(Sort(xs, less), xs, keep);
    SortSorts(Filter(xs, keep), less);
    SortedUnique(Filter(Sort(xs, less), keep), Sort(Filter(xs, keep), less), less);
  }

  /** No element occurs twice. */
  ghost predicate Distinct<T>(xs: seq<T>) {
    forall i, j | 0 <= i < j < |xs| :: xs[i] != xs[j]
  }

  lemma RepeatCounts<T>(xs: seq<T>, i: nat, j: nat)
    requires i < j < |xs| && xs[i] == xs[j]
    ensures multiset(xs)[xs[i]] >= 2
  {
    var before, rest := xs[..j], xs[j..];
    assert xs == before + rest;
    assert before[i] == xs[i] && rest[0] == xs[i];
    assert xs[i] in multiset(before) && xs[i] in multiset(rest);
  }

  lemma DistinctFromCounts<T>(xs: seq<T>)
    requires forall x :: multiset(xs)[x] <= 1
    ensures Distinct(xs)
  {
    forall i, j | 0 <= i < j < |xs| ensures xs[i] != xs[j] {
      if xs[i] == xs[j] {
        RepeatCounts(xs, i, j);
      }
    }
  }

  lemma DistinctTail<T>(xs: seq<T>)
    requires Distinct(xs) && xs != []
    ensures Distinct(xs[1..]) && xs[0] !in xs[1..] && forall y :: y in xs <==> y == xs[0] || y in xs[1..]
  {
  }

  lemma {:induction false} CountsFromDistinct<T>(xs: seq<T>, x: T)
    requires Distinct(xs)
    ensures multiset(xs)[x] <= 1
  {
    if xs != [] {
      assert xs == [xs[0]] + xs[1..];
      DistinctTail(xs);
      CountsFromDistinct(xs[1..], x);
      assert xs[0] !in multiset(xs[1..]);
    }
  }

  lemma SelectionDistinct<T(!new)>(xs: seq<T>, keep: T -> bool, less: (T, T) -> bool)
    requires Distinct(xs)
    ensures Distinct(Filter(xs, keep)) && Distinct(Sort(Filter(xs, keep), less))
  {
    forall x ensures multiset(Filter(xs, keep))[x] <= 1 {
      CountsFromDistinct(xs, x);
      FilterBounded(xs, keep);
    }
    DistinctFromCounts(Filter(xs, keep));
    SortElements(Filter(xs, keep), less);
    DistinctFromCounts(Sort(Filter(xs, keep), less));
  }

  /** In a sorted list, what comes after an element is what the order puts after it. */
  lemma SuffixAfter<T(!new)>(xs: seq<T>, less: (T, T) -> bool, p: nat, after: T -> bool)
    requires StrictOrder(less) && Ranks(less, xs) && Sorted(xs, less) && Distinct(xs) && p < |xs|
    requires forall x | x in xs :: after(x) == less(xs[p], x)
    ensures Filter(xs, after) == xs[p + 1..]
  {
    var before, rest := xs[..p + 1], xs[p + 1..];
    forall x | x in before ensures !after(x) {
      var i :| 0 <= i < |before| && before[i] == x;
      assert x == xs[i];
      assert i == p || !less(xs[p], xs[i]);
    }
    forall x | x in rest ensures after(x) {
      var i :| 0 <= i < |rest| && rest[i] == x;
      assert x == xs[p + 1 + i] && xs[p] != xs[p + 1 + i];
      assert !less(xs[p + 1 + i], xs[p]);
    }
    assert xs == before + rest;
    FilterAppend(before, rest, after);
    FilterNone(before, after);
    FilterAll(rest, after);
  }

  /** Two orders that agree on the elements sort them alike. */
  lemma SortAgrees<T(!new)>(xs: seq<T>, less: (T, T) -> bool, other: (T, T) -> bool)
    requires StrictOrder(less) && Ranks(less, xs) && StrictOrder(other)
    requires forall a, b | a in xs && b in xs :: less(a, b) <==> other(a, b)
    ensures Sort(xs, less) == Sort(xs, other)
  {
    SortSorts(xs, less);
    SortSorts(xs, other);
    SortedUnique(Sort(xs, less), Sort(xs, other), less);
  }

  /** Sorting forgets the order it was given. */
  lemma SortForgetsOrder<T(!new)>(xs: seq<T>, ys: seq<T>, less: (T, T) -> bool)
    requires StrictOrder(less) && Ranks(less, xs) && multiset(xs) == multiset(ys)
    ensures Sort(xs, less) == Sort(ys, less)
  {
    SameElements(xs, ys);
    SortSorts(xs, less);
    SortSorts(ys, less);
    SortedUnique(Sort(xs, less), Sort(ys, less), less);
  }

  /** What is already sorted stays as it is. */
  lemma SortKeepsSorted<T(!new)>(xs: seq<T>, less: (T, T) -> bool)
    requires StrictOrder(less) && Ranks(less, xs) && Sorted(xs, less)
    ensures Sort(xs, less) == xs
  {
    SortSorts(xs, less);
    SortedUnique(xs, Sort(xs, less), less);
  }
}

/** Keeping the first element of every key, and what is left when only another label of the kept elements counts. */
module Firsts {
  import opened Basics
  import Sorting

  function Differs<T>(key: T -> string, k: string): T -> bool {
    v => key(v) != k
  }

  function Others<T(!new)>(key: T -> string, xs: seq<T>, k: string): (r: seq<T>)
    ensures |r| <= |xs| && forall v :: v in r <==> v in xs && key(v) != k
  {
    FilterMembers(xs, Differs(key, k));
    Filter(xs, Differs(key, k))
  }

  /** The first element of every key, in order. */
  function Kept<T(!new)>(key: T -> string, xs: seq<T>): (r: seq<T>)
    ensures forall v :: v in r ==> v in xs
    decreases |xs|
  {
    if xs == [] then []
    else
      assert xs == [xs[0]] + xs[1..];
      [xs[0]] + Kept(key, Others(key, xs[1..], key(xs[0])))
  }

  ghost predicate HasKey<T(!new)>(key: T -> string, xs: seq<T>, k: string) {
    exists v :: v in xs && key(v) == k
  }

  lemma HasKeyAppend<T(!new)>(key: T -> string, xs: seq<T>, x: T)
    ensures forall k :: HasKey(key, xs + [x], k) <==> HasKey(key, xs, k) || k == key(x)
  {
  }

  lemma KeptCons<T(!new)>(key: T -> string, x: T, xs: seq<T>)
    ensures Kept(key, [x] + xs) == [x] + Kept(key, Others(key, xs, key(x)))
  {
  }

  lemma HasKeyOthers<T(!new)>(key: T -> string, first: T, tail: seq<T>, k: string)
    requires k != key(first)
    ensures HasKey(key, [first] + tail, k) <==> HasKey(key, Others(key, tail, key(first)), k)
  {
    if v :| v in tail && key(v) == k {
      assert v in Others(key, tail, key(first)) && v in [first] + tail;
    }
  }

  lemma OthersAppend<T(!new)>(key: T -> string, xs: seq<T>, x: T, k: string)
    ensures Others(key, xs + [x], k) == if key(x) != k then Others(key, xs, k) + [x] else Others(key, xs, k)
  {
    FilterOne(xs, x, Differs(key, k));
  }

  lemma KeptConsAppend<T(!new)>(key: T -> string, first: T, tail: seq<T>, x: T)
    ensures var rest := Others(key, tail, key(first));
      Kept(key, [first] + tail + [x]) == [first] + if key(x) == key(first) then Kept(key, rest) else Kept(key, rest + [x])
  {
    assert [first] + tail + [x] == [first] + (tail + [x]);
    KeptCons(key, first, tail + [x]);
    OthersAppend(key, tail, x, key(first));
  }

  lemma {:induction false} KeptAppend<T(!new)>(key: T -> string, xs: seq<T>, x: T)
    ensures Kept(key, xs + [x]) == if HasKey(key, xs, key(x)) then Kept(key, xs) else Kept(key, xs) + [x]
    decreases |xs|, 1
  {
    if xs == [] {
      assert xs + [x] == [x] + [];
      KeptCons(key, x, []);
    } else {
      KeptAppendStep(key, xs[0], xs[1..], x);
      assert xs == [xs[0]] + xs[1..];
    }
  }

  lemma {:induction false} KeptAppendStep<T(!new)>(key: T -> string, first: T, tail: seq<T>, x: T)
    ensures HasKey(key, [first] + tail, key(x)) ==> Kept(key, [first] + tail + [x]) == Kept(key, [first] + tail)
    ensures !HasKey(key, [first] + tail, key(x)) ==> Kept(key, [first] + tail + [x]) == Kept(key, [first] + tail) + [x]
    decreases 1 + |tail|, 0
  {
    var rest := Others(key, tail, key(first));
    var kept := Kept(key, rest);
    KeptCons(key, first, tail);
    KeptConsAppend(key, first, tail, x);
    if key(x) == key(first) {
      assert first in [first] + tail;
    } else {
      HasKeyOthers(key, first, tail, key(x));
      KeptAppend(key, rest, x);
      if !HasKey(key, rest, key(x)) {
        assert [first] + (kept + [x]) == [first] + kept + [x];
      }
    }
  }

  lemma KeptStep<T(!new)>(key: T -> string, xs: seq<T>, ys: seq<T>, x: T, added: bool)
    requires ys == xs + (if added then [x] else [])
    ensures Kept(key, ys) == if added && !HasKey(key, xs, key(x)) then Kept(key, xs) + [x] else Kept(key, xs)
    ensures forall k :: HasKey(key, ys, k) <==> HasKey(key, xs, k) || (added && k == key(x))
  {
    if added {
      KeptAppend(key, xs, x);
      HasKeyAppend(key, xs, x);
    } else {
      assert ys == xs;
    }
  }

  /** No two survivors share a key, and every key survives. */
  lemma {:induction false} KeptDistinct<T(!new)>(key: T -> string, xs: seq<T>)
    ensures forall i, j | 0 <= i < j < |Kept(key, xs)| :: key(Kept(key, xs)[i]) != key(Kept(key, xs)[j])
    ensures forall v | v in xs :: HasKey(key, Kept(key, xs), key(v))
    decreases |xs|
  {
    if xs != [] {
      var k := key(xs[0]);
      var rest := Others(key, xs[1..], k);
      var tail := Kept(key, rest);
      assert xs == [xs[0]] + xs[1..];
      KeptDistinct(key, rest);
      forall v | v in xs ensures HasKey(key, [xs[0]] + tail, key(v)) {
        if key(v) == k {
          assert xs[0] in [xs[0]] + tail;
        } else {
          var w :| w in tail && key(w) == key(v);
          assert w in [xs[0]] + tail;
        }
      }
    }
  }

  // ---------- the labels of the survivors ----------

  function Image<T>(entry: T -> string, xs: seq<T>): multiset<string> {
    multiset(Map(entry, xs))
  }

  lemma ImageAppend<T>(entry: T -> string, xs: seq<T>, ys: seq<T>)
    ensures Image(entry, xs + ys) == Image(entry, xs) + Image(entry, ys)
  {
    assert Map(entry, xs + ys) == Map(entry, xs) + Map(entry, ys);
  }

  lemma ImageCons<T>(entry: T -> string, x: T, xs: seq<T>)
    ensures Image(entry, [x] + xs) == multiset{entry(x)} + Image(entry, xs)
  {
    ImageAppend(entry, [x], xs);
    assert Map(entry, [x]) == [entry(x)];
  }

  lemma {:induction false} ImageOfPermutation<T(!new)>(entry: T -> string, xs: seq<T>, ys: seq<T>)
    requires multiset(xs) == multiset(ys)
    ensures Image(entry, xs) == Image(entry, ys)
    decreases |xs|
  {
    if xs == [] {
      assert |multiset(ys)| == 0;
      assert ys == [];
    } else {
      var before, after := Sorting.Located(xs, ys);
      assert xs == [xs[0]] + xs[1..];
      ImageOfPermutation(entry, xs[1..], before + after);
      ImageCons(entry, xs[0], xs[1..]);
      ImageAppend(entry, before, after);
      ImageAppend(entry, before, [xs[0]] + after);
      ImageCons(entry, xs[0], after);
    }
  }

  lemma {:induction false} OthersCommute<T(!new)>(key: T -> string, xs: seq<T>, a: string, b: string)
    ensures Others(key, Others(key, xs, a), b) == Others(key, Others(key, xs, b), a)
  {
    if xs != [] {
      OthersCommute(key, xs[1..], a, b);
      assert forall r: seq<T> :: ([xs[0]] + r)[1..] == r;
    }
  }

  lemma OthersOfPermutation<T(!new)>(key: T -> string, xs: seq<T>, ys: seq<T>, k: string)
    requires multiset(xs) == multiset(ys)
    ensures multiset(Others(key, xs, k)) == multiset(Others(key, ys, k))
  {
    Sorting.FilterOfPermutation(xs, ys, Differs(key, k));
  }

  /** Elements with the same key carry the same label. */
  ghost predicate Agreeing<T>(key: T -> string, entry: T -> string, xs: seq<T>) {
    forall v, w | v in xs && w in xs && key(v) == key(w) :: entry(v) == entry(w)
  }

  /** Whichever element of a key comes first, it contributes the same label. */
  lemma {:induction false} OneEntryPerKey<T(!new)>(key: T -> string, entry: T -> string, xs: seq<T>, x: T)
    requires x in xs && Agreeing(key, entry, xs)
    ensures Image(entry, Kept(key, xs)) == multiset{entry(x)} + Image(entry, Kept(key, Others(key, xs, key(x))))
    decreases |xs|
  {
    var k, first := key(x), key(xs[0]);
    assert xs == [xs[0]] + xs[1..];
    var rest := Others(key, xs[1..], first);
    ImageCons(entry, xs[0], Kept(key, rest));
    if first != k {
      OneEntryPerKey(key, entry, rest, x);
      OthersCommute(key, xs[1..], k, first);
      var others := Others(key, xs[1..], k);
      assert Others(key, xs, k) == [xs[0]] + others;
      assert ([xs[0]] + others)[1..] == others;
      ImageCons(entry, xs[0], Kept(key, Others(key, others, first)));
    } else {
      assert Others(key, xs, k) == rest;
    }
  }

  lemma {:induction false} AgreeingForgetsOrder<T(!new)>(key: T -> string, entry: T -> string, xs: seq<T>, ys: seq<T>)
    requires multiset(xs) == multiset(ys) && Agreeing(key, entry, xs)
    ensures Image(entry, Kept(key, xs)) == Image(entry, Kept(key, ys))
    decreases |xs|
  {
    Sorting.SameElements(xs, ys);
    if xs != [] {
      var k := key(xs[0]);
      assert xs[0] in ys;
      OthersOfPermutation(key, xs, ys, k);
      assert Others(key, xs, k) == Others(key, xs[1..], k);
      AgreeingForgetsOrder(key, entry, Others(key, xs, k), Others(key, ys, k));
      OneEntryPerKey(key, entry, xs, xs[0]);
      OneEntryPerKey(key, entry, ys, xs[0]);
    }
  }

  /** Two elements with one key and different labels: what comes first decides what is kept. */
  lemma ConflictShows<T(!new)>(key: T -> string, entry: T -> string, v: T, w: T, rest: seq<T>)
    requires key(v) == key(w) && entry(v) != entry(w)
    ensures Image(entry, Kept(key, [v, w] + rest)) != Image(entry, Kept(key, [w, v] + rest))
  {
    var k := key(v);
    var tail := Kept(key, Others(key, rest, k));
    assert ([v, w] + rest)[1..] == [w] + rest && ([w, v] + rest)[1..] == [v] + rest;
    assert ([w] + rest)[1..] == rest == ([v] + rest)[1..];
    ImageCons(entry, v, tail);
    ImageCons(entry, w, tail);
    var a, b := Image(entry, [v] + tail), Image(entry, [w] + tail);
    assert a[entry(v)] == 1 + Image(entry, tail)[entry(v)];
    assert b[entry(v)] == Image(entry, tail)[entry(v)];
  }

  ghost predicate OrderFree<T(!new)>(key: T -> string, entry: T -> string, all: seq<T>) {
    forall xs: seq<T>, ys: seq<T> | multiset(xs) == multiset(all) && multiset(ys) == multiset(all) ::
      Image(entry, Kept(key, xs)) == Image(entry, Kept(key, ys))
  }

  lemma TakenOut<T>(all: seq<T>, v: T) returns (rest: seq<T>)
    requires v in all
    ensures multiset(all) == multiset(rest) + multiset{v}
  {
    var i :| 0 <= i < |all| && all[i] == v;
    rest := all[..i] + all[i + 1..];
    assert all == all[..i] + [v] + all[i + 1..];
  }

  lemma TakenOutBoth<T>(all: seq<T>, v: T, w: T) returns (rest: seq<T>)
    requires v in all && w in all && v != w
    ensures multiset([v, w] + rest) == multiset(all) && multiset([w, v] + rest) == multiset(all)
  {
    var without := TakenOut(all, v);
    assert multiset(all)[w] == multiset(without)[w];
    assert w in multiset(without);
    rest := TakenOut(without, w);
    assert multiset([v, w] + rest) == multiset{v} + multiset{w} + multiset(rest);
    assert multiset([w, v] + rest) == multiset{v} + multiset{w} + multiset(rest);
  }

  lemma ConflictBreaks<T(!new)>(key: T -> string, entry: T -> string, all: seq<T>, v: T, w: T)
    requires v in all && w in all && key(v) == key(w) && entry(v) != entry(w)
    ensures !OrderFree(key, entry, all)
  {
    var rest := TakenOutBoth(all, v, w);
    ConflictShows(key, entry, v, w, rest);
  }

  /** Every rearrangement keeps the same labels exactly when elements with the same key carry the same label. */
  lemma OrderFreeExact<T(!new)>(key: T -> string, entry: T -> string, all: seq<T>)
    ensures OrderFree(key, entry, all) <==> Agreeing(key, entry, all)
  {
    if Agreeing(key, entry, all) {
      forall xs: seq<T>, ys: seq<T> | multiset(xs) == multiset(all) && multiset(ys) == multiset(all)
        ensures Image(entry, Kept(key, xs)) == Image(entry, Kept(key, ys))
      {
        Sorting.SameElements(xs, all);
        AgreeingForgetsOrder(key, entry, xs, ys);
      }
    } else {
      var v, w :| v in all && w in all && key(v) == key(w) && entry(v) != entry(w);
      ConflictBreaks(key, entry, all, v, w);
    }
  }
}
