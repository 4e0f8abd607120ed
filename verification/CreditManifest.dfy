/** The cast list of a finished scrape: what normalising it keeps, and when the manifest that the
    completion commits does not depend on the order in which the provider listed the cast. */
module CreditManifest {
  import opened Basics
  import Firsts
  import Sorting
  import Text

  datatype Credit = Credit(tmdb: string, name: string, occupation: string, character: string, role: string, order: int)

  /** Lower-casing and decimal notation, which the model does not look into. */
  datatype Notation = Notation(lower: string -> string, decimal: int -> string)

  function Clean(v: Credit): Credit {
    v.(tmdb := Text.Trim(v.tmdb), name := Text.Trim(v.name), occupation := Text.Trim(v.occupation))
  }

  predicate Named(v: Credit) {
    v.name != ""
  }

  /** Two credits with the same key count as one. */
  function DedupeKey(n: Notation): Credit -> string {
    (v: Credit) => Text.Join([v.tmdb, n.lower(v.name), v.occupation, v.character, v.role, n.decimal(v.order)], "\0")
  }

  /** What the manifest records of a credit; unlike the key above it keeps the case of the name. */
  function ManifestKey(n: Notation): Credit -> string {
    (v: Credit) => Text.Join([Text.Trim(v.tmdb), Text.Trim(v.name), Text.Trim(v.occupation), Text.Trim(v.character), Text.Trim(v.role),
                                n.decimal(v.order)], "\0")
  }

  function Cleaned(credits: seq<Credit>): seq<Credit> {
    Filter(Map(Clean, credits), Named)
  }

  /** Drops nameless credits and repetitions; the first of each key survives. */
  function Normalized(n: Notation, credits: seq<Credit>): seq<Credit> {
    Firsts.Kept(DedupeKey(n), Cleaned(credits))
  }

  // ---------- the loop ----------

  method Normalize(n: Notation, credits: seq<Credit>) returns (out: seq<Credit>)
    ensures out == Normalized(n, credits)
  {
    out := NormalizeBy(DedupeKey(n), credits);
  }

  method NormalizeBy(key: Credit -> string, credits: seq<Credit>) returns (out: seq<Credit>)
    ensures out == Firsts.Kept(key, Cleaned(credits))
  {
    out := [];
    var seen: set<string> := {};
    ghost var named := Cleaned([]);
    for i := 0 to |credits|
      invariant named == Cleaned(credits[..i]) && out == Firsts.Kept(key, named)
      invariant forall k :: k in seen <==> Firsts.HasKey(key, named, k)
    {
      var v := Clean(credits[i]);
      ghost var before := named;
      named := CleanedStep(credits, i);
      Firsts.KeptStep(key, before, named, v, v.name != "");
      if v.name == "" {
        continue;
      }
      var k := key(v);
      if k in seen {
        continue;
      }
      seen := seen + {k};
      out := out + [v];
    }
    assert credits[..|credits|] == credits;
  }

  lemma CleanedStep(credits: seq<Credit>, i: nat) returns (next: seq<Credit>)
    requires i < |credits|
    ensures next == Cleaned(credits[..i + 1])
    ensures next == Cleaned(credits[..i]) + (if Clean(credits[i]).name != "" then [Clean(credits[i])] else [])
  {
    assert credits[..i + 1] == credits[..i] + [credits[i]];
    FilterMapAppend(Clean, Named, credits[..i], credits[i]);
    next := Cleaned(credits[..i + 1]);
  }

  /** Every survivor is a cleaned and named credit of the list, no two of them share a key, and every named
      credit of the list is represented. */
  lemma NormalizedMeans(n: Notation, credits: seq<Credit>)
    ensures forall v | v in Normalized(n, credits) :: v.name != "" && exists c :: c in credits && v == Clean(c)
    ensures var out := Normalized(n, credits); forall i, j | 0 <= i < j < |out| :: DedupeKey(n)(out[i]) != DedupeKey(n)(out[j])
    ensures forall c | c in credits && Clean(c).name != "" :: Firsts.HasKey(DedupeKey(n), Normalized(n, credits), DedupeKey(n)(Clean(c)))
  {
    var all := Map(Clean, credits);
    forall v | v in all ensures exists c :: c in credits && v == Clean(c) {
      var i :| 0 <= i < |all| && all[i] == v;
      assert credits[i] in credits;
    }
    FilterMembers(all, Named);
    Firsts.KeptDistinct(DedupeKey(n), Cleaned(credits));
    forall c | c in credits && Clean(c).name != "" ensures Clean(c) in Cleaned(credits) {
      var i :| 0 <= i < |credits| && credits[i] == c;
      assert all[i] == Clean(c);
    }
  }

  /** No part has the separator in it. */
  predicate Apart(parts: seq<string>, separator: char) {
    forall p | p in parts :: separator !in p
  }

  lemma HeadUnique(a: string, x: string, b: string, y: string, separator: char)
    requires separator !in a && separator !in b && a + [separator] + x == b + [separator] + y
    ensures a == b && x == y
  {
    var s, t := a + [separator] + x, b + [separator] + y;
    assert s[|a|] == separator && t[|b|] == separator;
    assert (forall i | 0 <= i < |a| :: s[i] == a[i] && a[i] in a) && forall i | 0 <= i < |b| :: t[i] == b[i] && b[i] in b;
    assert a == s[..|a|] && b == t[..|b|] && x == s[|a| + 1..] && y == t[|b| + 1..];
  }

  lemma {:induction false} JoinUnique(xs: seq<string>, ys: seq<string>, separator: char)
    requires |xs| == |ys| && Apart(xs, separator) && Apart(ys, separator) && Text.Join(xs, [separator]) == Text.Join(ys, [separator])
    ensures xs == ys
  {
    if |xs| > 1 {
      HeadUnique(xs[0], Text.Join(xs[1..], [separator]), ys[0], Text.Join(ys[1..], [separator]), separator);
      JoinUnique(xs[1..], ys[1..], separator);
      assert xs == [xs[0]] + xs[1..] && ys == [ys[0]] + ys[1..];
    }
  }

  /** No text of the credit has the separator in it, and numbers have one notation each, without it. */
  ghost predicate Plain(n: Notation, v: Credit) {
    && Apart([v.tmdb, v.name, n.lower(v.name), v.occupation, v.character, v.role], '\0')
    && forall i, k :: '\0' !in n.decimal(i) && (n.decimal(i) == n.decimal(k) ==> i == k)
  }

  /** Which credits count as one: those alike in everything but the case of the name. */
  lemma DedupeExact(n: Notation, v: Credit, w: Credit)
    requires Plain(n, v) && Plain(n, w)
    ensures DedupeKey(n)(v) == DedupeKey(n)(w) <==>
      && v.tmdb == w.tmdb && n.lower(v.name) == n.lower(w.name) && v.occupation == w.occupation && v.character == w.character
      && v.role == w.role && v.order == w.order
  {
    if DedupeKey(n)(v) == DedupeKey(n)(w) {
      var xs := [v.tmdb, n.lower(v.name), v.occupation, v.character, v.role, n.decimal(v.order)];
      var ys := [w.tmdb, n.lower(w.name), w.occupation, w.character, w.role, n.decimal(w.order)];
      JoinUnique(xs, ys, '\0');
      assert xs[0] == ys[0] && xs[1] == ys[1] && xs[2] == ys[2] && xs[3] == ys[3] && xs[4] == ys[4] && xs[5] == ys[5];
    }
  }

  lemma TrimPlain(s: string)
    requires '\0' !in s
    ensures '\0' !in Text.Trim(s)
  {
    var left, right := Text.TrimExact(s);
  }

  /** Which credits are recorded alike: those alike in everything but white space around the texts. */
  lemma ManifestKeyExact(n: Notation, v: Credit, w: Credit)
    requires Plain(n, v) && Plain(n, w)
    ensures ManifestKey(n)(v) == ManifestKey(n)(w) <==>
      && Text.Trim(v.tmdb) == Text.Trim(w.tmdb) && Text.Trim(v.name) == Text.Trim(w.name)
      && Text.Trim(v.occupation) == Text.Trim(w.occupation) && Text.Trim(v.character) == Text.Trim(w.character)
      && Text.Trim(v.role) == Text.Trim(w.role) && v.order == w.order
  {
    if ManifestKey(n)(v) == ManifestKey(n)(w) {
      var xs := [Text.Trim(v.tmdb), Text.Trim(v.name), Text.Trim(v.occupation), Text.Trim(v.character), Text.Trim(v.role), n.decimal(v.order)];
      var ys := [Text.Trim(w.tmdb), Text.Trim(w.name), Text.Trim(w.occupation), Text.Trim(w.character), Text.Trim(w.role), n.decimal(w.order)];
      PartsPlain(n, v);
      PartsPlain(n, w);
      JoinUnique(xs, ys, '\0');
      assert xs[0] == ys[0] && xs[1] == ys[1] && xs[2] == ys[2] && xs[3] == ys[3] && xs[4] == ys[4] && xs[5] == ys[5];
    }
  }

  lemma PartsPlain(n: Notation, v: Credit)
    requires Plain(n, v)
    ensures Apart([Text.Trim(v.tmdb), Text.Trim(v.name), Text.Trim(v.occupation), Text.Trim(v.character), Text.Trim(v.role), n.decimal(v.order)], '\0')
  {
    assert v.tmdb in [v.tmdb, v.name, n.lower(v.name), v.occupation, v.character, v.role];
    TrimPlain(v.tmdb);
    TrimPlain(v.name);
    TrimPlain(v.occupation);
    TrimPlain(v.character);
    TrimPlain(v.role);
  }

  /** Cleaning trims the three texts, and nothing else. */
  lemma CleanExact(v: Credit)
    ensures var c := Clean(v);
      && c.tmdb == Text.Trim(v.tmdb) && c.name == Text.Trim(v.name) && c.occupation == Text.Trim(v.occupation)
      && c.character == v.character && c.role == v.role && c.order == v.order
  {
  }

  // ---------- the manifest ----------

  /** The sorted list that is hashed into the manifest. */
  function SortedKeys(n: Notation, credits: seq<Credit>): seq<string> {
    Sorting.Sort(Map(ManifestKey(n), credits), Text.Below)
  }

  method Keys(n: Notation, credits: seq<Credit>) returns (keys: seq<string>)
    ensures keys == SortedKeys(n, credits)
  {
    keys := KeysBy(ManifestKey(n), credits);
    keys := Sorting.Sort(keys, Text.Below);
  }

  method KeysBy(key: Credit -> string, credits: seq<Credit>) returns (keys: seq<string>)
    ensures keys == Map(key, credits)
  {
    keys := [];
    for i := 0 to |credits|
      invariant keys == Map(key, credits[..i])
    {
      keys := keys + [key(credits[i])];
      assert credits[..i + 1][..i] == credits[..i];
    }
    assert credits[..|credits|] == credits;
  }

  lemma BelowRanks(xs: seq<string>)
    ensures Sorting.StrictOrder(Text.Below) && Sorting.Ranks(Text.Below, xs)
  {
    forall a: string, b: string ensures !(Text.Below(a, b) && Text.Below(b, a)) && (Text.Below(a, b) || a == b || Text.Below(b, a)) {
      Text.BelowIsTotal(a, b);
    }
    forall a: string, b: string, c: string | Text.Below(a, b) && Text.Below(b, c) ensures Text.Below(a, c) {
      Text.BelowIsTransitive(a, b, c);
    }
  }

  lemma SortedKeysExact(n: Notation, xs: seq<Credit>, ys: seq<Credit>)
    ensures SortedKeys(n, xs) == SortedKeys(n, ys) <==> Firsts.Image(ManifestKey(n), xs) == Firsts.Image(ManifestKey(n), ys)
  {
    var a, b := Map(ManifestKey(n), xs), Map(ManifestKey(n), ys);
    Sorting.SortElements(a, Text.Below);
    Sorting.SortElements(b, Text.Below);
    if multiset(a) == multiset(b) {
      BelowRanks(a);
      Sorting.SortForgetsOrder(a, b, Text.Below);
    }
  }

  /** The manifest does not depend on the order of the normalised credits. */
  lemma ManifestIgnoresOrder(n: Notation, xs: seq<Credit>, ys: seq<Credit>)
    requires multiset(xs) == multiset(ys)
    ensures SortedKeys(n, xs) == SortedKeys(n, ys)
  {
    Firsts.ImageOfPermutation(ManifestKey(n), xs, ys);
    SortedKeysExact(n, xs, ys);
  }

  /** Credits that count as one are recorded alike. */
  ghost predicate Agreeing(n: Notation, xs: seq<Credit>) {
    forall v, w | v in xs && w in xs && DedupeKey(n)(v) == DedupeKey(n)(w) :: ManifestKey(n)(v) == ManifestKey(n)(w)
  }

  /** However the provider orders its list, once cleaned, the manifest is the same. */
  ghost predicate OrderFree(n: Notation, all: seq<Credit>) {
    forall xs: seq<Credit>, ys: seq<Credit> | multiset(xs) == multiset(all) && multiset(ys) == multiset(all) ::
      SortedKeys(n, Firsts.Kept(DedupeKey(n), xs)) == SortedKeys(n, Firsts.Kept(DedupeKey(n), ys))
  }

  /** The manifest is independent of the order of the list exactly when no two of its credits count as one
      but are recorded differently, as two spellings of a name that differ only in case are. */
  lemma OrderFreeExact(n: Notation, all: seq<Credit>)
    ensures OrderFree(n, all) <==> Agreeing(n, all)
  {
    var key, entry := DedupeKey(n), ManifestKey(n);
    forall xs: seq<Credit>, ys: seq<Credit>
      ensures SortedKeys(n, xs) == SortedKeys(n, ys) <==> Firsts.Image(entry, xs) == Firsts.Image(entry, ys)
    {
      SortedKeysExact(n, xs, ys);
    }
    Firsts.OrderFreeExact(key, entry, all);
    assert OrderFree(n, all) <==> Firsts.OrderFree(key, entry, all);
  }

  /** The two lists are one cast: alike once normalised, up to order, or the same credits in another order, none of
      which count as one but are recorded differently. */
  ghost predicate SameCast(n: Notation, xs: seq<Credit>, ys: seq<Credit>) {
    || multiset(Normalized(n, xs)) == multiset(Normalized(n, ys))
    || (multiset(Cleaned(xs)) == multiset(Cleaned(ys)) && Agreeing(n, Cleaned(xs)))
  }

  lemma SameCastSameKeys(n: Notation, xs: seq<Credit>, ys: seq<Credit>)
    requires SameCast(n, xs, ys)
    ensures SortedKeys(n, Normalized(n, xs)) == SortedKeys(n, Normalized(n, ys)) && |Normalized(n, xs)| == |Normalized(n, ys)|
  {
    if multiset(Normalized(n, xs)) == multiset(Normalized(n, ys)) {
      ManifestIgnoresOrder(n, Normalized(n, xs), Normalized(n, ys));
    } else {
      OrderFreeExact(n, Cleaned(xs));
    }
    KeysCount(n, Normalized(n, xs));
    KeysCount(n, Normalized(n, ys));
  }

  lemma KeysCount(n: Notation, xs: seq<Credit>)
    ensures |SortedKeys(n, xs)| == |xs|
  {
    var keys := Map(ManifestKey(n), xs);
    Sorting.SortElements(keys, Text.Below);
    assert |multiset(keys)| == |keys| && |multiset(SortedKeys(n, xs))| == |SortedKeys(n, xs)|;
  }

  lemma NameShows(n: Notation, v: Credit)
    requires v.tmdb == "" && v.name != "" && Text.Trim(v.name) == v.name
    ensures |ManifestKey(n)(v)| > 1 && ManifestKey(n)(v)[1] == v.name[0]
  {
    assert Text.Trim(v.tmdb) == "";
    JoinSecond(v.name, [Text.Trim(v.occupation), Text.Trim(v.character), Text.Trim(v.role), n.decimal(v.order)]);
    assert ["", v.name] + [Text.Trim(v.occupation), Text.Trim(v.character), Text.Trim(v.role), n.decimal(v.order)]
        == ["", v.name, Text.Trim(v.occupation), Text.Trim(v.character), Text.Trim(v.role), n.decimal(v.order)];
  }

  lemma JoinSecond(second: string, rest: seq<string>)
    requires second != "" && rest != []
    ensures |Text.Join(["", second] + rest, "\0")| > 1 && Text.Join(["", second] + rest, "\0")[1] == second[0]
  {
  }

  /** A provider that lists one person twice, the second time in capitals: with a fold that knows this name,
      the two orders of the list give different manifests. */
  lemma CaseConflict()
    ensures var n := Notation(s => if s == "ANN" then "ann" else s, k => "0");
            !OrderFree(n, [Credit("", "ann", "", "", "", 0), Credit("", "ANN", "", "", "", 0)])
  {
    var n := Notation(s => if s == "ANN" then "ann" else s, k => "0");
    var v, w := Credit("", "ann", "", "", "", 0), Credit("", "ANN", "", "", "", 0);
    assert DedupeKey(n)(v) == DedupeKey(n)(w);
    assert Text.TrimLeft("ann") == "ann" && Text.TrimLeft("ANN") == "ANN";
    NameShows(n, v);
    NameShows(n, w);
    assert v in [v, w] && w in [v, w];
    OrderFreeExact(n, [v, w]);
  }
}
