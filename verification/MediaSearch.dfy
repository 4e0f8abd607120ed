/** The free-text search of the media listing: the query is split into words, and every word has to be found in one of
    the seventeen searched columns. */
module MediaSearch {
  import opened Basics
  import opened LikePattern
  import Text

  // ---------- words ----------

  function WordLength(s: string): (n: nat)
    ensures n <= |s|
    ensures s != "" && !Text.IsSpace(s[0]) ==> n > 0
  {
    if s == "" || Text.IsSpace(s[0]) then 0 else 1 + WordLength(s[1..])
  }

  lemma {:induction false} TrimLeftShorter(s: string)
    ensures |Text.TrimLeft(s)| <= |s|
    ensures Text.TrimLeft(s) != "" ==> !Text.IsSpace(Text.TrimLeft(s)[0])
  {
    if s != "" && Text.IsSpace(s[0]) {
      TrimLeftShorter(s[1..]);
    }
  }

  /** strings.Fields: the words between runs of white space. */
  function Fields(s: string): seq<string>
    decreases |s|
  {
    TrimLeftShorter(s);
    var t := Text.TrimLeft(s);
    if t == "" then [] else [t[..WordLength(t)]] + Fields(t[WordLength(t)..])
  }

  predicate Word(w: string) {
    w != "" && forall c | c in w :: !Text.IsSpace(c)
  }

  predicate NonSpace(c: char) {
    !Text.IsSpace(c)
  }

  function Concat(parts: seq<string>): string {
    if parts == [] then "" else parts[0] + Concat(parts[1..])
  }

  lemma {:induction false} WordIsWord(s: string)
    ensures forall c | c in s[..WordLength(s)] :: !Text.IsSpace(c)
  {
    if s != "" && !Text.IsSpace(s[0]) {
      WordIsWord(s[1..]);
      assert s[..WordLength(s)] == [s[0]] + s[1..][..WordLength(s[1..])];
    }
  }

  lemma WordSplits(s: string)
    ensures Filter(s, NonSpace) == s[..WordLength(s)] + Filter(s[WordLength(s)..], NonSpace)
  {
    var word, rest := s[..WordLength(s)], s[WordLength(s)..];
    WordIsWord(s);
    FilterAll(word, NonSpace);
    FilterAppend(word, rest, NonSpace);
    assert s == word + rest;
  }

  lemma {:induction false} TrimLeftKeeps(s: string)
    ensures Filter(Text.TrimLeft(s), NonSpace) == Filter(s, NonSpace)
  {
    if s != "" && Text.IsSpace(s[0]) {
      TrimLeftKeeps(s[1..]);
    }
  }

  lemma {:induction false} TrimRightKeeps(s: string)
    ensures Filter(Text.TrimRight(s), NonSpace) == Filter(s, NonSpace)
  {
    if s != "" && Text.IsSpace(s[|s| - 1]) {
      TrimRightKeeps(s[..|s| - 1]);
      assert s == s[..|s| - 1] + [s[|s| - 1]];
      FilterOne(s[..|s| - 1], s[|s| - 1], NonSpace);
    }
  }

  lemma TrimKeeps(s: string)
    ensures Filter(Text.Trim(s), NonSpace) == Filter(s, NonSpace)
  {
    TrimLeftKeeps(s);
    TrimRightKeeps(Text.TrimLeft(s));
  }

  /** Fields yields words, and together they are everything but the white space. */
  lemma {:induction false} FieldsExact(s: string)
    ensures forall w | w in Fields(s) :: Word(w)
    ensures Concat(Fields(s)) == Filter(s, NonSpace)
    decreases |s|
  {
    TrimLeftShorter(s);
    TrimLeftKeeps(s);
    var t := Text.TrimLeft(s);
    if t != "" {
      var n := WordLength(t);
      WordIsWord(t);
      WordSplits(t);
      FieldsExact(t[n..]);
      assert Word(t[..n]);
    }
  }

  // ---------- the cut ----------

  /** Gap, word, gap, word, and so on, and a last gap. */
  function Woven(gaps: seq<string>, words: seq<string>): string
    requires |gaps| == |words| + 1
  {
    if words == [] then gaps[0] else gaps[0] + (words[0] + Woven(gaps[1..], words[1..]))
  }

  /** The text is these words with these gaps of white space around them; only the first and the last may be empty. */
  ghost predicate Cut(s: string, gaps: seq<string>, words: seq<string>) {
    && |gaps| == |words| + 1 && s == Woven(gaps, words)
    && (forall g | g in gaps :: Text.Blank(g)) && (forall i | 0 < i < |words| :: gaps[i] != "")
    && forall w | w in words :: Word(w)
  }

  lemma {:induction false} WordEnds(s: string)
    ensures WordLength(s) < |s| ==> Text.IsSpace(s[WordLength(s)])
  {
    if s != "" && !Text.IsSpace(s[0]) {
      WordEnds(s[1..]);
    }
  }

  lemma FirstGap(s: string, gaps: seq<string>, words: seq<string>)
    requires Cut(s, gaps, words) && words != [] && (s == "" || Text.IsSpace(s[0]))
    ensures gaps[0] != ""
  {
    assert words[0] in words && words[0][0] in words[0];
    assert s == gaps[0] + (words[0] + Woven(gaps[1..], words[1..]));
  }

  lemma {:induction false} FieldsCut(s: string) returns (gaps: seq<string>)
    ensures Cut(s, gaps, Fields(s))
    decreases |s|
  {
    var i := Text.TrimLeftExact(s);
    var t := s[i..];
    assert s == s[..i] + t;
    if t == "" {
      gaps := [s];
    } else {
      TrimLeftShorter(s);
      var n := WordLength(t);
      WordIsWord(t);
      WordEnds(t);
      var rest := FieldsCut(t[n..]);
      gaps := [s[..i]] + rest;
      assert gaps[1..] == rest && Fields(s) == [t[..n]] + Fields(t[n..]) && Fields(s)[1..] == Fields(t[n..]);
      assert t == t[..n] + t[n..];
      if Fields(t[n..]) != [] {
        FirstGap(t[n..], rest, Fields(t[n..]));
      }
      assert forall k | 0 < k < |Fields(s)| :: gaps[k] == rest[k - 1];
    }
  }

  /** A beginning of characters of one kind, up to the first of the other kind, can be split off in one way only. */
  lemma OneSplit(a: string, x: string, b: string, y: string, space: bool)
    requires a + x == b + y
    requires forall c | c in a + b :: Text.IsSpace(c) == space
    requires (x != "" ==> Text.IsSpace(x[0]) != space) && (y != "" ==> Text.IsSpace(y[0]) != space)
    ensures a == b && x == y
  {
    assert a == (a + x)[..|a|] && b == (b + y)[..|b|];
    assert x == (a + x)[|a|..] && y == (b + y)[|b|..];
  }

  lemma CutTail(s: string, gaps: seq<string>, words: seq<string>)
    requires Cut(s, gaps, words) && words != []
    ensures var tail := Woven(gaps[1..], words[1..]);
      && Cut(tail, gaps[1..], words[1..]) && (tail != "" ==> Text.IsSpace(tail[0]))
      && words[0] != "" && !Text.IsSpace(words[0][0])
  {
    assert gaps[1] in gaps && words[0] in words && words[0][0] in words[0];
    assert gaps[1..][0] == gaps[1];
    if gaps[1] != "" {
      assert gaps[1][0] in gaps[1];
    }
  }

  /** There is one way only to cut a text into words. */
  lemma {:induction false} OneCut(s: string, gaps: seq<string>, words: seq<string>, gaps': seq<string>, words': seq<string>)
    requires Cut(s, gaps, words) && Cut(s, gaps', words')
    ensures gaps == gaps' && words == words'
    decreases |words|
  {
    assert gaps[0] in gaps && gaps'[0] in gaps';
    var x := if words == [] then "" else words[0] + Woven(gaps[1..], words[1..]);
    var y := if words' == [] then "" else words'[0] + Woven(gaps'[1..], words'[1..]);
    if words != [] {
      CutTail(s, gaps, words);
    }
    if words' != [] {
      CutTail(s, gaps', words');
    }
    OneSplit(gaps[0], x, gaps'[0], y, true);
    if words != [] && words' != [] {
      var rest, rest' := Woven(gaps[1..], words[1..]), Woven(gaps'[1..], words'[1..]);
      assert words[0] in words && words'[0] in words';
      OneSplit(words[0], rest, words'[0], rest', false);
      OneCut(rest, gaps[1..], words[1..], gaps'[1..], words'[1..]);
      assert gaps == [gaps[0]] + gaps[1..] && words == [words[0]] + words[1..];
      assert gaps' == [gaps'[0]] + gaps'[1..] && words' == [words'[0]] + words'[1..];
    }
  }

  /** Fields yields the words of the text: it can be cut into them, and into nothing else. */
  lemma FieldsAreTheCut(s: string)
    ensures exists gaps :: Cut(s, gaps, Fields(s))
    ensures forall gaps, words | Cut(s, gaps, words) :: words == Fields(s)
  {
    var gaps := FieldsCut(s);
    forall gaps', words | Cut(s, gaps', words) ensures words == Fields(s) {
      OneCut(s, gaps', words, gaps, Fields(s));
    }
  }

  lemma {:induction false} WovenSuffix(gaps: seq<string>, words: seq<string>, right: string)
    requires |gaps| == |words| + 1
    ensures Woven(gaps[|words| := gaps[|words|] + right], words) == Woven(gaps, words) + right
  {
    if words != [] {
      WovenSuffix(gaps[1..], words[1..], right);
      assert gaps[|words| := gaps[|words|] + right][1..] == gaps[1..][|words| - 1 := gaps[|words|] + right];
    }
  }

  lemma WovenPrefix(gaps: seq<string>, words: seq<string>, left: string)
    requires |gaps| == |words| + 1
    ensures Woven(gaps[0 := left + gaps[0]], words) == left + Woven(gaps, words)
  {
    assert gaps[0 := left + gaps[0]][1..] == gaps[1..];
  }

  /** White space around a text does not change its words. */
  lemma CutWidens(s: string, gaps: seq<string>, words: seq<string>, left: string, right: string) returns (wider: seq<string>)
    requires Cut(s, gaps, words) && Text.Blank(left) && Text.Blank(right)
    ensures Cut(left + s + right, wider, words)
  {
    var n := |words|;
    var half := gaps[0 := left + gaps[0]];
    wider := half[n := half[n] + right];
    WovenPrefix(gaps, words, left);
    WovenSuffix(half, words, right);
    forall i | 0 <= i <= n ensures Text.Blank(half[i]) {
      assert gaps[i] in gaps;
    }
    forall i | 0 <= i <= n ensures Text.Blank(wider[i]) {
      assert Text.Blank(half[i]);
    }
  }

  lemma TrimmedCut(query: string)
    ensures exists gaps :: Cut(query, gaps, Fields(Text.Trim(query)))
    ensures forall gaps, words | Cut(query, gaps, words) :: words == Fields(Text.Trim(query))
  {
    var left, right := Text.TrimExact(query);
    var gaps := FieldsCut(Text.Trim(query));
    var wider := CutWidens(Text.Trim(query), gaps, Fields(Text.Trim(query)), left, right);
    forall gaps', words | Cut(query, gaps', words) ensures words == Fields(Text.Trim(query)) {
      OneCut(query, gaps', words, wider, Fields(Text.Trim(query)));
    }
  }

  lemma WordIsTrimmed(w: string)
    requires Word(w)
    ensures Text.Trim(w) == w
  {
  }

  /** A trimmed query that is not empty has a word. */
  lemma TrimmedHasWord(s: string)
    requires Text.Trim(s) != ""
    ensures Fields(Text.Trim(s)) != []
  {
    var t := Text.Trim(s);
    TrimLeftShorter(s);
    TrimRightHead(Text.TrimLeft(s));
    assert !Text.IsSpace(t[0]);
  }

  lemma {:induction false} TrimRightHead(s: string)
    ensures Text.TrimRight(s) != "" ==> s != "" && Text.TrimRight(s)[0] == s[0]
  {
    if s != "" && Text.IsSpace(s[|s| - 1]) {
      TrimRightHead(s[..|s| - 1]);
    }
  }

  /** The words of the query. The two fallbacks, to the whole query, are never taken. */
  method SplitTokens(query: string) returns (tokens: seq<string>)
    ensures tokens == Fields(Text.Trim(query))
    ensures (exists gaps :: Cut(query, gaps, tokens)) && forall gaps, words | Cut(query, gaps, words) :: words == tokens
    ensures forall w | w in tokens :: Word(w)
    ensures Concat(tokens) == Filter(query, NonSpace)
    ensures tokens == [] <==> Text.Trim(query) == ""
  {
    var trimmed := Text.Trim(query);
    TrimKeeps(query);
    TrimmedCut(query);
    FieldsExact(trimmed);
    if trimmed == "" {
      return [];
    }
    TrimmedHasWord(query);
    var fields := Fields(trimmed);
    if |fields| == 0 {
      assert false;
    }
    tokens := [];
    for i := 0 to |fields|
      invariant tokens == fields[..i]
    {
      assert fields[i] in fields;
      WordIsTrimmed(fields[i]);
      var t := Text.Trim(fields[i]);
      if t != "" {
        tokens := tokens + [t];
      }
    }
    assert fields[..|fields|] == fields;
  }

  // ---------- the clause ----------

  const COLUMNS := 13
  const TRACK_COLUMNS := 4
  const LIKE_PER_TOKEN := 17

  /** The searched columns of a medium, and of each of its music tracks. NULL matches no pattern. */
  datatype Searched = Searched(texts: seq<Option<string>>, tracks: seq<seq<Option<string>>>)

  predicate Shaped(r: Searched) {
    |r.texts| == COLUMNS && forall t | t in r.tracks :: |t| == TRACK_COLUMNS
  }

  predicate LikeColumn(column: Option<string>, pattern: string, fold: char -> char) {
    column.Some? && Like(pattern, column.value, fold)
  }

  /** The columns against their placeholders, one each. */
  predicate LikeAny(columns: seq<Option<string>>, args: seq<string>, fold: char -> char)
    requires |columns| == |args|
  {
    exists i | 0 <= i < |columns| :: LikeColumn(columns[i], args[i], fold)
  }

  /** One parenthesised clause with the arguments for its placeholders. */
  predicate Clause(r: Searched, args: seq<string>, fold: char -> char)
    requires Shaped(r) && |args| == LIKE_PER_TOKEN
  {
    LikeAny(r.texts, args[..COLUMNS], fold) || exists t | t in r.tracks :: LikeAny(t, args[COLUMNS..], fold)
  }

  /** All clauses that were appended, each bound to the next seventeen arguments. */
  predicate Clauses(r: Searched, n: nat, args: seq<string>, fold: char -> char)
    requires Shaped(r) && |args| == n * LIKE_PER_TOKEN
  {
    n == 0 || (Clause(r, args[..LIKE_PER_TOKEN], fold) && Clauses(r, n - 1, args[LIKE_PER_TOKEN..], fold))
  }

  function Pattern(token: string): string {
    "%" + EscapeLike(token) + "%"
  }

  function Repeated(pattern: string, n: nat): seq<string> {
    seq(n, _ => pattern)
  }

  function Arguments(tokens: seq<string>): seq<string> {
    if tokens == [] then [] else Repeated(Pattern(tokens[0]), LIKE_PER_TOKEN) + Arguments(tokens[1..])
  }

  lemma {:induction false} ArgumentsAppend(tokens: seq<string>, token: string)
    ensures Arguments(tokens + [token]) == Arguments(tokens) + Repeated(Pattern(token), LIKE_PER_TOKEN)
  {
    if tokens == [] {
      assert ([] + [token])[1..] == [];
    } else {
      assert (tokens + [token])[1..] == tokens[1..] + [token];
      ArgumentsAppend(tokens[1..], token);
    }
  }

  method BindToken(args: seq<string>, like: string) returns (out: seq<string>)
    ensures out == args + Repeated(like, LIKE_PER_TOKEN)
  {
    out := args;
    for i := 0 to LIKE_PER_TOKEN
      invariant out == args + Repeated(like, i)
    {
      out := out + [like];
    }
  }

  /** Appends one clause per word, and as many arguments as the clauses have placeholders. */
  method AppendFilter(args: seq<string>, query: string) returns (clauses: nat, out: seq<string>)
    ensures exists gaps, words :: Cut(query, gaps, words)
    ensures forall gaps, words | Cut(query, gaps, words) :: clauses == |words| && out == args + Arguments(words)
  {
    var tokens := SplitTokens(query);
    clauses, out := 0, args;
    if |tokens| == 0 {
      return;
    }
    for k := 0 to |tokens|
      invariant clauses == k && out == args + Arguments(tokens[..k])
    {
      var like := Pattern(tokens[k]);
      clauses := clauses + 1;
      out := BindToken(out, like);
      ArgumentsAppend(tokens[..k], tokens[k]);
      assert tokens[..k + 1] == tokens[..k] + [tokens[k]];
    }
    assert tokens[..|tokens|] == tokens;
  }

  predicate ContainsAny(columns: seq<Option<string>>, token: string, fold: char -> char) {
    exists i | 0 <= i < |columns| :: columns[i].Some? && Contains(columns[i].value, token, fold)
  }

  /** The word occurs in one of the columns, up to case. */
  predicate Found(r: Searched, token: string, fold: char -> char) {
    ContainsAny(r.texts, token, fold) || exists t | t in r.tracks :: ContainsAny(t, token, fold)
  }

  lemma LikeAnyExact(columns: seq<Option<string>>, token: string, fold: char -> char)
    ensures LikeAny(columns, Repeated(Pattern(token), |columns|), fold) <==> ContainsAny(columns, token, fold)
  {
    var args := Repeated(Pattern(token), |columns|);
    forall i | 0 <= i < |columns| && columns[i].Some?
      ensures LikeColumn(columns[i], args[i], fold) <==> Contains(columns[i].value, token, fold)
    {
      ContainsExact(token, columns[i].value, fold);
    }
  }

  lemma ClauseExact(r: Searched, token: string, fold: char -> char)
    requires Shaped(r)
    ensures Clause(r, Repeated(Pattern(token), LIKE_PER_TOKEN), fold) <==> Found(r, token, fold)
  {
    var args := Repeated(Pattern(token), LIKE_PER_TOKEN);
    assert args[..COLUMNS] == Repeated(Pattern(token), COLUMNS) && args[COLUMNS..] == Repeated(Pattern(token), TRACK_COLUMNS);
    LikeAnyExact(r.texts, token, fold);
    forall t | t in r.tracks ensures LikeAny(t, args[COLUMNS..], fold) <==> ContainsAny(t, token, fold) {
      LikeAnyExact(t, token, fold);
    }
  }

  lemma {:induction false} ArgumentsLength(tokens: seq<string>)
    ensures |Arguments(tokens)| == |tokens| * LIKE_PER_TOKEN
  {
    if tokens != [] {
      ArgumentsLength(tokens[1..]);
    }
  }

  /** With the arguments that the filter appends, the appended clauses select exactly the media in which every word
      of the query occurs. */
  lemma {:induction false} SearchExact(r: Searched, tokens: seq<string>, fold: char -> char)
    requires Shaped(r)
    ensures |Arguments(tokens)| == |tokens| * LIKE_PER_TOKEN
    ensures Clauses(r, |tokens|, Arguments(tokens), fold) <==> forall w | w in tokens :: Found(r, w, fold)
  {
    ArgumentsLength(tokens);
    if tokens != [] {
      var args := Arguments(tokens);
      ClauseExact(r, tokens[0], fold);
      SearchExact(r, tokens[1..], fold);
      assert tokens == [tokens[0]] + tokens[1..];
      assert args[..LIKE_PER_TOKEN] == Repeated(Pattern(tokens[0]), LIKE_PER_TOKEN);
      assert args[LIKE_PER_TOKEN..] == Arguments(tokens[1..]);
    }
  }
}
