/** Search text inside LIKE patterns: what escaping it achieves, and what the media search therefore finds. */
module LikePattern {
  import opened Basics
  import Text

  // ---------- escaping ----------

  function ReplaceAll(s: string, c: char, r: string): string {
    if s == "" then "" else (if s[0] == c then r else [s[0]]) + ReplaceAll(s[1..], c, r)
  }

  /** The backslash first, so that the backslashes of the later replacements stay single. */
  function EscapeLike(s: string): string {
    ReplaceAll(ReplaceAll(ReplaceAll(s, '\\', "\\\\"), '%', "\\%"), '_', "\\_")
  }

  predicate Special(c: char) {
    c == '\\' || c == '%' || c == '_'
  }

  function EscapeEach(s: string): string {
    if s == "" then "" else (if Special(s[0]) then ['\\', s[0]] else [s[0]]) + EscapeEach(s[1..])
  }

  lemma {:induction false} ReplaceAppend(s: string, t: string, c: char, r: string)
    ensures ReplaceAll(s + t, c, r) == ReplaceAll(s, c, r) + ReplaceAll(t, c, r)
  {
    if s == "" {
      assert s + t == t;
    } else {
      assert (s + t)[1..] == s[1..] + t;
      ReplaceAppend(s[1..], t, c, r);
    }
  }

  lemma ReplaceOne(x: char, c: char, r: string)
    ensures ReplaceAll([x], c, r) == if x == c then r else [x]
  {
  }

  lemma ReplaceTwo(x: char, y: char, c: char, r: string)
    ensures ReplaceAll([x, y], c, r) == (if x == c then r else [x]) + (if y == c then r else [y])
  {
    assert [x, y] == [x] + [y];
    ReplaceAppend([x], [y], c, r);
    ReplaceOne(x, c, r);
    ReplaceOne(y, c, r);
  }

  lemma EscapeOne(x: char)
    ensures EscapeLike([x]) == if Special(x) then ['\\', x] else [x]
  {
    ReplaceOne(x, '\\', "\\\\");
    if x == '\\' {
      ReplaceTwo('\\', '\\', '%', "\\%");
      ReplaceTwo('\\', '\\', '_', "\\_");
    } else {
      ReplaceOne(x, '%', "\\%");
      if x == '%' {
        ReplaceTwo('\\', '%', '_', "\\_");
      } else {
        ReplaceOne(x, '_', "\\_");
      }
    }
  }

  /** The three replacements one after the other escape every special character exactly once. */
  lemma {:induction false} EscapeIsOnePass(s: string)
    ensures EscapeLike(s) == EscapeEach(s)
  {
    if s != "" {
      var a, b := [s[0]], s[1..];
      assert s == a + b;
      ReplaceAppend(a, b, '\\', "\\\\");
      var a1, b1 := ReplaceAll(a, '\\', "\\\\"), ReplaceAll(b, '\\', "\\\\");
      ReplaceAppend(a1, b1, '%', "\\%");
      ReplaceAppend(ReplaceAll(a1, '%', "\\%"), ReplaceAll(b1, '%', "\\%"), '_', "\\_");
      EscapeOne(s[0]);
      EscapeIsOnePass(b);
    }
  }

  // ---------- matching ----------

  /** LIKE with ESCAPE '\'. `fold` is the case folding of the comparison. */
  predicate Like(p: string, s: string, fold: char -> char)
    decreases |p| + |s|
  {
    if p == "" then s == ""
    else if p[0] == '\\' then |p| > 1 && s != "" && fold(p[1]) == fold(s[0]) && Like(p[2..], s[1..], fold)
    else if p[0] == '%' then Like(p[1..], s, fold) || (s != "" && Like(p, s[1..], fold))
    else if p[0] == '_' then s != "" && Like(p[1..], s[1..], fold)
    else s != "" && fold(p[0]) == fold(s[0]) && Like(p[1..], s[1..], fold)
  }

  predicate SameFolded(a: string, b: string, fold: char -> char) {
    |a| == |b| && forall i | 0 <= i < |a| :: fold(a[i]) == fold(b[i])
  }

  predicate StartsWith(s: string, q: string, fold: char -> char) {
    |q| <= |s| && SameFolded(q, s[..|q|], fold)
  }

  predicate ContainsAt(s: string, q: string, fold: char -> char, i: nat) {
    i <= |s| && StartsWith(s[i..], q, fold)
  }

  predicate Contains(s: string, q: string, fold: char -> char) {
    exists i: nat :: i <= |s| && ContainsAt(s, q, fold, i)
  }

  lemma StartsWithStep(s: string, q: string, fold: char -> char)
    requires q != ""
    ensures StartsWith(s, q, fold) <==> s != "" && fold(q[0]) == fold(s[0]) && StartsWith(s[1..], q[1..], fold)
  {
  }

  /** Escaped text matches itself, folded, and then the rest of the pattern has to match. */
  lemma {:induction false} LiteralThen(q: string, rest: string, s: string, fold: char -> char)
    ensures Like(EscapeEach(q) + rest, s, fold) <==> StartsWith(s, q, fold) && Like(rest, s[|q|..], fold)
    decreases |q|
  {
    if q == "" {
      assert EscapeEach(q) + rest == rest && s[0..] == s;
    } else {
      var tail := EscapeEach(q[1..]);
      StartsWithStep(s, q, fold);
      if Special(q[0]) {
        assert EscapeEach(q) + rest == ['\\', q[0]] + (tail + rest);
        assert (['\\', q[0]] + (tail + rest))[2..] == tail + rest;
      } else {
        assert EscapeEach(q) + rest == [q[0]] + (tail + rest);
        assert ([q[0]] + (tail + rest))[1..] == tail + rest;
      }
      if s != "" {
        LiteralThen(q[1..], rest, s[1..], fold);
        assert |q| <= |s| ==> s[1..][|q| - 1..] == s[|q|..];
      }
    }
  }

  lemma {:induction false} PercentMatchesAll(s: string, fold: char -> char)
    ensures Like("%", s, fold)
  {
    assert "%"[1..] == "";
    if s != "" {
      PercentMatchesAll(s[1..], fold);
    }
  }

  predicate LikeFrom(p: string, s: string, fold: char -> char, i: nat) {
    i <= |s| && Like(p, s[i..], fold)
  }

  lemma {:induction false} PercentThen(p: string, s: string, fold: char -> char)
    ensures Like("%" + p, s, fold) <==> exists i: nat :: i <= |s| && LikeFrom(p, s, fold, i)
    decreases |s|
  {
    assert ("%" + p)[1..] == p && s[0..] == s;
    if Like(p, s, fold) {
      assert LikeFrom(p, s, fold, 0);
    }
    if s != "" {
      var t := s[1..];
      PercentThen(p, t, fold);
      if Like("%" + p, t, fold) {
        var i: nat :| i <= |t| && LikeFrom(p, t, fold, i);
        assert t[i..] == s[i + 1..];
        assert LikeFrom(p, s, fold, i + 1);
      }
      if i: nat :| i <= |s| && LikeFrom(p, s, fold, i) {
        if i > 0 {
          assert t[i - 1..] == s[i..];
          assert LikeFrom(p, t, fold, i - 1);
        }
      }
    }
  }

  /** A search pattern finds exactly the strings that contain the search text, whatever characters it has. */
  lemma ContainsExact(q: string, s: string, fold: char -> char)
    ensures Like("%" + EscapeLike(q) + "%", s, fold) <==> Contains(s, q, fold)
  {
    EscapeIsOnePass(q);
    var p := EscapeEach(q) + "%";
    assert "%" + EscapeLike(q) + "%" == "%" + p;
    PercentThen(p, s, fold);
    forall i: nat | i <= |s| ensures LikeFrom(p, s, fold, i) <==> ContainsAt(s, q, fold, i) {
      LiteralThen(q, "%", s[i..], fold);
      if StartsWith(s[i..], q, fold) {
        PercentMatchesAll(s[i..][|q|..], fold);
      }
    }
    if Like("%" + p, s, fold) {
      var i: nat :| i <= |s| && LikeFrom(p, s, fold, i);
      assert ContainsAt(s, q, fold, i);
    }
    if Contains(s, q, fold) {
      var i: nat :| i <= |s| && ContainsAt(s, q, fold, i);
      assert LikeFrom(p, s, fold, i);
    }
  }

  /** A folder pattern finds exactly the paths below the folder. */
  lemma BelowFolderExact(parent: string, s: string, fold: char -> char)
    ensures Like(EscapeLike(parent) + "/%", s, fold) <==> StartsWith(s, parent + "/", fold)
  {
    EscapeIsOnePass(parent);
    EscapeAppend(parent, "/");
    assert "/"[1..] == "" && EscapeEach("/") == "/";
    assert EscapeLike(parent) + "/%" == EscapeEach(parent + "/") + "%";
    LiteralThen(parent + "/", "%", s, fold);
    if StartsWith(s, parent + "/", fold) {
      PercentMatchesAll(s[|parent + "/"|..], fold);
    }
  }

  lemma {:induction false} EscapeAppend(s: string, t: string)
    ensures EscapeEach(s + t) == EscapeEach(s) + EscapeEach(t)
  {
    if s == "" {
      assert s + t == t;
    } else {
      assert (s + t)[1..] == s[1..] + t;
      EscapeAppend(s[1..], t);
    }
  }

  /** Without escaping, an underscore in the search text would stand for any one character. */
  lemma UnderscoreExact(q: string, s: string, fold: char -> char)
    ensures Like("_" + EscapeLike(q) + "%", s, fold) <==> s != "" && StartsWith(s[1..], q, fold)
  {
    EscapeIsOnePass(q);
    assert "_" + EscapeLike(q) + "%" == "_" + (EscapeEach(q) + "%");
    if s != "" {
      LiteralThen(q, "%", s[1..], fold);
      if StartsWith(s[1..], q, fold) {
        PercentMatchesAll(s[1..][|q|..], fold);
      }
    }
  }

  /** Without escaping, a percent sign in the search text would match anything. */
  lemma UnescapedOvermatches(fold: char -> char)
    requires fold('5') != fold('%')
    ensures Like("%" + "%" + "%", "5", fold) && !Contains("5", "%", fold)
  {
    assert ("%" + "%" + "%")[1..] == "%%" && "%%"[1..] == "%";
    PercentMatchesAll("5", fold);
  }
}
