/** Cutting text to a number of bytes without breaking a character, and the diagnostics lists that stay within a budget.
    Well-formed UTF-8 is that of section 4 of RFC 3629. */
module Utf8Bounds {
  import opened Basics

  newtype byte = x: int | 0 <= x < 256

  type Bytes = seq<byte>

  const MAX_MESSAGE := 256
  const MAX_ERRORS := 8
  const MAX_ERROR_BYTES := 2048

  // ---------- well-formed text ----------

  predicate Tail(b: byte) {
    0x80 <= b <= 0xBF
  }

  predicate Tails(s: Bytes, n: nat) {
    n < |s| && forall i | 2 <= i <= n :: Tail(s[i])
  }

  /** The second byte of a sequence is restricted for some first bytes: no overlong forms, no surrogates, nothing
      above U+10FFFF. */
  predicate SecondByte(first: byte, second: byte) {
    if first == 0xE0 then 0xA0 <= second <= 0xBF
    else if first == 0xED then 0x80 <= second <= 0x9F
    else if first == 0xF0 then 0x90 <= second <= 0xBF
    else if first == 0xF4 then 0x80 <= second <= 0x8F
    else Tail(second)
  }

  /** The length of the first character, 0 if there is none that is well formed. */
  function FirstLength(s: Bytes): (n: nat)
    ensures n <= 4 && n <= |s|
  {
    if s == [] then 0
    else if s[0] < 0x80 then 1
    else
      var n := if 0xC2 <= s[0] <= 0xDF then 2 else if 0xE0 <= s[0] <= 0xEF then 3 else if 0xF0 <= s[0] <= 0xF4 then 4 else 0;
      if n > 0 && Tails(s, n - 1) && SecondByte(s[0], s[1]) then n else 0
  }

  predicate Valid(s: Bytes) {
    s == [] || (FirstLength(s) > 0 && Valid(s[FirstLength(s)..]))
  }

  /** A character: a code point that is not a surrogate. */
  predicate Scalar(c: int) {
    0 <= c < 0xD800 || 0xE000 <= c <= 0x10FFFF
  }

  /** Its bytes, by section 3 of RFC 3629. */
  function Encoded(c: int): Bytes
    requires Scalar(c)
  {
    if c < 0x80 then [c as byte]
    else if c < 0x800 then [(0xC0 + c / 64) as byte, (0x80 + c % 64) as byte]
    else if c < 0x10000 then [(0xE0 + c / 4096) as byte, (0x80 + c / 64 % 64) as byte, (0x80 + c % 64) as byte]
    else [(0xF0 + c / 262144) as byte, (0x80 + c / 4096 % 64) as byte, (0x80 + c / 64 % 64) as byte, (0x80 + c % 64) as byte]
  }

  function EncodedAll(cs: seq<int>): Bytes
    requires forall c | c in cs :: Scalar(c)
  {
    if cs == [] then [] else Encoded(cs[0]) + EncodedAll(cs[1..])
  }

  lemma EncodedIsFirst(c: int, rest: Bytes)
    requires Scalar(c)
    ensures FirstLength(Encoded(c) + rest) == |Encoded(c)| > 0
  {
    if c >= 0x10000 {
      EncodedFour(c, rest);
    } else if c >= 0x800 {
      EncodedThree(c, rest);
    }
  }

  lemma EncodedThree(c: int, rest: Bytes)
    requires 0x800 <= c < 0x10000 && Scalar(c)
    ensures FirstLength(Encoded(c) + rest) == 3
  {
    var s := Encoded(c) + rest;
    assert s[0] == (0xE0 + c / 4096) as byte && s[1] == (0x80 + c / 64 % 64) as byte && s[2] == (0x80 + c % 64) as byte;
    assert c == c / 4096 * 4096 + c / 64 % 64 * 64 + c % 64;
  }

  lemma EncodedFour(c: int, rest: Bytes)
    requires 0x10000 <= c <= 0x10FFFF
    ensures FirstLength(Encoded(c) + rest) == 4
  {
    var s := Encoded(c) + rest;
    assert s[0] == (0xF0 + c / 262144) as byte && s[1] == (0x80 + c / 4096 % 64) as byte;
    assert s[2] == (0x80 + c / 64 % 64) as byte && s[3] == (0x80 + c % 64) as byte;
    FirstDigits(c);
  }

  lemma FirstDigits(c: int)
    requires 0x10000 <= c <= 0x10FFFF
    ensures 0 <= c / 262144 <= 4 && (c / 262144 == 0 ==> c / 4096 % 64 >= 16) && (c / 262144 == 4 ==> c / 4096 % 64 < 16)
  {
  }

  lemma Digits(a: int, b: int, c: int, d: int)
    requires 0 <= a && 0 <= b < 64 && 0 <= c < 64 && 0 <= d < 64
    ensures var x := a * 262144 + b * 4096 + c * 64 + d;
      x % 64 == d && x / 64 % 64 == c && x / 4096 % 64 == b && x / 4096 == a * 64 + b && x / 262144 == a
  {
    var x := a * 262144 + b * 4096 + c * 64 + d;
    assert x / 64 == a * 4096 + b * 64 + c;
    assert x / 4096 == a * 64 + b;
  }

  lemma FirstIsEncoded(s: Bytes) returns (c: int)
    requires FirstLength(s) > 0
    ensures Scalar(c) && Encoded(c) == s[..FirstLength(s)]
  {
    var n := FirstLength(s);
    var b0 := s[0] as int;
    if n == 1 {
      c := b0;
    } else {
      var b1 := s[1] as int - 0x80;
      assert 0 <= b1 < 64;
      if n == 2 {
        c := (b0 - 0xC0) * 64 + b1;
      } else {
        var b2 := s[2] as int - 0x80;
        assert Tail(s[2]);
        if n == 3 {
          c := (b0 - 0xE0) * 4096 + b1 * 64 + b2;
          Digits(0, b0 - 0xE0, b1, b2);
        } else {
          var b3 := s[3] as int - 0x80;
          assert Tail(s[3]);
          c := (b0 - 0xF0) * 262144 + b1 * 4096 + b2 * 64 + b3;
          Digits(b0 - 0xF0, b1, b2, b3);
        }
      }
    }
  }

  lemma {:induction false} EncodedIsValid(cs: seq<int>)
    requires forall c | c in cs :: Scalar(c)
    ensures Valid(EncodedAll(cs))
  {
    if cs != [] {
      EncodedIsFirst(cs[0], EncodedAll(cs[1..]));
      EncodedIsValid(cs[1..]);
      var s := EncodedAll(cs);
      assert s[|Encoded(cs[0])|..] == EncodedAll(cs[1..]);
    }
  }

  lemma {:induction false} ValidIsEncoded(s: Bytes) returns (cs: seq<int>)
    requires Valid(s)
    ensures (forall c | c in cs :: Scalar(c)) && EncodedAll(cs) == s
  {
    if s == [] {
      cs := [];
    } else {
      var n := FirstLength(s);
      var c := FirstIsEncoded(s);
      var rest := ValidIsEncoded(s[n..]);
      cs := [c] + rest;
      assert cs[1..] == rest && s == s[..n] + s[n..];
    }
  }

  /** Well formed are exactly the encodings of characters. */
  lemma ValidExact(s: Bytes)
    ensures Valid(s) <==> exists cs: seq<int> :: (forall c | c in cs :: Scalar(c)) && EncodedAll(cs) == s
  {
    if Valid(s) {
      var cs := ValidIsEncoded(s);
    }
    if cs: seq<int> :| (forall c | c in cs :: Scalar(c)) && EncodedAll(cs) == s {
      EncodedIsValid(cs);
    }
  }

  // ---------- cutting ----------

  function LongestValid(s: Bytes): Bytes {
    if Valid(s) then s else LongestValid(s[..|s| - 1])
  }

  function Truncated(s: Bytes, max: int): Bytes {
    if max <= 0 || |s| <= max then s else LongestValid(s[..max])
  }

  method Truncate(s: Bytes, max: int) returns (r: Bytes)
    ensures r == Truncated(s, max)
  {
    if max <= 0 || |s| <= max {
      return s;
    }
    r := s[..max];
    while !Valid(r)
      invariant LongestValid(r) == LongestValid(s[..max])
      decreases |r|
    {
      r := r[..|r| - 1];
    }
  }

  lemma {:induction false} LongestValidExact(s: Bytes)
    ensures var r := LongestValid(s); r <= s && Valid(r) && forall k | |r| < k <= |s| :: !Valid(s[..k])
  {
    if Valid(s) {
    } else {
      var t := s[..|s| - 1];
      LongestValidExact(t);
      forall k | |LongestValid(t)| < k <= |s| ensures !Valid(s[..k]) {
        if k == |s| {
          assert s[..k] == s;
        } else {
          assert s[..k] == t[..k];
        }
      }
    }
  }

  /** What the cut yields: the text itself if it fits or if there is no bound, otherwise the longest well-formed part
      of its first `max` bytes. */
  lemma TruncatedExact(s: Bytes, max: int)
    ensures var r := Truncated(s, max);
      if max <= 0 || |s| <= max then r == s
      else r <= s && |r| <= max && Valid(r) && forall k | |r| < k <= max :: !Valid(s[..k])
  {
    if max > 0 && |s| > max {
      LongestValidExact(s[..max]);
      assert forall k | 0 <= k <= max :: s[..max][..k] == s[..k];
    }
  }

  lemma FirstLengthOfPrefix(s: Bytes, m: nat)
    requires m <= |s| && FirstLength(s) <= m && s != []
    ensures FirstLength(s) > 0 ==> FirstLength(s[..m]) == FirstLength(s)
  {
  }

  /** Well-formed text has a character boundary within the last three bytes before any position. */
  lemma {:induction false} BoundaryNear(s: Bytes, max: nat) returns (k: nat)
    requires Valid(s) && max < |s|
    ensures max - 3 <= k <= max && Valid(s[..k])
    decreases max
  {
    var n := FirstLength(s);
    if n > max {
      assert s[..0] == [];
      k := 0;
    } else {
      var rest := BoundaryNear(s[n..], max - n);
      k := n + rest;
      FirstLengthOfPrefix(s, k);
      assert s[..k][n..] == s[n..][..rest];
    }
  }

  /** Cutting well-formed text yields well-formed text and loses at most three of the allowed bytes. */
  lemma CutLosesLittle(s: Bytes, max: int)
    requires Valid(s) && max > 0
    ensures var r := Truncated(s, max); Valid(r) && r <= s && |r| <= max && (|s| > max ==> |r| >= max - 3)
  {
    TruncatedExact(s, max);
    if |s| > max {
      var k := BoundaryNear(s, max);
      assert !(|Truncated(s, max)| < k <= max);
    }
  }

  /** A text that is not well formed from the start is cut to nothing if it is too long, and left alone otherwise. */
  lemma CutOfBroken(s: Bytes, max: int)
    requires s != [] && FirstLength(s) == 0 && max > 0
    ensures Truncated(s, max) == if |s| <= max then s else []
  {
    TruncatedExact(s, max);
    var r := Truncated(s, max);
    if |s| > max && r != [] {
      assert r == s[..|r|];
      FirstLengthGrows(s, |r|);
    }
  }

  lemma FirstLengthGrows(s: Bytes, m: nat)
    requires 0 < m <= |s|
    ensures FirstLength(s[..m]) > 0 ==> FirstLength(s) > 0
  {
  }

  // ---------- lists within a budget ----------

  datatype Entry = Entry(source: Bytes, message: Bytes)

  function Size(e: Entry): nat {
    |e.source| + |e.message|
  }

  function Total(es: seq<Entry>): nat {
    if es == [] then 0 else Total(es[..|es| - 1]) + Size(es[|es| - 1])
  }

  predicate NonEmpty(e: Entry) {
    e.source != [] || e.message != []
  }

  /** Both texts of an entry, trimmed and cut. */
  function Prepare(trim: Bytes -> Bytes): Entry -> Entry {
    (e: Entry) => Entry(Truncated(trim(e.source), MAX_MESSAGE), Truncated(trim(e.message), MAX_MESSAGE))
  }

  function Entries(trim: Bytes -> Bytes, raw: seq<Entry>): seq<Entry> {
    Filter(Map(Prepare(trim), raw), NonEmpty)
  }

  lemma TotalOne(es: seq<Entry>, e: Entry)
    ensures Total(es + [e]) == Total(es) + Size(e)
  {
  }

  lemma EntriesSplit(trim: Bytes -> Bytes, raw: seq<Entry>, i: nat)
    requires i < |raw|
    ensures Entries(trim, raw[..i + 1])
         == Entries(trim, raw[..i]) + (if NonEmpty(Prepare(trim)(raw[i])) then [Prepare(trim)(raw[i])] else [])
    ensures Entries(trim, raw) == Entries(trim, raw[..i + 1]) + Entries(trim, raw[i + 1..])
  {
    var f := Prepare(trim);
    assert raw[..i + 1] == raw[..i] + [raw[i]];
    FilterMapAppend(f, NonEmpty, raw[..i], raw[i]);
    assert Map(f, raw) == Map(f, raw[..i + 1]) + Map(f, raw[i + 1..]);
    FilterAppend(Map(f, raw[..i + 1]), Map(f, raw[i + 1..]), NonEmpty);
  }

  /** The list of metadata errors: the longest prefix of the entries that are not empty which has at most eight entries
      and 2048 bytes. */
  method MetadataDiagnostics(trim: Bytes -> Bytes, raw: seq<Entry>) returns (out: seq<Entry>)
    ensures out <= Entries(trim, raw) && |out| <= MAX_ERRORS && Total(out) <= MAX_ERROR_BYTES
    ensures |out| < |Entries(trim, raw)| ==>
      |out| == MAX_ERRORS || Total(out) + Size(Entries(trim, raw)[|out|]) > MAX_ERROR_BYTES
  {
    out := [];
    var total := 0;
    for i := 0 to |raw|
      invariant out == Entries(trim, raw[..i]) && total == Total(out)
      invariant |out| <= MAX_ERRORS && total <= MAX_ERROR_BYTES
    {
      EntriesSplit(trim, raw, i);
      var source := Truncate(trim(raw[i].source), MAX_MESSAGE);
      var message := Truncate(trim(raw[i].message), MAX_MESSAGE);
      var e := Entry(source, message);
      if source == [] && message == [] {
        continue;
      }
      if |out| >= MAX_ERRORS || total + Size(e) > MAX_ERROR_BYTES {
        return;
      }
      TotalOne(out, e);
      out := out + [e];
      total := total + Size(e);
    }
    assert raw[..|raw|] == raw;
  }

  function Message(trim: Bytes -> Bytes): Bytes -> Bytes {
    (m: Bytes) => Truncated(trim(m), MAX_MESSAGE)
  }

  predicate SomeText(m: Bytes) {
    m != []
  }

  function Messages(trim: Bytes -> Bytes, raw: seq<Bytes>): seq<Bytes> {
    Filter(Map(Message(trim), raw), SomeText)
  }

  function TotalBytes(ms: seq<Bytes>): nat {
    if ms == [] then 0 else TotalBytes(ms[..|ms| - 1]) + |ms[|ms| - 1]|
  }

  /** The recovery errors: at most eight rows are read, so the byte budget never drops a message that is not empty. */
  method RecoveryErrors(trim: Bytes -> Bytes, raw: seq<Bytes>) returns (out: seq<Bytes>)
    requires |raw| <= MAX_ERRORS
    ensures out == Messages(trim, raw) && TotalBytes(out) <= MAX_ERROR_BYTES
  {
    out := [];
    var total := 0;
    for i := 0 to |raw|
      invariant out == Messages(trim, raw[..i]) && total == TotalBytes(out)
      invariant total <= i * MAX_MESSAGE
    {
      var msg := Truncate(trim(raw[i]), MAX_MESSAGE);
      TruncatedExact(trim(raw[i]), MAX_MESSAGE);
      assert raw[..i + 1] == raw[..i] + [raw[i]];
      FilterMapAppend(Message(trim), SomeText, raw[..i], raw[i]);
      if msg == [] || total + |msg| > MAX_ERROR_BYTES {
        continue;
      }
      assert (out + [msg])[..|out|] == out;
      out := out + [msg];
      total := total + |msg|;
    }
    assert raw[..|raw|] == raw;
  }
}
