/** The media playlist of a just-in-time session: which segments it lists and how long it says they are. Durations are
    real numbers; the segment length is a parameter. */
module Playlist {

  /** Go's conversion of a floating-point number to an integer, which cuts towards zero. */
  function Trunc(x: real): int {
    if x >= 0.0 then x.Floor else -((-x).Floor)
  }

  function StartTime(seg: int, length: real): real {
    seg as real * length
  }

  /** A remainder of more than a tenth of a second gets a segment of its own. */
  function Total(duration: real, length: real): int
    requires length > 0.0
  {
    var whole := Trunc(duration / length);
    if duration - whole as real * length > 0.1 then whole + 1 else whole
  }

  function LastBeforeFallback(duration: real, length: real): real
    requires length > 0.0
  {
    duration - (Total(duration, length) - 1) as real * length
  }

  function Last(duration: real, length: real): real
    requires length > 0.0
  {
    var last := LastBeforeFallback(duration, length);
    if last < 0.1 then length else last
  }

  function Duration(i: int, duration: real, length: real): real
    requires length > 0.0
  {
    if i == Total(duration, length) - 1 then Last(duration, length) else length
  }

  function TargetDuration(length: real): int {
    Trunc(length) + 1
  }

  datatype Segment = Segment(index: int, duration: real)

  method Generate(duration: real, length: real, start: nat) returns (segments: seq<Segment>)
    requires length > 0.0
    ensures |segments| == if start < Total(duration, length) then Total(duration, length) - start else 0
    ensures forall k | 0 <= k < |segments| :: segments[k] == Segment(start + k, Duration(start + k, duration, length))
  {
    var total := Trunc(duration / length);
    if duration - total as real * length > 0.1 {
      total := total + 1;
    }
    var last := duration - (total - 1) as real * length;
    if last < 0.1 {
      last := length;
    }
    segments := [];
    var i: int := start;
    while i < total
      invariant start <= i && (i <= total || i == start) && |segments| == i - start
      invariant forall k | 0 <= k < |segments| :: segments[k] == Segment(start + k, Duration(start + k, duration, length))
      decreases total - i
    {
      var dur := length;
      if i == total - 1 {
        dur := last;
      }
      segments := segments + [Segment(i, dur)];
      i := i + 1;
    }
  }

  // ---------- the arithmetic ----------

  lemma DivFloor(duration: real, length: real)
    requires duration >= 0.0 && length > 0.0
    ensures var whole := Trunc(duration / length);
      whole >= 0 && whole as real * length <= duration < whole as real * length + length
  {
    var x := duration / length;
    var f := x.Floor as real;
    Quotient(x, duration, length);
    Within(x, f, length, duration, f * length, x - f);
  }

  lemma Quotient(x: real, duration: real, length: real)
    requires length > 0.0 && duration >= 0.0 && duration == x * length
    ensures x >= 0.0
  {
  }

  lemma Times(a: real, c: real)
    requires c > 0.0
    ensures a >= 0.0 ==> a * c >= 0.0
    ensures a > 0.0 ==> a * c > 0.0
  {
  }

  /** A fraction d of a length c, in absolute terms: p lies between q and q + c. */
  lemma Within(x: real, f: real, c: real, p: real, q: real, d: real)
    requires p == x * c && q == f * c && d == x - f && 0.0 <= d < 1.0 && c > 0.0
    ensures q <= p < q + c
  {
    Times(d, c);
    Times(1.0 - d, c);
    var e, e' := d * c, (1.0 - d) * c;
    assert e == p - q && e' == q + c - p;
  }

  /** With at least one segment of at least a tenth of a second, the last one lasts more than a tenth and at most a
      tenth longer than the others, so the fallback for a short last segment is never taken. */
  lemma LastExact(duration: real, length: real)
    requires duration >= 0.0 && length >= 0.1
    ensures Last(duration, length) == LastBeforeFallback(duration, length)
    ensures 0.1 <= Last(duration, length) <= length + 0.1
  {
    DivFloor(duration, length);
    var whole := Trunc(duration / length);
    assert (whole + 1) as real * length == whole as real * length + length;
    assert (whole - 1) as real * length == whole as real * length - length;
  }

  function Sum(segments: seq<Segment>): real {
    if segments == [] then 0.0 else Sum(segments[..|segments| - 1]) + segments[|segments| - 1].duration
  }

  /** The segments from `start` on, as the playlist lists them. */
  predicate Lists(segments: seq<Segment>, start: nat, duration: real, length: real)
    requires length > 0.0
  {
    forall k | 0 <= k < |segments| :: segments[k] == Segment(start + k, Duration(start + k, duration, length))
  }

  /** All but the last segment together: from the start time of the first to the start time of the next. */
  lemma {:induction false} SumBefore(segments: seq<Segment>, start: nat, duration: real, length: real)
    requires length > 0.0 && Lists(segments, start, duration, length) && start + |segments| < Total(duration, length)
    ensures Sum(segments) == StartTime(start + |segments|, length) - StartTime(start, length)
  {
    if segments != [] {
      var front := segments[..|segments| - 1];
      SumBefore(front, start, duration, length);
      assert segments[|segments| - 1].duration == length;
      assert (start + |segments|) as real * length == (start + |front|) as real * length + length;
    }
  }

  /** The listed durations before segment i add up to the time at which the encoder starts segment i. */
  lemma SumsToStartTime(segments: seq<Segment>, duration: real, length: real)
    requires length > 0.0 && Lists(segments, 0, duration, length) && |segments| < Total(duration, length)
    ensures Sum(segments) == StartTime(|segments|, length)
  {
  }

  /** A playlist from any listed segment on covers exactly the rest of the medium; from the first, all of it. */
  lemma CoversTheRest(segments: seq<Segment>, start: nat, duration: real, length: real)
    requires duration >= 0.0 && length >= 0.1 && start < Total(duration, length)
    requires Lists(segments, start, duration, length) && |segments| == Total(duration, length) - start
    ensures Sum(segments) == duration - StartTime(start, length)
  {
    var front := segments[..|segments| - 1];
    SumBefore(front, start, duration, length);
    LastExact(duration, length);
    assert start + |front| == Total(duration, length) - 1;
  }

  /** What is printed: three decimals, rounded to the nearest. */
  function Printed(x: real): real {
    (1000.0 * x + 0.5).Floor as real / 1000.0
  }

  function Nearest(x: real): int {
    (x + 0.5).Floor
  }

  lemma FloorBelow(x: real, n: int)
    requires x < (n + 1) as real
    ensures x.Floor <= n
  {
  }

  /** Section 4.3.3.1 of RFC 8216: every listed duration, rounded to the nearest integer, is at most the target
      duration. This holds for the durations and for what is printed of them. */
  lemma WithinTarget(i: int, duration: real, length: real)
    requires duration >= 0.0 && length >= 0.1
    ensures Nearest(Duration(i, duration, length)) <= TargetDuration(length)
    ensures Nearest(Printed(Duration(i, duration, length))) <= TargetDuration(length)
  {
    LastExact(duration, length);
    var x, n := Duration(i, duration, length), length.Floor;
    assert length < (n + 1) as real && x <= length + 0.1;
    FloorBelow(x + 0.5, n + 1);
    assert Printed(x) <= x + 0.0005;
    FloorBelow(Printed(x) + 0.5, n + 1);
  }

  /** A medium of nothing at all, or of at most a tenth of a second when segments are longer, has no segment. */
  lemma NoSegmentsExact(duration: real, length: real)
    requires duration >= 0.0 && length >= 0.1
    ensures Total(duration, length) <= 0 <==> duration <= 0.1 && duration < length
  {
    DivFloor(duration, length);
    var whole := Trunc(duration / length);
    if whole >= 1 {
      Times(whole as real - 1.0, length);
      assert (whole as real - 1.0) * length == whole as real * length - length;
    } else {
      assert whole == 0;
    }
  }
}
