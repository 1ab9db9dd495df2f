/** Cutting long audio at silences, and mapping the words of a transcript onto the pieces. */
module Segments {
  import opened Basics
  import opened Text

  const LONGEST := 30.0
  const SHORTEST := 3.0
  const TAIL := 0.05

  datatype SampleRange = SampleRange(start: real, end: real)

  /** A line of the silence detector. */
  datatype Mark = SilenceStart(at: real) | SilenceEnd(at: real)

  /* ---- Silence breaks ---- */

  /** A break is the middle of a silence: its end and the latest start before it. */
  ghost predicate BreakBetween(marks: seq<Mark>, j: nat, i: nat, b: real) {
    && j < i < |marks| && marks[j].SilenceStart? && marks[i].SilenceEnd?
    && b == (marks[j].at + marks[i].at) / 2.0
    && forall k | j < k < i :: marks[k].SilenceEnd?
  }

  ghost predicate IsBreak(marks: seq<Mark>, upTo: nat, b: real) {
    exists i, j | 0 <= j < i < upTo :: BreakBetween(marks, j, i, b)
  }

  method BreaksOf(marks: seq<Mark>) returns (breaks: seq<real>)
    ensures forall b :: b in breaks <==> IsBreak(marks, |marks|, b)
  {
    breaks := [];
    var starts := [];
    ghost var latest := 0;
    for i := 0 to |marks|
      invariant starts == [] ==> forall k | 0 <= k < i :: marks[k].SilenceEnd?
      invariant starts != [] ==> latest < i && marks[latest] == SilenceStart(starts[|starts| - 1])
      invariant starts != [] ==> forall k | latest < k < i :: marks[k].SilenceEnd?
      invariant forall b :: b in breaks <==> IsBreak(marks, i, b)
    {
      var m := marks[i];
      ghost var before := breaks;
      if m.SilenceStart? {
        starts := starts + [m.at];
        latest := i;
      } else if |starts| > 0 {
        breaks := breaks + [(starts[|starts| - 1] + m.at) / 2.0];
        assert BreakBetween(marks, latest, i, (starts[|starts| - 1] + m.at) / 2.0);
      }
      forall b ensures b in breaks <==> IsBreak(marks, i + 1, b) {
        OneMoreMark(marks, i, b);
        if exists j | 0 <= j < i :: BreakBetween(marks, j, i, b) {
          var j :| 0 <= j < i && BreakBetween(marks, j, i, b);
          assert j == latest;
        }
        assert b in before <==> IsBreak(marks, i, b);
      }
    }
  }

  lemma OneMoreMark(marks: seq<Mark>, i: nat, b: real)
    requires i < |marks|
    ensures IsBreak(marks, i + 1, b) <==> IsBreak(marks, i, b) || exists j | 0 <= j < i :: BreakBetween(marks, j, i, b)
  {
  }

  /** A mark that ends a silence gives a break halfway back to the latest mark that starts one, if there is any, and
      nothing else gives one. */
  lemma MiddlesAre(before: seq<Mark>, ends: seq<Mark>, start: real, end: real, after: seq<Mark>)
    requires forall k | 0 <= k < |ends| :: ends[k].SilenceEnd?
    ensures var marks := before + [SilenceStart(start)] + ends + [SilenceEnd(end)] + after;
      IsBreak(marks, |marks|, start + (end - start) / 2.0)
  {
    var marks := before + [SilenceStart(start)] + ends + [SilenceEnd(end)] + after;
    var j, i := |before|, |before| + 1 + |ends|;
    assert marks[j] == SilenceStart(start) && marks[i] == SilenceEnd(end);
    assert forall k | j < k < i :: marks[k] == ends[k - j - 1];
    assert start + (end - start) / 2.0 == (start + end) / 2.0;
    assert BreakBetween(marks, j, i, (start + end) / 2.0);
  }

  lemma BreaksAreMiddles(marks: seq<Mark>, b: real) returns (before: seq<Mark>, ends: seq<Mark>, after: seq<Mark>,
        start: real, end: real)
    requires IsBreak(marks, |marks|, b)
    ensures forall k | 0 <= k < |ends| :: ends[k].SilenceEnd?
    ensures marks == before + [SilenceStart(start)] + ends + [SilenceEnd(end)] + after && b - start == end - b
  {
    var i, j :| 0 <= j < i < |marks| && BreakBetween(marks, j, i, b);
    before, ends, after := marks[..j], marks[j + 1..i], marks[i + 1..];
    start, end := marks[j].at, marks[i].at;
    assert marks == marks[..j] + [marks[j]] + marks[j + 1..i] + [marks[i]] + marks[i + 1..];
  }

  /* ---- Sorting ---- */

  ghost predicate Ascending(s: seq<real>) { forall i, j | 0 <= i < j < |s| :: s[i] <= s[j] }

  function Insert(b: real, s: seq<real>): (r: seq<real>)
    ensures forall x :: x in r <==> x == b || x in s
  {
    if s == [] || b <= s[0] then [b] + s else [s[0]] + Insert(b, s[1..])
  }

  lemma {:induction false} InsertAscends(b: real, s: seq<real>)
    requires Ascending(s)
    ensures Ascending(Insert(b, s))
  {
    if s != [] && b > s[0] {
      InsertAscends(b, s[1..]);
      var rest := Insert(b, s[1..]);
      forall i | 0 <= i < |rest| ensures s[0] <= rest[i] {
        var x := rest[i];
        assert x in rest;
        assert x == b || x in s[1..];
      }
      assert Insert(b, s) == [s[0]] + rest;
    }
  }

  function Sort(s: seq<real>): (r: seq<real>)
    ensures Ascending(r) && forall x :: x in r <==> x in s
  {
    if s == [] then []
    else
      InsertAscends(s[0], Sort(s[1..]));
      Insert(s[0], Sort(s[1..]))
  }

  /* ---- The cuts ---- */

  /** Far enough from the last cut, and not too far. */
  predicate InWindow(cursor: real, b: real) { cursor + SHORTEST < b <= cursor + LONGEST }

  /** The next cut: the last break in the window; without one, a hard cut after 30 s. */
  ghost predicate IsCut(breaks: seq<real>, cursor: real, cut: real) {
    if exists b | b in breaks :: InWindow(cursor, b)
    then cut in breaks && InWindow(cursor, cut) && forall b | b in breaks && InWindow(cursor, b) :: b <= cut
    else cut == cursor + LONGEST
  }

  function EndOf(ranges: seq<SampleRange>): real {
    if ranges == [] then 0.0 else ranges[|ranges| - 1].end
  }

  /** Ranges join up from zero; each but a final remainder ends at a cut. */
  ghost predicate Joined(breaks: seq<real>, duration: real, ranges: seq<SampleRange>) {
    forall i | 0 <= i < |ranges| ::
      && ranges[i].start == EndOf(ranges[..i])
      && (if duration - ranges[i].start > LONGEST then IsCut(breaks, ranges[i].start, ranges[i].end)
          else i == |ranges| - 1 && duration - ranges[i].start > TAIL && ranges[i].end == duration)
  }

  ghost predicate Segmented(breaks: seq<real>, duration: real, ranges: seq<SampleRange>) {
    Joined(breaks, duration, ranges) && duration - EndOf(ranges) <= TAIL
  }

  /** The segmentation at the breaks of these marks. */
  ghost predicate SegmentedAt(marks: seq<Mark>, duration: real, ranges: seq<SampleRange>) {
    exists breaks: seq<real> :: AreBreaks(marks, breaks) && Segmented(breaks, duration, ranges)
  }

  ghost predicate AreBreaks(marks: seq<Mark>, breaks: seq<real>) {
    forall b :: b in breaks <==> IsBreak(marks, |marks|, b)
  }

  method VadRanges(marks: seq<Mark>, duration: real) returns (ranges: seq<SampleRange>)
    ensures SegmentedAt(marks, duration, ranges)
  {
    var breaks := BreaksOf(marks);
    var sorted := Sort(breaks);
    ranges := CutAt(sorted, duration);
    assert AreBreaks(marks, sorted);
  }

  /** The cutting loop. The guard on a cut that does not advance never fires: no assignment follows it. */
  method CutAt(breaks: seq<real>, duration: real) returns (ranges: seq<SampleRange>)
    requires Ascending(breaks)
    ensures Segmented(breaks, duration, ranges)
  {
    hide IsCut, Joined, Ascending;
    ranges := [];
    var cursor := 0.0;
    NothingCut(breaks, duration, cursor);
    while duration - cursor > LONGEST
      invariant cursor == EndOf(ranges) && Joined(breaks, duration, ranges) && AllLong(duration, ranges)
      decreases (duration - cursor).Floor
    {
      var cut := cursor + LONGEST;
      NothingCut(breaks, duration, cursor);
      for i := 0 to |breaks|
        invariant IsCut(breaks[..i], cursor, cut)
      {
        if breaks[i] > cursor + SHORTEST && breaks[i] <= cursor + LONGEST {
          cut := breaks[i];
        }
        NextBreak(breaks, i, cursor, cut);
      }
      assert breaks[..|breaks|] == breaks;
      CutAdvances(breaks, cursor, cut);
      if cut <= cursor { assert false; }
      OneMoreRange(breaks, duration, ranges, cut);
      ranges := ranges + [SampleRange(cursor, cut)];
      cursor := cut;
    }
    if duration - cursor > TAIL {
      OneMoreRange(breaks, duration, ranges, duration);
      ranges := ranges + [SampleRange(cursor, duration)];
    }
  }

  /** Every range so far was cut from more than 30 s. */
  predicate AllLong(duration: real, ranges: seq<SampleRange>) {
    forall i | 0 <= i < |ranges| :: duration - ranges[i].start > LONGEST
  }

  lemma NothingCut(breaks: seq<real>, duration: real, cursor: real)
    ensures Joined(breaks, duration, []) && IsCut(breaks[..0], cursor, cursor + LONGEST)
  {
  }

  lemma OneMoreRange(breaks: seq<real>, duration: real, ranges: seq<SampleRange>, end: real)
    requires Joined(breaks, duration, ranges) && AllLong(duration, ranges)
    requires
      var start := EndOf(ranges);
      if duration - start > LONGEST then IsCut(breaks, start, end) else duration - start > TAIL && end == duration
    ensures Joined(breaks, duration, ranges + [SampleRange(EndOf(ranges), end)])
  {
    hide IsCut;
    var more := ranges + [SampleRange(EndOf(ranges), end)];
    assert forall i | 0 <= i < |ranges| :: more[..i] == ranges[..i];
    assert more[..|ranges|] == ranges;
  }

  lemma NextBreak(breaks: seq<real>, i: nat, cursor: real, cut: real)
    requires Ascending(breaks) && i < |breaks|
    requires if InWindow(cursor, breaks[i]) then cut == breaks[i] else IsCut(breaks[..i], cursor, cut)
    ensures IsCut(breaks[..i + 1], cursor, cut)
  {
    assert breaks[..i + 1] == breaks[..i] + [breaks[i]];
    if InWindow(cursor, breaks[i]) { assert breaks[i] in breaks[..i + 1]; }
    else if b :| b in breaks[..i + 1] && InWindow(cursor, b) { assert b in breaks[..i]; }
  }

  lemma CutAdvances(breaks: seq<real>, cursor: real, cut: real)
    requires IsCut(breaks, cursor, cut)
    ensures cursor + SHORTEST < cut <= cursor + LONGEST
  {
  }

  /* ---- What the segments are ---- */

  lemma Bounded(breaks: seq<real>, duration: real, ranges: seq<SampleRange>, i: nat)
    requires Joined(breaks, duration, ranges) && i < |ranges|
    ensures ranges[i].start < ranges[i].end <= ranges[i].start + 30.0 && ranges[i].end <= duration
    ensures i < |ranges| - 1 ==> ranges[i].end > ranges[i].start + 3.0
  {
    if duration - ranges[i].start > LONGEST { CutAdvances(breaks, ranges[i].start, ranges[i].end); }
  }

  /** Cutting goes on exactly while more than 30 s are left; then what is left is one range if it is more than 0.05 s,
      and is dropped otherwise. */
  lemma CutsWhileLong(breaks: seq<real>, duration: real, ranges: seq<SampleRange>)
    requires Segmented(breaks, duration, ranges)
    ensures forall i | 0 <= i < |ranges| ::
      if duration - ranges[i].start > 30.0 then ranges[i].end > ranges[i].start + 3.0
      else i == |ranges| - 1 && ranges[i].end == duration && duration - ranges[i].start > 0.05
    ensures duration - EndOf(ranges) <= 0.05
    ensures ranges != [] ==> ranges[0].start == 0.0
    ensures forall i | 0 < i < |ranges| :: ranges[i].start == ranges[i - 1].end
  {
    forall i | 0 <= i < |ranges| && duration - ranges[i].start > 30.0 ensures ranges[i].end > ranges[i].start + 3.0 {
      CutAdvances(breaks, ranges[i].start, ranges[i].end);
    }
    forall i | 0 < i < |ranges| ensures ranges[i].start == ranges[i - 1].end {
      assert EndOf(ranges[..i]) == ranges[i - 1].end;
    }
    assert ranges[..0] == [];
    hide IsCut;
  }

  /** A cut is at the last break more than 3 s and at most 30 s on, if there is one. */
  lemma CutsAtTheLastBreak(breaks: seq<real>, duration: real, ranges: seq<SampleRange>, i: nat, b: real)
    requires Joined(breaks, duration, ranges) && i < |ranges| && duration - ranges[i].start > 30.0
    requires b in breaks && ranges[i].start + 3.0 < b <= ranges[i].start + 30.0
    ensures ranges[i].end in breaks && b <= ranges[i].end
  {
    assert InWindow(ranges[i].start, b);
  }

  /** A hard 30 s cut happens only where no break lies in the window. */
  lemma HardCutsOnlyWithoutBreaks(breaks: seq<real>, duration: real, ranges: seq<SampleRange>, i: nat)
    requires Joined(breaks, duration, ranges) && i < |ranges| && ranges[i].end != duration
    ensures ranges[i].end in breaks
      || (ranges[i].end == ranges[i].start + 30.0
          && forall b | b in breaks :: !(ranges[i].start + 3.0 < b <= ranges[i].start + 30.0))
  {
    forall b | b in breaks && ranges[i].start + 3.0 < b <= ranges[i].start + 30.0 ensures ranges[i].end in breaks {
      assert InWindow(ranges[i].start, b);
    }
  }

  /** Two segmentations of the same audio are equal: the description leaves no choice. */
  lemma {:induction false} SegmentedUnique(breaks: seq<real>, duration: real, a: seq<SampleRange>,
        b: seq<SampleRange>, n: nat)
    requires Segmented(breaks, duration, a) && Segmented(breaks, duration, b)
    requires n <= |a| && n <= |b| && a[..n] == b[..n]
    ensures a == b
    decreases |a| - n
  {
    hide Joined, IsCut;
    Onwards(breaks, duration, a, n);
    Onwards(breaks, duration, b, n);
    if n < |a| && n < |b| {
      NextRangeUnique(breaks, duration, a, b, n);
      assert a[..n + 1] == a[..n] + [a[n]] && b[..n + 1] == b[..n] + [b[n]];
      SegmentedUnique(breaks, duration, a, b, n + 1);
    } else {
      assert a[..|a|] == a && b[..|b|] == b;
    }
  }

  /** A segmentation goes on exactly while more than the dropped tail is left. */
  lemma Onwards(breaks: seq<real>, duration: real, ranges: seq<SampleRange>, n: nat)
    requires Segmented(breaks, duration, ranges) && n <= |ranges|
    ensures n < |ranges| <==> duration - EndOf(ranges[..n]) > TAIL
  {
    hide IsCut;
    assert ranges[..|ranges|] == ranges;
    if n < |ranges| { assert ranges[n].start == EndOf(ranges[..n]); }
  }

  lemma NextRangeUnique(breaks: seq<real>, duration: real, a: seq<SampleRange>, b: seq<SampleRange>, n: nat)
    requires Joined(breaks, duration, a) && Joined(breaks, duration, b)
    requires n < |a| && n < |b| && a[..n] == b[..n]
    ensures a[n] == b[n]
  {
    hide IsCut;
    assert a[n].start == EndOf(a[..n]) && b[n].start == EndOf(b[..n]);
    if duration - a[n].start > LONGEST { CutUnique(breaks, a[n].start, a[n].end, b[n].end); }
  }

  /** The marks determine the segmentation: which sequence lists the breaks does not matter. */
  lemma SegmentedAtUnique(marks: seq<Mark>, duration: real, a: seq<SampleRange>, b: seq<SampleRange>)
    requires SegmentedAt(marks, duration, a) && SegmentedAt(marks, duration, b)
    ensures a == b
  {
    var s: seq<real> :| AreBreaks(marks, s) && Segmented(s, duration, a);
    var t: seq<real> :| AreBreaks(marks, t) && Segmented(t, duration, b);
    SameBreaks(s, t, duration, b);
    SegmentedUnique(s, duration, a, b, 0);
  }

  lemma SameBreaks(s: seq<real>, t: seq<real>, duration: real, ranges: seq<SampleRange>)
    requires Segmented(t, duration, ranges) && forall b :: b in s <==> b in t
    ensures Segmented(s, duration, ranges)
  {
    forall cursor, cut | IsCut(t, cursor, cut) ensures IsCut(s, cursor, cut) { }
    hide IsCut;
  }

  lemma CutUnique(breaks: seq<real>, cursor: real, c: real, d: real)
    requires IsCut(breaks, cursor, c) && IsCut(breaks, cursor, d)
    ensures c == d
  {
  }

  /* ---- Words ---- */

  datatype TimedSegment = TimedSegment(start: real, end: real, text: string)

  function Ceil(x: real): int { -((-x).Floor) }

  /** A point of time as a position among `n` words. */
  function Position(x: real, total: real, n: nat): real
    requires total > 0.0
  {
    x / total * n as real
  }

  predicate Overlaps(r: SampleRange, s: TimedSegment) { s.end > r.start && s.start < r.end }

  /** The texts of the timed segments that overlap a range, in order. */
  function OverlapTexts(segments: seq<TimedSegment>, r: SampleRange): seq<string> {
    if segments == [] then []
    else
      var last := segments[|segments| - 1];
      OverlapTexts(segments[..|segments| - 1], r) + (if Overlaps(r, last) then [TrimSpace(last.text)] else [])
  }

  /** The words that fall on a range by proportion: every word that overlaps it, none else. */
  predicate OnRange(k: int, r: SampleRange, total: real, n: nat)
    requires total > 0.0
  {
    0 <= k < n && Position(r.start, total, n) < (k + 1) as real && k as real < Position(r.end, total, n)
  }

  /** A timed segment is quoted exactly when it ends after the start of the range and starts before its end. */
  lemma {:induction false} QuotedExactly(a: seq<TimedSegment>, s: TimedSegment, b: seq<TimedSegment>, r: SampleRange)
    ensures OverlapTexts(a + [s] + b, r) ==
      OverlapTexts(a, r) + (if r.start < s.end && s.start < r.end then [TrimSpace(s.text)] else []) + OverlapTexts(b, r)
    decreases |b|
  {
    if b == [] {
      assert a + [s] + b == a + [s] && (a + [s])[..|a|] == a;
    } else {
      var n := |b| - 1;
      assert (a + [s] + b)[..|a + [s] + b| - 1] == a + [s] + b[..n];
      QuotedExactly(a, s, b[..n], r);
    }
  }

  function Said(timed: Option<seq<TimedSegment>>, r: SampleRange): string {
    if timed.Some? then TrimSpace(Join(OverlapTexts(timed.value, r), ' ')) else ""
  }

  /** What is quoted is every such text in order with a space between, and no more space around them. */
  lemma QuotesAreJoined(segments: seq<TimedSegment>, r: SampleRange)
    ensures Said(None, r) == "" && Trimmed(Said(Some(segments), r))
    ensures Padded(Join(OverlapTexts(segments, r), ' '), Said(Some(segments), r))
  {
    TrimExactly(Join(OverlapTexts(segments, r), ' '), Said(Some(segments), r));
    hide Padded;
  }

  /** `alignText`. `timed` is the parsed timing, when it is to be used and could be parsed. A range that starts
      past the end would slice out of bounds. */
  method AlignText(text: string, timed: Option<seq<TimedSegment>>, r: SampleRange, total: real)
    returns (aligned: string, ghost lo: nat, ghost hi: nat)
    requires total > 0.0 && r.start <= total
    ensures Fields(text) == [] ==> aligned == ""
    ensures Fields(text) != [] && Said(timed, r) != "" ==> aligned == Said(timed, r)
    ensures Fields(text) != [] && Said(timed, r) == "" ==>
      lo <= hi <= |Fields(text)| && aligned == Join(Fields(text)[lo..hi], ' ')
    ensures Fields(text) != [] && Said(timed, r) == "" ==>
      forall k :: lo <= k < hi <==> OnRange(k, r, total, |Fields(text)|)
  {
    hide Position, Ceil, Fields, TrimSpace, Join;
    lo, hi := 0, 0;
    var words := Fields(text);
    if |words| == 0 { return "", 0, 0; }
    if timed.Some? {
      var parts := [];
      for i := 0 to |timed.value|
        invariant parts == OverlapTexts(timed.value[..i], r)
      {
        var s := timed.value[i];
        if s.end > r.start && s.start < r.end { parts := parts + [TrimSpace(s.text)]; }
        assert timed.value[..i + 1][..i] == timed.value[..i];
      }
      assert timed.value[..|timed.value|] == timed.value;
      var joined := TrimSpace(Join(parts, ' '));
      if joined != "" { return joined, lo, hi; }
    }
    WordsOnRange(r, total, |words|);
    var start := Position(r.start, total, |words|).Floor;
    var end := Ceil(Position(r.end, total, |words|));
    if start < 0 { start := 0; }
    if end > |words| { end := |words|; }
    if end < start { end := start; }
    lo, hi := start, end;
    aligned := Join(words[start..end], ' ');
  }

  lemma PositionGrows(x: real, y: real, total: real, n: nat)
    requires total > 0.0 && x <= y
    ensures Position(x, total, n) <= Position(y, total, n)
    ensures Position(0.0, total, n) == 0.0 && Position(total, total, n) == n as real
  {
    assert x / total <= y / total;
    assert (y / total - x / total) * n as real >= 0.0;
  }

  /** The floor and the ceiling of the two ends bound exactly the words on the range. */
  lemma WordsOnRange(r: SampleRange, total: real, n: nat)
    requires total > 0.0 && r.start <= total
    ensures Position(r.start, total, n).Floor <= n
    ensures forall k :: (0 <= k < n && Position(r.start, total, n).Floor <= k < Ceil(Position(r.end, total, n)))
                   <==> OnRange(k, r, total, n)
  {
    PositionGrows(r.start, total, total, n);
    var a, b := Position(r.start, total, n), Position(r.end, total, n);
    CeilIs(b);
    forall k: int
      ensures (0 <= k < n && a.Floor <= k < Ceil(b)) <==> OnRange(k, r, total, n)
    {
      assert k < Ceil(b) <==> k as real < b by { if k < Ceil(b) { assert k <= Ceil(b) - 1; } }
      assert a.Floor <= k <==> a < (k + 1) as real;
    }
  }

  lemma CeilIs(x: real)
    ensures (Ceil(x) - 1) as real < x <= Ceil(x) as real
  {
  }

  ghost predicate OnSome(k: int, ranges: seq<SampleRange>, total: real, n: nat)
    requires total > 0.0
  {
    exists i | 0 <= i < |ranges| :: OnRange(k, ranges[i], total, n)
  }

  /** Segmenting and aligning loses no word if and only if the dropped end is shorter than one word's share. */
  lemma CoversEveryWord(breaks: seq<real>, total: real, ranges: seq<SampleRange>, n: nat)
    requires total > 0.0 && Segmented(breaks, total, ranges)
    ensures (forall k | 0 <= k < n :: OnSome(k, ranges, total, n)) <==>
      n == 0 || n as real * (total - EndOf(ranges)) < total
  {
    hide Position, Joined, IsCut;
    LastWord(EndOf(ranges), total, n);
    if n > 0 && (n - 1) as real < Position(EndOf(ranges), total, n) {
      forall k | 0 <= k < n ensures OnSome(k, ranges, total, n) {
        assert ranges[..|ranges|] == ranges;
        var i := FirstPast(breaks, total, ranges, n, k, |ranges|);
        assert OnRange(k, ranges[i], total, n);
      }
    } else if n > 0 {
      forall i | 0 <= i < |ranges| ensures !OnRange(n - 1, ranges[i], total, n) {
        EndsGrow(breaks, total, ranges, i);
        PositionGrows(ranges[i].end, EndOf(ranges), total, n);
      }
      assert !OnSome(n - 1, ranges, total, n);
    }
  }

  /** 30.04 s without a silence and 800 words: the detector's one range drops 0.04 s, and with it the last word. */
  lemma LastWordLost()
    ensures SegmentedAt([], 30.04, [SampleRange(0.0, 30.0)])
    ensures !OnSome(799, [SampleRange(0.0, 30.0)], 30.04, 800)
  {
    var ranges := [SampleRange(0.0, 30.0)];
    var none: seq<real> := [];
    assert ranges[..0] == [];
    assert AreBreaks([], none) && Segmented(none, 30.04, ranges);
    assert 30.0 / 30.04 * 800.0 < 799.0;
  }

  lemma LastWord(end: real, total: real, n: nat)
    requires total > 0.0
    ensures n > 0 ==> ((n - 1) as real < Position(end, total, n) <==> n as real * (total - end) < total)
  {
    var p := Position(end, total, n);
    assert p * total == end * n as real;
    if n > 0 {
      assert n as real * (total - end) == n as real * total - p * total;
      assert n as real * total - p * total == (n as real - p) * total;
      assert (n as real - p) * total < total <==> n as real - p < 1.0 by { ScaleOrder(n as real - p, 1.0, total); }
    }
  }

  /** The first range, among the first `m`, that ends past the start of word `k`. */
  lemma {:induction false} FirstPast(breaks: seq<real>, total: real, ranges: seq<SampleRange>, n: nat, k: nat, m: nat)
    returns (i: nat)
    requires total > 0.0 && Joined(breaks, total, ranges) && k < n && m <= |ranges|
    requires k as real < Position(EndOf(ranges[..m]), total, n)
    ensures i < m && OnRange(k, ranges[i], total, n)
  {
    PositionGrows(0.0, 0.0, total, n);
    assert m > 0;
    i := m - 1;
    if k as real < Position(EndOf(ranges[..i]), total, n) {
      i := FirstPast(breaks, total, ranges, n, k, i);
    }
  }

  lemma {:induction false} EndsGrow(breaks: seq<real>, total: real, ranges: seq<SampleRange>, i: nat)
    requires Joined(breaks, total, ranges) && i < |ranges|
    ensures ranges[i].end <= EndOf(ranges)
    decreases |ranges| - i
  {
    if i < |ranges| - 1 {
      Bounded(breaks, total, ranges, i + 1);
      EndsGrow(breaks, total, ranges, i + 1);
    }
  }

  /** Neighbouring ranges share at most one word, and one exactly when the cut falls inside a word. */
  lemma NeighboursShareOneWord(breaks: seq<real>, total: real, ranges: seq<SampleRange>, n: nat, i: nat, k: nat)
    requires total > 0.0 && Joined(breaks, total, ranges) && i < |ranges| - 1 && k < n
    ensures OnRange(k, ranges[i], total, n) && OnRange(k, ranges[i + 1], total, n) <==>
      k as real < Position(ranges[i].end, total, n) < (k + 1) as real
  {
    var cut := ranges[i].end;
    assert ranges[i + 1].start == cut;
    Bounded(breaks, total, ranges, i);
    Bounded(breaks, total, ranges, i + 1);
    PositionGrows(ranges[i].start, cut, total, n);
    PositionGrows(cut, ranges[i + 1].end, total, n);
  }
}
