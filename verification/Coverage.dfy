/** The quality scanner's coverage algebra: per-partition summaries composed into global counts. */
module Coverage {
  import opened Domain
  import opened CandleFeed

  type Duration = d: int | 0 < d witness 1
  type Digest = string

  /** A stored candle: its open and everything else about it as one opaque value. */
  datatype Row = Row(openTime: int, content: int)

  /** What one partition contributes: its summary, its logical checksum and its internal gaps.
      A partition's path is its month, so paths sort as months do. */
  datatype Partition = Partition(
    path: int, count: nat, first: Option<int>, last: Option<int>,
    checksum: Digest, logical: Digest, gaps: int, issues: seq<int>)

  datatype CoverageSummary = CoverageSummary(
    range: Option<DataRange>, first: Option<int>, last: Option<int>, expected: Option<int>,
    observed: nat, gaps: int, missingStart: int, missingEnd: int)

  /** Candles missing between two consecutive opens. */
  function GapBetween(a: int, b: int, d: Duration): int { if b > a + d then (b - a) / d - 1 else 0 }

  /** Candles missing inside a row sequence. */
  function GapCount(rows: seq<Row>, d: Duration): int {
    if |rows| < 2 then 0
    else GapCount(rows[..|rows| - 1], d) + GapBetween(rows[|rows| - 2].openTime, rows[|rows| - 1].openTime, d)
  }

  function FirstOpen(rows: seq<Row>): Option<int> { if rows == [] then None else Some(rows[0].openTime) }

  function LastOpen(rows: seq<Row>): Option<int> { if rows == [] then None else Some(rows[|rows| - 1].openTime) }

  /** The partition summarizes exactly these rows. */
  predicate Summarizes(p: Partition, rows: seq<Row>, d: Duration) {
    && p.count == |rows| && p.gaps == GapCount(rows, d)
    && p.first == FirstOpen(rows) && p.last == LastOpen(rows)
  }

  method CountGaps(rows: seq<Row>, d: Duration) returns (gaps: int)
    ensures gaps == GapCount(rows, d)
  {
    gaps := 0;
    var previous: Option<int> := None;
    var n := 0;
    while n < |rows|
      invariant 0 <= n <= |rows|
      invariant previous == LastOpen(rows[..n])
      invariant gaps == GapCount(rows[..n], d)
    {
      var open := rows[n].openTime;
      assert rows[..n + 1][..n] == rows[..n];
      if previous.Some? && open > previous.value + d {
        gaps := gaps + (open - previous.value) / d - 1;
      }
      previous := Some(open);
      n := n + 1;
    }
    assert rows[..n] == rows;
  }

  // Composition

  function Observed(ps: seq<Partition>): nat { if ps == [] then 0 else Observed(ps[..|ps| - 1]) + ps[|ps| - 1].count }

  function InternalGaps(ps: seq<Partition>): int {
    if ps == [] then 0 else InternalGaps(ps[..|ps| - 1]) + ps[|ps| - 1].gaps
  }

  /** The open of the first candle of the first nonempty partition. */
  function FirstOf(ps: seq<Partition>): Option<int> {
    if ps == [] then None
    else
      var before := FirstOf(ps[..|ps| - 1]);
      if before.Some? then before else if ps[|ps| - 1].count > 0 then ps[|ps| - 1].first else None
  }

  function LastOf(ps: seq<Partition>): Option<int> {
    if ps == [] then None
    else if ps[|ps| - 1].count > 0 then ps[|ps| - 1].last
    else LastOf(ps[..|ps| - 1])
  }

  /** Candles missing between consecutive nonempty partitions. */
  function CrossGaps(ps: seq<Partition>, d: Duration): int {
    if ps == [] then 0
    else
      var rest, p := ps[..|ps| - 1], ps[|ps| - 1];
      var before := LastOf(rest);
      CrossGaps(rest, d) +
      (if p.count > 0 && p.first.Some? && before.Some? then GapBetween(before.value, p.first.value, d) else 0)
  }

  function NotNegative(x: int): int { if x >= 0 then x else 0 }

  function Expected(range: DataRange, d: Duration): int { (range.end - range.start) / d }

  function MissingStart(range: DataRange, first: Option<int>, d: Duration): int {
    if first.None? then Expected(range, d) else NotNegative((first.value - range.start) / d)
  }

  function MissingEnd(range: DataRange, last: Option<int>, d: Duration): int {
    if last.None? then 0 else NotNegative((range.end - (last.value + d)) / d)
  }

  function GlobalCoverage(ps: seq<Partition>, d: Duration, range: Option<DataRange>): CoverageSummary {
    CoverageSummary(range, FirstOf(ps), LastOf(ps),
                    if range.Some? then Some(Expected(range.value, d)) else None,
                    Observed(ps), InternalGaps(ps) + CrossGaps(ps, d),
                    if range.Some? then MissingStart(range.value, FirstOf(ps), d) else 0,
                    if range.Some? then MissingEnd(range.value, LastOf(ps), d) else 0)
  }

  /** What the scanner reports beside the counts. */
  datatype Issue = Gap(path: int, at: int) | IncompleteRange | MissingPartition(path: int)

  /** One issue for every nonempty partition that opens later than the one before it lets expect. */
  function CrossIssues(ps: seq<Partition>, d: Duration): seq<Issue> {
    if ps == [] then []
    else
      var rest, p := ps[..|ps| - 1], ps[|ps| - 1];
      var before := LastOf(rest);
      CrossIssues(rest, d) +
      (if p.count > 0 && p.first.Some? && before.Some? && p.first.value > before.value + d
       then [Gap(p.path, p.first.value)] else [])
  }

  function CoverageIssues(ps: seq<Partition>, d: Duration, range: Option<DataRange>): seq<Issue> {
    var c := GlobalCoverage(ps, d, range);
    CrossIssues(ps, d) + (if c.missingStart != 0 || c.missingEnd != 0 then [IncompleteRange] else [])
  }

  /** A nonempty partition carries its limits. */
  predicate Bounded(ps: seq<Partition>) {
    forall i :: 0 <= i < |ps| && ps[i].count > 0 ==> ps[i].first.Some? && ps[i].last.Some?
  }

  lemma {:induction false} NothingComposed(d: Duration)
    ensures FirstOf([]) == None && LastOf([]) == None && Observed([]) == 0
    ensures InternalGaps([]) == 0 && CrossGaps([], d) == 0 && CrossIssues([], d) == []
  {}

  lemma {:induction false} ComposedSnoc(ps: seq<Partition>, d: Duration)
    requires ps != []
    ensures var rest, p := ps[..|ps| - 1], ps[|ps| - 1];
      var before := LastOf(rest);
      var follows := p.count > 0 && p.first.Some? && before.Some?;
      && FirstOf(ps) == (if FirstOf(rest).Some? || p.count == 0 then FirstOf(rest) else p.first)
      && LastOf(ps) == (if p.count > 0 then p.last else before)
      && Observed(ps) == Observed(rest) + p.count && InternalGaps(ps) == InternalGaps(rest) + p.gaps
      && CrossGaps(ps, d) ==
           CrossGaps(rest, d) + (if follows then GapBetween(before.value, p.first.value, d) else 0)
      && CrossIssues(ps, d) == CrossIssues(rest, d) +
           (if follows && p.first.value > before.value + d then [Gap(p.path, p.first.value)] else [])
  {}

  /** One pass over the partitions, carrying the last open of the last nonempty one. It refuses a
      nonempty partition without limits. */
  method ComposeCoverage(ps: seq<Partition>, d: Duration, range: Option<DataRange>)
    returns (r: Option<CoverageSummary>, issues: seq<Issue>)
    ensures r == if Bounded(ps) then Some(GlobalCoverage(ps, d, range)) else None
    ensures r.Some? ==> issues == CoverageIssues(ps, d, range)
  {
    hide Expected, MissingStart, MissingEnd, FirstOf, LastOf, Observed, InternalGaps, CrossGaps, CrossIssues;
    NothingComposed(d);
    issues := [];
    var first, previousLast: Option<int> := None, None;
    var gaps, observed := 0, 0;
    var n := 0;
    while n < |ps|
      invariant 0 <= n <= |ps| && Bounded(ps[..n])
      invariant first == FirstOf(ps[..n]) && previousLast == LastOf(ps[..n])
      invariant observed == Observed(ps[..n])
      invariant gaps == InternalGaps(ps[..n]) + CrossGaps(ps[..n], d)
      invariant issues == CrossIssues(ps[..n], d)
    {
      var item := ps[n];
      assert ps[..n + 1][..n] == ps[..n];
      ComposedSnoc(ps[..n + 1], d);
      observed := observed + item.count;
      gaps := gaps + item.gaps;
      if item.count > 0 {
        if item.first.None? || item.last.None? {
          return None, [];
        }
        if first.None? {
          first := item.first;
        }
        if previousLast.Some? && item.first.value > previousLast.value + d {
          gaps := gaps + (item.first.value - previousLast.value) / d - 1;
          issues := issues + [Gap(item.path, item.first.value)];
        }
        previousLast := item.last;
      }
      n := n + 1;
    }
    assert ps[..n] == ps;
    var expected, missingStart, missingEnd := None, 0, 0;
    if range.Some? {
      expected := Some(Expected(range.value, d));
      missingStart := MissingStart(range.value, first, d);
      missingEnd := MissingEnd(range.value, previousLast, d);
      if missingStart != 0 || missingEnd != 0 {
        issues := issues + [IncompleteRange];
      }
    }
    r := Some(CoverageSummary(range, first, previousLast, expected, observed, gaps, missingStart, missingEnd));
  }

  /** A scan without coverage issues misses nothing between partitions or at the ends of its range. */
  lemma {:induction false} NoIssueNothingMissing(ps: seq<Partition>, d: Duration, range: Option<DataRange>)
    requires CoverageIssues(ps, d, range) == []
    ensures CrossGaps(ps, d) == 0
    ensures GlobalCoverage(ps, d, range).missingStart == 0 && GlobalCoverage(ps, d, range).missingEnd == 0
  {
    NoCrossIssueNoGap(ps, d);
  }

  lemma {:induction false} NoCrossIssueNoGap(ps: seq<Partition>, d: Duration)
    requires CrossIssues(ps, d) == []
    ensures CrossGaps(ps, d) == 0
  {
    if ps != [] { NoCrossIssueNoGap(ps[..|ps| - 1], d); }
  }

  /** All rows of a list of partitions, in order. */
  function Concat(parts: seq<seq<Row>>): seq<Row> {
    if parts == [] then [] else Concat(parts[..|parts| - 1]) + parts[|parts| - 1]
  }

  predicate Summaries(ps: seq<Partition>, parts: seq<seq<Row>>, d: Duration) {
    |ps| == |parts| && forall i :: 0 <= i < |ps| ==> Summarizes(ps[i], parts[i], d)
  }

  lemma {:induction false} GapsJoin(a: seq<Row>, b: seq<Row>, d: Duration)
    ensures GapCount(a + b, d) == GapCount(a, d) + GapCount(b, d)
      + (if a != [] && b != [] then GapBetween(a[|a| - 1].openTime, b[0].openTime, d) else 0)
    decreases |b|
  {
    if b == [] {
      assert a + b == a;
    } else {
      var rest := b[..|b| - 1];
      assert (a + b)[..|a + b| - 1] == a + rest;
      GapsJoin(a, rest, d);
      if rest == [] { assert a + rest == a; }
    }
  }

  /** Composing summaries loses nothing: internal plus cross-partition gaps are the gaps of the
      concatenated rows, empty partitions included, whatever the rows. */
  lemma {:induction false} SummariesCompose(ps: seq<Partition>, parts: seq<seq<Row>>, d: Duration)
    requires Summaries(ps, parts, d)
    ensures Bounded(ps)
    ensures InternalGaps(ps) + CrossGaps(ps, d) == GapCount(Concat(parts), d)
    ensures Observed(ps) == |Concat(parts)|
    ensures FirstOf(ps) == FirstOpen(Concat(parts)) && LastOf(ps) == LastOpen(Concat(parts))
  {
    if ps != [] {
      var n := |ps| - 1;
      SummariesCompose(ps[..n], parts[..n], d);
      assert Summarizes(ps[n], parts[n], d);
      GapsJoin(Concat(parts[..n]), parts[n], d);
    }
  }

  // Accounting for every slot of a range

  function Slot(k: int, d: Duration): int { k * d }

  /** The rows fill the slots `ks` of the grid that starts at `start`. */
  predicate OnSlots(rows: seq<Row>, ks: seq<int>, start: int, d: Duration) {
    && |rows| == |ks|
    && (forall i :: 0 <= i < |rows| ==> rows[i].openTime == start + Slot(ks[i], d))
    && (forall i :: 0 < i < |ks| ==> ks[i - 1] < ks[i])
  }

  lemma {:induction false} SlotsAscend(a: int, b: int, d: Duration)
    ensures a < b ==> Slot(a, d) + d <= Slot(b, d)
  {
    var steps := b - a - 1;
    assert Slot(b, d) == Slot(a, d) + d + steps * d;
    if steps >= 0 { assert steps * d >= 0; }
  }

  lemma {:induction false} SlotQuotient(k: int, d: Duration, r: int)
    requires 0 <= r < d
    ensures (Slot(k, d) + r) / d == k
  {
    var q := (Slot(k, d) + r) / d;
    assert Slot(q, d) <= Slot(k, d) + r < Slot(q, d) + d;
    SlotsAscend(q, k, d);
    SlotsAscend(k, q, d);
  }

  lemma {:induction false} SlotsApart(a: int, b: int, start: int, d: Duration)
    requires a < b
    ensures GapBetween(start + Slot(a, d), start + Slot(b, d), d) == b - a - 1
  {
    SlotQuotient(b - a, d, 0);
    assert Slot(b, d) - Slot(a, d) == Slot(b - a, d);
    SlotsAscend(1, b - a, d);
  }

  lemma {:induction false} GapsAreSkippedSlots(rows: seq<Row>, ks: seq<int>, start: int, d: Duration)
    requires OnSlots(rows, ks, start, d) && rows != []
    ensures GapCount(rows, d) == ks[|ks| - 1] - ks[0] - (|ks| - 1)
  {
    var n := |rows| - 1;
    if n > 0 {
      GapsAreSkippedSlots(rows[..n], ks[..n], start, d);
      SlotsApart(ks[n - 1], ks[n], start, d);
    }
  }

  /** The last row's slot ends inside the range. */
  predicate FitsRange(rows: seq<Row>, range: DataRange, d: Duration) {
    rows != [] ==> rows[|rows| - 1].openTime + d <= range.end
  }

  /** Observed candles, gaps and the missing ends together. */
  function AccountedSlots(rows: seq<Row>, range: DataRange, d: Duration): int {
    |rows| + GapCount(rows, d) + MissingStart(range, FirstOpen(rows), d) + MissingEnd(range, LastOpen(rows), d)
  }

  /** Every slot of a range is accounted for once: for strictly increasing rows on the range's grid,
      expected candles are observed plus gaps plus missing start plus missing end. It fails, by one,
      exactly when the last row opens in a final slot that the range cuts short. */
  lemma {:induction false} CoverageAccounts(rows: seq<Row>, ks: seq<int>, range: DataRange, d: Duration)
    requires OnSlots(rows, ks, range.start, d) && range.start <= range.end
    requires forall i :: 0 <= i < |rows| ==> range.start <= rows[i].openTime < range.end
    ensures AccountedSlots(rows, range, d) == Expected(range, d) + (if FitsRange(rows, range, d) then 0 else 1)
  {
    hide Slot, GapCount, Expected, MissingStart, MissingEnd;
    if rows == [] {
      NothingObserved(range, d);
    } else {
      GapsAreSkippedSlots(rows, ks, range.start, d);
      StartSlots(range, ks[0], d);
      EndSlots(range, ks[|ks| - 1], d);
    }
  }

  /** One row that opens in a range shorter than a candle is one candle more than expected. */
  lemma {:induction false} CutSlotIsOverCounted()
    ensures var rows, range := [Row(0, 0)], DataRange(0, 1);
      AccountedSlots(rows, range, 2) == 1 && Expected(range, 2) == 0
  {
    CoverageAccounts([Row(0, 0)], [0], DataRange(0, 1), 2);
  }

  lemma {:induction false} NothingObserved(range: DataRange, d: Duration)
    ensures GapCount([], d) == 0 && MissingStart(range, None, d) == Expected(range, d)
      && MissingEnd(range, None, d) == 0
  {}

  lemma {:induction false} WholeSlots(length: int, d: Duration)
    ensures length == Slot(length / d, d) + length % d && 0 <= length % d < d
  {}

  lemma {:induction false} StartSlots(range: DataRange, first: int, d: Duration)
    requires 0 <= Slot(first, d)
    ensures MissingStart(range, Some(range.start + Slot(first, d)), d) == first
  {
    SlotQuotient(first, d, 0);
    SlotsAscend(first, 0, d);
  }

  /** How many slots remain after slot `last`, when its row opens inside the range. */
  lemma {:induction false} EndSlots(range: DataRange, last: int, d: Duration)
    requires range.start <= range.start + Slot(last, d) < range.end
    ensures var open, whole := range.start + Slot(last, d), Expected(range, d);
      var left := MissingEnd(range, Some(open), d);
      if open + d <= range.end then left == whole - last - 1 else left == 0 && last == whole
  {
    hide Slot;
    var length := range.end - range.start;
    var whole, rest := length / d, length % d;
    WholeSlots(length, d);
    SlotsSubtract(whole, last, d);
    SlotQuotient(whole - last - 1, d, rest);
    SlotsAscend(whole, last, d);
    SlotsAscend(last, whole, d);
  }

  lemma {:induction false} SlotsSubtract(a: int, b: int, d: Duration)
    ensures Slot(a, d) - Slot(b, d) - d == Slot(a - b - 1, d)
  {}

  // What the issues say

  lemma {:induction false} CrossIssuesAreGaps(ps: seq<Partition>, d: Duration)
    ensures forall x :: x in CrossIssues(ps, d) ==> x.Gap?
  {
    if ps != [] { CrossIssuesAreGaps(ps[..|ps| - 1], d); }
  }

  /** Partition `i` opens later than the last nonempty one before it lets expect. */
  predicate OpensLate(ps: seq<Partition>, i: nat, d: Duration)
    requires i < |ps|
  {
    var before := LastOf(ps[..i]);
    ps[i].count > 0 && ps[i].first.Some? && before.Some? && ps[i].first.value > before.value + d
  }

  /** There is a gap issue for every partition that opens late, and no other. */
  lemma {:induction false} GapsAreReported(ps: seq<Partition>, d: Duration, x: Issue)
    ensures x in CrossIssues(ps, d) <==> exists i: nat :: i < |ps| && Reports(ps, i, d, x)
  {
    hide OpensLate, LastOf;
    if ps != [] {
      var n := |ps| - 1;
      var rest := ps[..n];
      GapsAreReported(rest, d, x);
      forall i: nat | i < n ensures Reports(rest, i, d, x) == Reports(ps, i, d, x) { EarlierOpensLate(ps, i, d); }
      LastReported(ps, d, x);
    }
  }

  /** Partition `i` opens late, and `x` says so. */
  predicate Reports(ps: seq<Partition>, i: nat, d: Duration, x: Issue)
    requires i < |ps|
  {
    OpensLate(ps, i, d) && ps[i].first.Some? && x == Gap(ps[i].path, ps[i].first.value)
  }

  lemma {:induction false} EarlierOpensLate(ps: seq<Partition>, i: nat, d: Duration)
    requires i < |ps| - 1
    ensures OpensLate(ps[..|ps| - 1], i, d) == OpensLate(ps, i, d)
  {
    assert ps[..|ps| - 1][..i] == ps[..i];
  }

  lemma {:induction false} LastReported(ps: seq<Partition>, d: Duration, x: Issue)
    requires ps != []
    ensures x in CrossIssues(ps, d) <==> x in CrossIssues(ps[..|ps| - 1], d) || Reports(ps, |ps| - 1, d, x)
  {
    hide LastOf;
  }

  /** The range is reported incomplete exactly when candles are missing at one of its ends. */
  lemma {:induction false} IncompleteIsReported(ps: seq<Partition>, d: Duration, range: Option<DataRange>)
    ensures IncompleteRange in CoverageIssues(ps, d, range) <==>
      GlobalCoverage(ps, d, range).missingStart != 0 || GlobalCoverage(ps, d, range).missingEnd != 0
  {
    CrossIssuesAreGaps(ps, d);
  }
}
