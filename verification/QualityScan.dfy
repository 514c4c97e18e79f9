/** FULL and INCREMENTAL quality scans: the incremental scan is a cache over the full one. */
module QualityScan {
  import opened Domain
  import opened CandleFeed
  import opened Coverage

  /** A partition file as the scanner finds it. */
  datatype Content = Readable(rows: seq<Row>) | SchemaCorrupt(raw: int) | ContentCorrupt(raw: int)

  predicate IsHex(d: char) { '0' <= d <= '9' || 'a' <= d <= 'f' }

  predicate IsSha(d: Digest) { |d| == 64 && forall i :: 0 <= i < |d| ==> IsHex(d[i]) }

  /** A SHA-256 digest in lower-case hexadecimal. */
  type Sha = d: Digest | IsSha(d) witness seq(64, _ => '0')

  const SCHEMA_ISSUE := 1
  const CONTENT_ISSUE := 2

  /** `months` are the paths the range is expected to have; a scan of the whole dataset expects none.
      Everything a scan of one dataset and scope depends on besides the files: the digests and the
      row audit are deterministic functions the model does not look into. */
  datatype Scanner = Scanner(
    identity: int, duration: Duration, range: Option<DataRange>, months: set<int>,
    checksum: Content -> Sha, logical: seq<Row> -> Sha,
    audit: seq<Row> -> seq<int>, compose: seq<(int, Digest)> -> Digest)

  type Files = map<int, Content>

  function InScope(rows: seq<Row>, range: Option<DataRange>): seq<Row> {
    if rows == [] || range.None? then rows
    else
      var last := rows[|rows| - 1];
      InScope(rows[..|rows| - 1], range) +
      (if range.value.start <= last.openTime < range.value.end then [last] else [])
  }

  function EmptyPartition(sc: Scanner, path: int, content: Content, issue: int): Partition {
    Partition(path, 0, None, None, sc.checksum(content), sc.logical([]), 0, [issue])
  }

  predicate OpensOnce(rows: seq<Row>) {
    forall i, j :: 0 <= i < j < |rows| ==> rows[i].openTime != rows[j].openTime
  }

  /** The logical checksum refuses rows that open twice; every other file can be summarized. */
  predicate Scannable(sc: Scanner, content: Content) {
    content.Readable? ==> OpensOnce(InScope(content.rows, sc.range))
  }

  function ScanFile(sc: Scanner, path: int, content: Content): Partition {
    match content
    case SchemaCorrupt(_) => EmptyPartition(sc, path, content, SCHEMA_ISSUE)
    case ContentCorrupt(_) => EmptyPartition(sc, path, content, CONTENT_ISSUE)
    case Readable(all) =>
      var rows := InScope(all, sc.range);
      Partition(path, |rows|, FirstOpen(rows), LastOpen(rows), sc.checksum(content), sc.logical(rows),
                GapCount(rows, sc.duration), sc.audit(rows))
  }

  method ScanPartition(sc: Scanner, path: int, content: Content) returns (p: Option<Partition>)
    ensures p == if Scannable(sc, content) then Some(ScanFile(sc, path, content)) else None
  {
    if content.SchemaCorrupt? {
      return Some(EmptyPartition(sc, path, content, SCHEMA_ISSUE));
    }
    if content.ContentCorrupt? {
      return Some(EmptyPartition(sc, path, content, CONTENT_ISSUE));
    }
    var rows := InScope(content.rows, sc.range);
    var gaps := CountGaps(rows, sc.duration);
    if !OpensOnce(rows) {
      return None;
    }
    p := Some(Partition(path, |rows|, FirstOpen(rows), LastOpen(rows), sc.checksum(content), sc.logical(rows),
                        gaps, sc.audit(rows)));
  }

  // Paths in order

  predicate Ascending(paths: seq<int>) { forall i, j :: 0 <= i < j < |paths| ==> paths[i] < paths[j] }

  lemma {:induction false} EmptyWithoutMembers(s: set<int>)
    ensures (forall y :: y !in s) ==> s == {}
  {
    if forall y :: y !in s { assert s == {}; }
  }

  predicate IsLeast(m: int, s: set<int>) { m in s && forall x :: x in s ==> m <= x }

  lemma {:induction false} HasLeast(s: set<int>)
    requires s != {}
    ensures exists m :: IsLeast(m, s)
  {
    EmptyWithoutMembers(s);
    var y: int :| y in s;
    var rest := s - {y};
    if rest == {} {
      assert s == {y};
      assert IsLeast(y, s);
    } else {
      HasLeast(rest);
      var m :| IsLeast(m, rest);
      assert forall x :: x in s ==> x == y || x in rest;
      assert IsLeast(if m <= y then m else y, s);
    }
  }

  function Least(s: set<int>): (m: int)
    requires s != {}
    ensures IsLeast(m, s)
  {
    HasLeast(s);
    var m :| IsLeast(m, s);
    m
  }

  function Sorted(s: set<int>): (r: seq<int>)
    ensures Ascending(r) && forall x :: x in r <==> x in s
  {
    if s == {} then [] else
      var m := Least(s);
      [m] + Sorted(s - {m})
  }

  function InOrder(results: map<int, Partition>): seq<Partition> {
    var paths := Sorted(results.Keys);
    seq(|paths|, i requires 0 <= i < |paths| => results[paths[i]])
  }

  // Reports and baselines

  datatype Report = Report(
    partitions: seq<Partition>, coverage: CoverageSummary, logical: Digest, issues: seq<Issue>)

  function LogicalChecksum(sc: Scanner, ps: seq<Partition>): Digest {
    sc.compose(seq(|ps|, i requires 0 <= i < |ps| => (ps[i].path, ps[i].logical)))
  }

  function Missing(paths: seq<int>): seq<Issue> {
    seq(|paths|, i requires 0 <= i < |paths| => MissingPartition(paths[i]))
  }

  /** The coverage issues, then the partitions removed since the baseline, then the missing months. */
  function GlobalIssues(sc: Scanner, results: map<int, Partition>, removed: set<int>): seq<Issue> {
    CoverageIssues(InOrder(results), sc.duration, sc.range)
    + Missing(Sorted(removed)) + Missing(Sorted(sc.months - results.Keys))
  }

  function ReportOf(sc: Scanner, results: map<int, Partition>, removed: set<int>): Report {
    var ps := InOrder(results);
    Report(ps, GlobalCoverage(ps, sc.duration, sc.range), LogicalChecksum(sc, ps), GlobalIssues(sc, results, removed))
  }

  function ScanAll(sc: Scanner, files: Files): map<int, Partition> { map p | p in files :: ScanFile(sc, p, files[p]) }

  const SCHEMA_VERSION := 2
  const SCANNER_VERSION := "phase2c-3"
  const RAW_ALGORITHM := 1

  /** What the catalog knows of the dataset. */
  datatype Metadata = Metadata(version: Digest, algorithm: nat)

  function VersionOf(metadata: Option<Metadata>): Digest { if metadata.Some? then metadata.value.version else "" }

  datatype Baseline = Baseline(
    identity: int, schemaVersion: nat, scannerVersion: string, range: Option<DataRange>,
    report: Report, version: Digest, algorithm: nat)

  function BaselineOf(sc: Scanner, report: Report, metadata: Option<Metadata>): Baseline {
    Baseline(sc.identity, SCHEMA_VERSION, SCANNER_VERSION, sc.range, report,
             VersionOf(metadata),
             if metadata.Some? then metadata.value.algorithm else RAW_ALGORITHM)
  }

  function Paths(ps: seq<Partition>): seq<int> { seq(|ps|, i requires 0 <= i < |ps| => ps[i].path) }

  predicate VersionFits(version: Digest) { |version| == 0 || |version| == 64 }

  predicate DigestsFit(ps: seq<Partition>) {
    forall i :: 0 <= i < |ps| ==> IsSha(ps[i].checksum) && IsSha(ps[i].logical)
  }

  /** What a supplied baseline is checked against before it is trusted. */
  predicate ValidBaseline(sc: Scanner, b: Baseline) {
    && b.identity == sc.identity && b.schemaVersion == SCHEMA_VERSION && b.scannerVersion == SCANNER_VERSION
    && b.range == sc.range && VersionFits(b.version)
    && Ascending(Paths(b.report.partitions))
    && DigestsFit(b.report.partitions)
    && LogicalChecksum(sc, b.report.partitions) == b.report.logical
    && Bounded(b.report.partitions)
    && b.report.coverage == GlobalCoverage(b.report.partitions, sc.duration, sc.range)
  }

  method ValidateBaseline(sc: Scanner, b: Baseline) returns (ok: bool)
    ensures ok <==> ValidBaseline(sc, b)
  {
    if b.identity != sc.identity || b.schemaVersion != SCHEMA_VERSION || b.scannerVersion != SCANNER_VERSION
      || b.range != sc.range || !VersionFits(b.version) {
      return false;
    }
    if !Ascending(Paths(b.report.partitions)) || !DigestsFit(b.report.partitions)
      || LogicalChecksum(sc, b.report.partitions) != b.report.logical {
      return false;
    }
    var expected, _ := ComposeCoverage(b.report.partitions, sc.duration, sc.range);
    ok := expected == Some(b.report.coverage);
  }

  // The incremental merge

  function ByPath(ps: seq<Partition>): map<int, Partition> {
    if ps == [] then map[] else ByPath(ps[..|ps| - 1])[ps[|ps| - 1].path := ps[|ps| - 1]]
  }

  /** Files that are new or whose physical checksum differs from the baseline's. */
  function Changed(sc: Scanner, files: Files, prior: map<int, Partition>): set<int> {
    set p | p in files && (p !in prior || prior[p].checksum != sc.checksum(files[p]))
  }

  function Removed(files: Files, prior: map<int, Partition>): set<int> { prior.Keys - files.Keys }

  /** Changed files scanned afresh, unchanged ones taken from the baseline. */
  function Merged(sc: Scanner, files: Files, prior: map<int, Partition>): map<int, Partition> {
    map p | p in files :: if p in Changed(sc, files, prior) then ScanFile(sc, p, files[p]) else prior[p]
  }

  /** When an incremental scan goes ahead. */
  predicate Resumable(sc: Scanner, files: Files, metadata: Option<Metadata>, baseline: Option<Baseline>) {
    && baseline.Some? && ValidBaseline(sc, baseline.value)
    && metadata.Some? && metadata.value.algorithm == RAW_ALGORITHM && baseline.value.algorithm == RAW_ALGORITHM
    && var prior := ByPath(baseline.value.report.partitions);
    && (Changed(sc, files, prior) == {} && Removed(files, prior) == {} ==>
      baseline.value.version == metadata.value.version)
  }

  datatype ScanMode = Full | Incremental(baseline: Option<Baseline>)

  datatype ScanOutcome = Scanned(report: Report, changed: seq<int>, baseline: Baseline) | Inconsistent

  predicate AllScannable(sc: Scanner, files: Files, due: set<int>) {
    forall p :: p in due && p in files ==> Scannable(sc, files[p])
  }

  /** Rescans the paths in `due` into `kept`, in path order. */
  method Rescan(sc: Scanner, files: Files, due: set<int>, kept: map<int, Partition>)
      returns (r: Option<map<int, Partition>>)
    requires due <= files.Keys
    ensures r.Some? <==> AllScannable(sc, files, due)
    ensures r.Some? ==>
      r.value == map p | p in kept.Keys + due :: if p in due then ScanFile(sc, p, files[p]) else kept[p]
  {
    hide ScanFile, Scannable, Sorted, Ascending;
    var results := kept;
    var order := Sorted(due);
    var n := 0;
    while n < |order|
      invariant 0 <= n <= |order|
      invariant forall p :: p in results <==> p in kept || p in order[..n]
      invariant forall p :: p in results ==>
        results[p] == if p in order[..n] then ScanFile(sc, p, files[p]) else kept[p]
      invariant forall p :: p in order[..n] ==> Scannable(sc, files[p])
    {
      var path := order[n];
      assert path in due;
      var scanned := ScanPartition(sc, path, files[path]);
      if scanned.None? {
        return None;
      }
      results := results[path := scanned.value];
      assert order[..n + 1] == order[..n] + [path];
      n := n + 1;
    }
    assert order[..n] == order;
    assert forall p :: p in results <==> p in kept || p in due;
    assert results.Keys == kept.Keys + due;
    assert forall p :: p in results ==> results[p] == if p in due then ScanFile(sc, p, files[p]) else kept[p];
    r := Some(results);
  }

  lemma {:induction false} ValidIsBounded(sc: Scanner, b: Baseline)
    requires ValidBaseline(sc, b)
    ensures Bounded(b.report.partitions)
  {}

  lemma {:induction false} ScannedIsBounded(sc: Scanner, path: int, content: Content)
    ensures var p := ScanFile(sc, path, content); p.count > 0 ==> p.first.Some? && p.last.Some?
  {}

  lemma {:induction false} ByPathHolds(ps: seq<Partition>, path: int)
    requires path in ByPath(ps)
    ensures exists i :: 0 <= i < |ps| && ps[i] == ByPath(ps)[path] && ps[i].path == path
  {
    var n := |ps| - 1;
    if ps[n].path != path {
      ByPathHolds(ps[..n], path);
      var i :| 0 <= i < n && ps[..n][i] == ByPath(ps[..n])[path] && ps[i].path == path;
      assert ps[i] == ByPath(ps)[path];
    }
  }

  lemma {:induction false} MergedIsBounded(sc: Scanner, files: Files, ps: seq<Partition>)
    requires Bounded(ps)
    ensures Bounded(InOrder(Merged(sc, files, ByPath(ps))))
  {
    var merged := Merged(sc, files, ByPath(ps));
    forall p | p in merged && merged[p].count > 0 ensures merged[p].first.Some? && merged[p].last.Some? {
      ScannedIsBounded(sc, p, files[p]);
      if p !in Changed(sc, files, ByPath(ps)) { ByPathHolds(ps, p); }
    }
  }

  method Scan(sc: Scanner, files: Files, metadata: Option<Metadata>, mode: ScanMode) returns (r: ScanOutcome)
    ensures mode.Full? ==> (r.Scanned? <==> AllScannable(sc, files, files.Keys))
    ensures mode.Full? && r.Scanned? ==> r.report == ReportOf(sc, ScanAll(sc, files), {})
    ensures mode.Incremental? ==>
      (r.Scanned? <==>
        && Resumable(sc, files, metadata, mode.baseline)
        && AllScannable(sc, files, Changed(sc, files, ByPath(mode.baseline.value.report.partitions))))
    ensures mode.Incremental? && r.Scanned? ==>
      var prior := ByPath(mode.baseline.value.report.partitions);
      r.report == ReportOf(sc, Merged(sc, files, prior), Removed(files, prior))
    ensures r.Scanned? ==> r.baseline == BaselineOf(sc, r.report, metadata)
  {
    hide ScanFile, Scannable, ValidBaseline, GlobalCoverage, Sorted;
    ghost var known: seq<Partition> := [];
    var prior: map<int, Partition> := map[];
    if mode.Incremental? {
      if mode.baseline.None? {
        return Inconsistent;
      }
      var valid := ValidateBaseline(sc, mode.baseline.value);
      if !valid || metadata.None? || metadata.value.algorithm != RAW_ALGORITHM
        || mode.baseline.value.algorithm != metadata.value.algorithm {
        return Inconsistent;
      }
      known := mode.baseline.value.report.partitions;
      assert Bounded(known) by { ValidIsBounded(sc, mode.baseline.value); }
      prior := ByPath(mode.baseline.value.report.partitions);
      if Changed(sc, files, prior) == {} && Removed(files, prior) == {}
        && mode.baseline.value.version != metadata.value.version {
        return Inconsistent;
      }
    }
    var changed, removed := Changed(sc, files, prior), Removed(files, prior);
    var rescanned := Rescan(sc, files, changed, prior - (changed + removed));
    if rescanned.None? {
      return Inconsistent;
    }
    var results := rescanned.value;
    assert results == Merged(sc, files, prior);
    assert mode.Full? ==> results == ScanAll(sc, files) && removed == {};
    var ps := InOrder(results);
    MergedIsBounded(sc, files, known);
    var coverage, issues := ComposeCoverage(ps, sc.duration, sc.range);
    issues := issues + Missing(Sorted(removed)) + Missing(Sorted(sc.months - results.Keys));
    var report := Report(ps, coverage.value, LogicalChecksum(sc, ps), issues);
    r := Scanned(report, Sorted(changed + removed), BaselineOf(sc, report, metadata));
  }

  // The incremental scan agrees with the full one

  predicate Keyed(results: map<int, Partition>) { forall p :: p in results ==> results[p].path == p }

  predicate HasPath(ps: seq<Partition>, p: int) { exists i :: 0 <= i < |ps| && ps[i].path == p }

  /** A keyed result map listed in path order: every entry once, at its own path. */
  predicate Lists(ps: seq<Partition>, results: map<int, Partition>) {
    && Ascending(Paths(ps))
    && (forall i :: 0 <= i < |ps| ==> ps[i].path in results && results[ps[i].path] == ps[i])
    && (forall p :: p in results ==> HasPath(ps, p))
  }

  lemma {:induction false} InOrderLists(results: map<int, Partition>)
    requires Keyed(results)
    ensures Lists(InOrder(results), results)
  {
    hide Sorted;
    var order, ps := Sorted(results.Keys), InOrder(results);
    forall i | 0 <= i < |ps| ensures ps[i].path == order[i] && order[i] in results {
      assert order[i] in order;
    }
    assert Paths(ps) == order;
    forall p | p in results ensures HasPath(ps, p) {
      assert p in order;
      var i :| 0 <= i < |order| && order[i] == p;
      assert ps[i].path == p;
    }
  }

  lemma {:induction false} ScanIsKeyed(sc: Scanner, files: Files)
    ensures Keyed(ScanAll(sc, files))
  {}

  /** The partitions of a list with distinct paths, by path. */
  lemma {:induction false} ByPathFinds(ps: seq<Partition>, i: nat)
    requires Ascending(Paths(ps)) && i < |ps|
    ensures ps[i].path in ByPath(ps) && ByPath(ps)[ps[i].path] == ps[i]
  {
    var n := |ps| - 1;
    if i < n {
      assert Paths(ps)[i] < Paths(ps)[n];
      assert Paths(ps[..n]) == Paths(ps)[..n];
      ByPathFinds(ps[..n], i);
    }
  }

  lemma {:induction false} ByPathInverts(ps: seq<Partition>, results: map<int, Partition>)
    requires Lists(ps, results)
    ensures ByPath(ps) == results
  {
    hide ByPath;
    forall p | p in results ensures p in ByPath(ps) && ByPath(ps)[p] == results[p] {
      assert HasPath(ps, p);
      var i :| 0 <= i < |ps| && ps[i].path == p;
      ByPathFinds(ps, i);
    }
    forall p | p in ByPath(ps) ensures p in results { ByPathHolds(ps, p); }
    assert ByPath(ps).Keys == results.Keys;
  }

  /** Equal physical checksums mean equal content, for the files two scans share. */
  predicate NoCollisions(sc: Scanner, earlier: Files, files: Files) {
    forall p :: p in earlier && p in files && sc.checksum(earlier[p]) == sc.checksum(files[p]) ==>
      earlier[p] == files[p]
  }

  lemma {:induction false} ScanKeepsChecksum(sc: Scanner, path: int, content: Content)
    ensures ScanFile(sc, path, content).checksum == sc.checksum(content)
  {}

  /** Merging with an earlier full scan reproduces a full scan of the current files. */
  lemma {:induction false} MergeIsScan(sc: Scanner, earlier: Files, files: Files)
    requires NoCollisions(sc, earlier, files)
    ensures Merged(sc, files, ScanAll(sc, earlier)) == ScanAll(sc, files)
    ensures Changed(sc, files, ScanAll(sc, earlier)) == set p | p in files && (p !in earlier || earlier[p] != files[p])
  {
    hide ScanFile;
    forall p | p in files && p in earlier ensures ScanAll(sc, earlier)[p].checksum == sc.checksum(earlier[p]) {
      ScanKeepsChecksum(sc, p, earlier[p]);
    }
  }

  /** A scan's own baseline passes the checks the next incremental scan makes of it, whatever that scan
      reported as removed, exactly when the catalog's version has a length it may have. */
  lemma {:induction false} ScanBaselineIsValid(sc: Scanner, files: Files, removed: set<int>, metadata: Option<Metadata>)
    ensures ValidBaseline(sc, BaselineOf(sc, ReportOf(sc, ScanAll(sc, files), removed), metadata)) <==>
      (metadata.None? || |metadata.value.version| == 0 || |metadata.value.version| == 64)
  {
    hide ScanFile, InOrder, IsSha, GlobalIssues;
    ScanIsKeyed(sc, files);
    InOrderLists(ScanAll(sc, files));
    var ps := InOrder(ScanAll(sc, files));
    forall i | 0 <= i < |ps|
      ensures IsSha(ps[i].checksum) && IsSha(ps[i].logical)
      ensures ps[i].count > 0 ==> ps[i].first.Some? && ps[i].last.Some?
    {
      ScannedIsBounded(sc, ps[i].path, files[ps[i].path]);
      ScanDigestsFit(sc, ps[i].path, files[ps[i].path]);
    }
  }

  lemma {:induction false} ScanDigestsFit(sc: Scanner, path: int, content: Content)
    ensures IsSha(ScanFile(sc, path, content).checksum) && IsSha(ScanFile(sc, path, content).logical)
  {
    hide IsSha, InScope, GapCount;
  }

  /** What a scan of these files left behind: a full scan, or an incremental one that saw `removed`
      partitions go. */
  function Left(sc: Scanner, files: Files, removed: set<int>, metadata: Option<Metadata>): Baseline {
    BaselineOf(sc, ReportOf(sc, ScanAll(sc, files), removed), metadata)
  }

  /** The incremental scan is a cache over the full scan. Given what any scan of any earlier files left
      behind, it reports exactly what a full scan of the current files reports, with one issue more for
      every partition removed since, and leaves the next scan as much. It trusts that baseline exactly
      when the version algorithm is the composable one throughout, the recorded version is empty or a
      digest's length, and unchanged files kept their version. It then returns exactly when the full
      scan would. */
  lemma {:induction false} IncrementalEqualsFull(sc: Scanner, earlier: Files, gone: set<int>, before: Option<Metadata>,
                                                 files: Files, metadata: Option<Metadata>)
    requires NoCollisions(sc, earlier, files)
    ensures
      var baseline := Left(sc, earlier, gone, before);
      var prior := ByPath(baseline.report.partitions);
      var removed := earlier.Keys - files.Keys;
      var incremental := ReportOf(sc, Merged(sc, files, prior), Removed(files, prior));
      var full := ReportOf(sc, ScanAll(sc, files), {});
      && incremental == full.(issues := GlobalIssues(sc, ScanAll(sc, files), removed))
      && (incremental == full <==> removed == {})
      && BaselineOf(sc, incremental, metadata) == Left(sc, files, removed, metadata)
      && (AllScannable(sc, earlier, earlier.Keys) ==>
            (AllScannable(sc, files, files.Keys) <==> AllScannable(sc, files, Changed(sc, files, prior))))
      && (Resumable(sc, files, metadata, Some(baseline)) <==>
            && metadata.Some? && metadata.value.algorithm == RAW_ALGORITHM && baseline.algorithm == RAW_ALGORITHM
            && (before.None? || |before.value.version| == 0 || |before.value.version| == 64)
            && (files == earlier ==> VersionOf(before) == metadata.value.version))
  {
    hide ScanFile, Scannable, InOrder, ValidBaseline, GlobalCoverage, LogicalChecksum, GlobalIssues, Sorted;
    ScanIsKeyed(sc, earlier);
    InOrderLists(ScanAll(sc, earlier));
    ByPathInverts(InOrder(ScanAll(sc, earlier)), ScanAll(sc, earlier));
    MergeIsScan(sc, earlier, files);
    ScanBaselineIsValid(sc, earlier, gone, before);
    SameFiles(sc, earlier, files);
    assert ScanAll(sc, earlier).Keys == earlier.Keys;
    RemovalsShow(sc, ScanAll(sc, files), earlier.Keys - files.Keys);
    UnchangedStayScannable(sc, earlier, files);
  }

  /** The dataset at the time of one scan. */
  datatype Moment = Moment(files: Files, metadata: Option<Metadata>)

  /** The baseline after a full scan at the first moment and an incremental one at each later moment. */
  function AfterScans(sc: Scanner, history: seq<Moment>): Baseline
    requires history != []
  {
    var now := history[|history| - 1];
    if |history| == 1 then Left(sc, now.files, {}, now.metadata)
    else
      var prior := ByPath(AfterScans(sc, history[..|history| - 1]).report.partitions);
      BaselineOf(sc, ReportOf(sc, Merged(sc, now.files, prior), Removed(now.files, prior)), now.metadata)
  }

  /** However many incremental scans followed each other, the last one leaves what a full scan of the
      last files would, but for the partitions removed since the scan before it. */
  lemma {:induction false} ManyScansEqualOne(sc: Scanner, history: seq<Moment>)
    requires history != []
    requires forall i :: 0 < i < |history| ==> NoCollisions(sc, history[i - 1].files, history[i].files)
    ensures var n := |history| - 1;
      AfterScans(sc, history) ==
        Left(sc, history[n].files, if n == 0 then {} else history[n - 1].files.Keys - history[n].files.Keys,
             history[n].metadata)
  {
    hide Merged, Removed, ReportOf, ScanAll, ByPath, Resumable, AllScannable;
    var n := |history| - 1;
    if n > 0 {
      var rest := history[..n];
      ManyScansEqualOne(sc, rest);
      var gone := if n == 1 then {} else history[n - 2].files.Keys - history[n - 1].files.Keys;
      IncrementalEqualsFull(sc, history[n - 1].files, gone, history[n - 1].metadata, history[n].files,
                            history[n].metadata);
    }
  }

  lemma {:induction false} UnchangedStayScannable(sc: Scanner, earlier: Files, files: Files)
    requires NoCollisions(sc, earlier, files)
    ensures AllScannable(sc, earlier, earlier.Keys) ==>
      (AllScannable(sc, files, files.Keys) <==> AllScannable(sc, files, Changed(sc, files, ScanAll(sc, earlier))))
  {
    hide ScanFile, Scannable;
    MergeIsScan(sc, earlier, files);
    var changed := Changed(sc, files, ScanAll(sc, earlier));
    assert forall p :: p in files && p !in changed ==> p in earlier && earlier[p] == files[p];
  }

  /** Reporting removed partitions changes the issues, unless there are none. */
  lemma {:induction false} RemovalsShow(sc: Scanner, results: map<int, Partition>, removed: set<int>)
    ensures GlobalIssues(sc, results, removed) == GlobalIssues(sc, results, {}) <==> removed == {}
  {
    if removed != {} {
      assert Least(removed) in Sorted(removed);
      assert |GlobalIssues(sc, results, removed)| > |GlobalIssues(sc, results, {})|;
    }
  }

  lemma {:induction false} SameFiles(sc: Scanner, earlier: Files, files: Files)
    requires NoCollisions(sc, earlier, files)
    ensures var prior := ScanAll(sc, earlier);
      Changed(sc, files, prior) == {} && Removed(files, prior) == {} <==> files == earlier
  {
    hide ScanFile;
    MergeIsScan(sc, earlier, files);
    var prior := ScanAll(sc, earlier);
    assert prior.Keys == earlier.Keys;
    if Changed(sc, files, prior) == {} && Removed(files, prior) == {} {
      forall p | p in files ensures p in earlier && earlier[p] == files[p] {
        assert p !in Changed(sc, files, prior);
      }
      forall p | p in earlier ensures p in files { assert p !in Removed(files, prior); }
      assert files.Keys == earlier.Keys;
    }
  }

  // What a scan looks at and what it reports

  /** A scan of a range looks at exactly the rows that open inside it, end excluded, and a scan without one
      at all of them. */
  lemma {:induction false} ScopeIsTheRange(rows: seq<Row>, range: Option<DataRange>, row: Row)
    ensures row in InScope(rows, range) <==>
      row in rows && (range.Some? ==> range.value.start <= row.openTime && row.openTime < range.value.end)
  {
    if rows != [] && range.Some? {
      ScopeIsTheRange(rows[..|rows| - 1], range, row);
      assert rows == rows[..|rows| - 1] + [rows[|rows| - 1]];
    }
  }

  /** A partition is reported missing exactly when it was removed since the baseline or its month is one the
      range expects and no file has. */
  lemma {:induction false} MissingIsReported(sc: Scanner, results: map<int, Partition>, removed: set<int>, p: int)
    ensures MissingPartition(p) in GlobalIssues(sc, results, removed) <==>
      p in removed || (p in sc.months && p !in results)
  {
    MissingLists(Sorted(removed), p);
    MissingLists(Sorted(sc.months - results.Keys), p);
    CoverageMissesNoMonth(InOrder(results), sc.duration, sc.range, p);
  }

  lemma {:induction false} MissingLists(paths: seq<int>, p: int)
    ensures MissingPartition(p) in Missing(paths) <==> p in paths
  {
    if p in paths {
      var i :| 0 <= i < |paths| && paths[i] == p;
      assert Missing(paths)[i] == MissingPartition(p);
    }
  }

  lemma {:induction false} CoverageMissesNoMonth(ps: seq<Partition>, d: Duration, range: Option<DataRange>, p: int)
    ensures MissingPartition(p) !in CoverageIssues(ps, d, range)
  {
    CrossIssuesAreGaps(ps, d);
  }

  /** A trusted baseline belongs to this dataset and scope, and its partitions are in order with digests of
      64 lower-case hexadecimal digits. */
  lemma {:induction false} TrustedBaselineMeans(sc: Scanner, b: Baseline, i: nat)
    requires ValidBaseline(sc, b) && i < |b.report.partitions|
    ensures b.identity == sc.identity && b.range == sc.range && (|b.version| == 0 || |b.version| == 64)
    ensures var p := b.report.partitions[i];
      && |p.checksum| == |p.logical| == 64
      && (forall k :: 0 <= k < 64 ==> p.checksum[k] in "0123456789abcdef" && p.logical[k] in "0123456789abcdef")
      && (p.count > 0 ==> p.first.Some? && p.last.Some?)
      && (i > 0 ==> b.report.partitions[i - 1].path < p.path)
  {
    hide GlobalCoverage, LogicalChecksum;
    var ps := b.report.partitions;
    assert IsSha(ps[i].checksum) && IsSha(ps[i].logical);
    if i > 0 { assert Paths(ps)[i - 1] < Paths(ps)[i]; }
    forall k | 0 <= k < 64 ensures ps[i].checksum[k] in "0123456789abcdef" && ps[i].logical[k] in "0123456789abcdef" {
      HexDigits(ps[i].checksum[k]);
      HexDigits(ps[i].logical[k]);
    }
  }

  lemma {:induction false} HexDigits(d: char)
    requires IsHex(d)
    ensures d in "0123456789abcdef"
  {
    var digits := "0123456789abcdef";
    if d <= '9' {
      assert digits[d as int - '0' as int] == d;
    } else {
      assert digits[d as int - 'a' as int + 10] == d;
    }
  }

  ghost predicate Injective(compose: seq<(int, Digest)> -> Digest) {
    forall x, y :: compose(x) == compose(y) ==> x == y
  }

  /** The same months with the same logical checksums. */
  predicate SameContent(a: seq<Partition>, b: seq<Partition>) {
    |a| == |b| && forall i :: 0 <= i < |a| ==> a[i].path == b[i].path && a[i].logical == b[i].logical
  }

  /** The composed checksum depends on the months and their rows, not on how files are stored, and without
      collisions it decides them. */
  lemma {:induction false} ContentDecidesDigest(sc: Scanner, a: seq<Partition>, b: seq<Partition>)
    ensures SameContent(a, b) ==> LogicalChecksum(sc, a) == LogicalChecksum(sc, b)
    ensures Injective(sc.compose) && LogicalChecksum(sc, a) == LogicalChecksum(sc, b) ==> SameContent(a, b)
  {
    var x := seq(|a|, i requires 0 <= i < |a| => (a[i].path, a[i].logical));
    var y := seq(|b|, i requires 0 <= i < |b| => (b[i].path, b[i].logical));
    if SameContent(a, b) { assert x == y; }
    if x == y {
      forall i | 0 <= i < |a| ensures a[i].path == b[i].path && a[i].logical == b[i].logical {
        assert x[i] == (a[i].path, a[i].logical) && y[i] == (b[i].path, b[i].logical);
      }
    }
  }

  /** The rows a scan finds in a file: none in a corrupt one. */
  function RowsOf(sc: Scanner, content: Content): seq<Row> {
    if content.Readable? then InScope(content.rows, sc.range) else []
  }

  function AllRows(sc: Scanner, files: Files): seq<seq<Row>> {
    var paths := Sorted(files.Keys);
    seq(|paths|, i requires 0 <= i < |paths| => RowsOf(sc, files[paths[i]]))
  }

  /** A file is summarized by its rows, and a corrupt one carries one issue and the checksum of no rows. */
  lemma {:induction false} FilesAreSummarized(sc: Scanner, path: int, content: Content)
    ensures var p := ScanFile(sc, path, content);
      && Summarizes(p, RowsOf(sc, content), sc.duration)
      && p.path == path && p.checksum == sc.checksum(content) && p.logical == sc.logical(RowsOf(sc, content))
      && (if content.Readable? then p.issues == sc.audit(RowsOf(sc, content)) else |p.issues| == 1)
  {
    hide InScope;
  }

  /** The coverage of a full scan is that of all rows in scope, file after file in the order of their months. */
  lemma {:induction false} FullScanCoversRows(sc: Scanner, files: Files, removed: set<int>)
    ensures var c, rows := ReportOf(sc, ScanAll(sc, files), removed).coverage, Concat(AllRows(sc, files));
      && c.observed == |rows| && c.gaps == GapCount(rows, sc.duration)
      && c.first == FirstOpen(rows) && c.last == LastOpen(rows)
  {
    hide ScanFile, Sorted, RowsOf, Summarizes, GapCount, Concat, InternalGaps, CrossGaps, Observed, FirstOf, LastOf;
    var ps, parts := InOrder(ScanAll(sc, files)), AllRows(sc, files);
    assert ScanAll(sc, files).Keys == files.Keys;
    forall i | 0 <= i < |ps| ensures Summarizes(ps[i], parts[i], sc.duration) {
      var path := Sorted(files.Keys)[i];
      assert path in Sorted(files.Keys);
      FilesAreSummarized(sc, path, files[path]);
    }
    SummariesCompose(ps, parts, sc.duration);
  }
}
