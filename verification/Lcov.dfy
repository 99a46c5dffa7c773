/**
Coverage reports: the Bun tier's rows cut to the line model of the vitest tier, and many reports merged into one total.
A report is its lines, read as tokens.
*/
module Lcov {
  import opened Prelude

  /** What a row counts: a line by number, or a branch by its line, block and branch text. */
  datatype Key = Line(n: int) | Branch(text: string)

  datatype Token =
    | SF(path: string)
    | Row(key: Key, hits: int)
    | LF(n: nat)
    | LH(n: nat)
    | Other(text: string)
    | EndOfRecord

  type Report = seq<Token>

  /** The file a row would belong to after `r`, read from a point where that file is `f`. */
  function FileAfter(f: Option<string>, r: Report): Option<string> {
    if r == [] then f else
      var last := r[|r| - 1];
      if last.SF? then Some(last.path) else FileAfter(f, r[..|r| - 1])
  }

  datatype Cell = Cell(file: string, key: Key)

  /** The rows of `r`, read from a point where the file is `f`, or those of them that were hit. */
  function Rows(f: Option<string>, r: Report, hit: bool): set<Cell> {
    if r == [] then {} else
      var before, last := r[..|r| - 1], r[|r| - 1];
      var at := FileAfter(f, before);
      Rows(f, before, hit) + if last.Row? && at.Some? && (hit ==> last.hits > 0) then {Cell(at.value, last.key)} else {}
  }

  function Files(r: Report): set<string> { set i | 0 <= i < |r| && r[i].SF? :: r[i].path }

  lemma FilesMore(r: Report)
    requires r != []
    ensures var last := r[|r| - 1]; Files(r) == Files(r[..|r| - 1]) + if last.SF? then {last.path} else {}
  {
    assert r == r[..|r| - 1] + [r[|r| - 1]];
  }

  lemma {:induction false} FileNamed(f: Option<string>, r: Report)
    ensures FileAfter(f, r) == f || (FileAfter(f, r).Some? && FileAfter(f, r).value in Files(r))
    ensures Files(r) == {} ==> FileAfter(f, r) == f
    ensures FileAfter(f, r) == None <==> f == None && Files(r) == {}
  {
    if r != [] {
      FilesMore(r);
      FileNamed(f, r[..|r| - 1]);
      hide Files;
    }
  }

  /** Every row belongs to a file named before it, there or in `r`. */
  lemma {:induction false} RowsNamed(f: Option<string>, r: Report, c: Cell, hit: bool)
    requires c in Rows(f, r, hit)
    ensures c.file in Files(r) || f == Some(c.file)
    ensures c in Rows(f, r, false)
  {
    var before := r[..|r| - 1];
    FilesMore(r);
    hide Files;
    if c in Rows(f, before, hit) { RowsNamed(f, before, c, hit); } else { FileNamed(f, before); }
  }

  lemma {:induction false} AppendReads(f: Option<string>, a: Report, b: Report, hit: bool)
    ensures FileAfter(f, a + b) == FileAfter(FileAfter(f, a), b)
    ensures Rows(f, a + b, hit) == Rows(f, a, hit) + Rows(FileAfter(f, a), b, hit)
  {
    if b == [] {
      assert a + b == a;
    } else {
      var n := |b| - 1;
      assert (a + b)[..|a + b| - 1] == a + b[..n];
      AppendReads(f, a, b[..n], hit);
    }
  }

  /** Rows before the first file name are all that the starting file decides. */
  lemma {:induction false} StrayRows(r: Report, c: Cell, hit: bool)
    ensures FileAfter(Some(""), r) == if FileAfter(None, r) == None then Some("") else FileAfter(None, r)
    ensures c in Rows(None, r, hit) ==> c in Rows(Some(""), r, hit)
    ensures c.file != "" ==> (c in Rows(None, r, hit) <==> c in Rows(Some(""), r, hit))
  {
    if r != [] { StrayRows(r[..|r| - 1], c, hit); }
  }

  /** No row comes before the first file is named. */
  predicate Anchored(r: Report) {
    forall i :: 0 <= i < |r| && r[i].Row? ==> FileAfter(None, r[..i]).Some?
  }

  lemma {:induction false} AnchoredReads(f: Option<string>, r: Report, hit: bool)
    requires Anchored(r)
    ensures Rows(f, r, hit) == Rows(None, r, hit)
    ensures FileAfter(None, r).Some? ==> FileAfter(f, r) == FileAfter(None, r)
  {
    if r != [] {
      var n := |r| - 1;
      assert forall i :: 0 <= i < n ==> r[..n][..i] == r[..i];
      AnchoredReads(f, r[..n], hit);
    }
  }

  // ----------------------------------------------------------- the merged total

  type Counts = map<string, map<Key, int>>

  /** The counters hold exactly these rows, and are positive exactly on those hit. */
  ghost predicate Tallies(c: Counts, rows: set<Cell>, hits: set<Cell>) {
    && (forall f, k :: f in c && k in c[f] <==> Cell(f, k) in rows)
    && (forall f, k :: f in c && k in c[f] ==> (c[f][k] > 0 <==> Cell(f, k) in hits))
  }

  function Seen(c: Counts, f: string): Counts { if f in c then c else c[f := map[]] }

  /** A row of a file not seen yet is dropped; a row seen before keeps the larger count. */
  function Bumped(c: Counts, f: string, k: Key, hits: int): Counts {
    if f !in c then c else
      c[f := c[f][k := Max(if k in c[f] then c[f][k] else 0, hits)]]
  }

  lemma BumpTallies(c: Counts, rows: set<Cell>, hits: set<Cell>, f: string, k: Key, n: int)
    requires Tallies(c, rows, hits) && f in c && hits <= rows
    ensures Tallies(Bumped(c, f, k, n), rows + {Cell(f, k)}, if n > 0 then hits + {Cell(f, k)} else hits)
  {}

  function OfKind(cells: set<Cell>, lines: bool): set<Cell> { set c <- cells | c.key.Line? == lines }

  datatype Part = Part(covered: nat, relevant: nat)
  datatype Stats = Stats(lines: Part, branches: Part)

  function Struck(m: map<Key, int>, without: set<Key>): set<Key> { set k <- m | k !in without && m[k] > 0 }

  lemma StruckMore(m: map<Key, int>, without: set<Key>, k: Key)
    requires k in m && k in without
    ensures k !in Struck(m, without)
    ensures Struck(m, without - {k}) == if m[k] > 0 then Struck(m, without) + {k} else Struck(m, without)
  {}

  /** The inner counting loop: one file's rows. */
  method CountFile(m: map<Key, int>) returns (covered: nat, relevant: nat)
    ensures relevant == |m.Keys| && covered == |Struck(m, {})|
  {
    covered, relevant := 0, 0;
    var keys := m.Keys;
    ghost var struck: set<Key> := Struck(m, keys);
    assert struck == {};
    hide Struck;
    while keys != {}
      invariant keys <= m.Keys && relevant == |m.Keys - keys| && covered == |struck|
      invariant struck == Struck(m, keys)
      decreases |keys|
    {
      var k :| k in keys;
      assert m.Keys - (keys - {k}) == (m.Keys - keys) + {k};
      StruckMore(m, keys, k);
      relevant := relevant + 1;
      if m[k] > 0 { covered := covered + 1; }
      keys := keys - {k};
      struck := Struck(m, keys);
    }
    assert m.Keys - keys == m.Keys;
  }

  /** A file's cells are as many as its keys. */
  lemma {:induction false} CellsOf(f: string, keys: set<Key>)
    ensures |set k <- keys :: Cell(f, k)| == |keys|
  {
    var cells := set k <- keys :: Cell(f, k);
    if keys != {} {
      var k :| k in keys;
      var rest := set j <- keys - {k} :: Cell(f, j);
      CellsOf(f, keys - {k});
      assert cells == rest + {Cell(f, k)} by {
        forall c | c in cells ensures c in rest || c == Cell(f, k) {}
        assert Cell(f, k) in cells;
      }
    }
  }

  /** The counting loops over one of the two maps. */
  method CountUp(c: Counts, ghost rows: set<Cell>, ghost hits: set<Cell>) returns (p: Part)
    requires Tallies(c, rows, hits) && hits <= rows
    ensures p == Part(|hits|, |rows|)
  {
    assert forall cell <- rows :: cell == Cell(cell.file, cell.key) && cell.file in c;
    hide Tallies, Struck;
    var covered, relevant := 0, 0;
    var files := c.Keys;
    ghost var counted: set<Cell>, struck: set<Cell> := {}, {};
    while files != {}
      invariant files <= c.Keys && relevant == |counted| && covered == |struck|
      invariant forall cell :: cell in counted <==> cell in rows && cell.file !in files
      invariant forall cell :: cell in struck <==> cell in hits && cell.file !in files
      decreases |files|
    {
      var f :| f in files;
      var hit, all := CountFile(c[f]);
      ghost var keys, live := c[f].Keys, Struck(c[f], {});
      CellsOf(f, keys);
      CellsOf(f, live);
      covered, relevant := covered + hit, relevant + all;
      ghost var more, struckMore := set k <- keys :: Cell(f, k), set k <- live :: Cell(f, k);
      FileCells(c, rows, hits, f, more, struckMore);
      assert counted !! more && struck !! struckMore;
      counted, struck := counted + more, struck + struckMore;
      files := files - {f};
    }
    assert counted == rows && struck == hits;
    p := Part(covered, relevant);
  }

  lemma FileCells(c: Counts, rows: set<Cell>, hits: set<Cell>, f: string, all: set<Cell>, hit: set<Cell>)
    requires Tallies(c, rows, hits) && hits <= rows && f in c
    requires all == (set k <- c[f].Keys :: Cell(f, k)) && hit == (set k <- Struck(c[f], {}) :: Cell(f, k))
    ensures forall cell :: cell in all <==> cell in rows && cell.file == f
    ensures forall cell :: cell in hit <==> cell in hits && cell.file == f
  {
    forall cell | cell in rows && cell.file == f ensures cell in all {
      assert cell == Cell(f, cell.key);
    }
    forall cell | cell in hits && cell.file == f ensures cell in hit {
      assert cell == Cell(f, cell.key);
    }
  }

  /** Where a reading stands: the file named last, and both maps. */
  datatype Scan = Scan(sf: string, lines: Counts, branches: Counts)

  function Step(st: Scan, t: Token): Scan {
    match t
    case SF(path) => Scan(path, Seen(st.lines, path), Seen(st.branches, path))
    case Row(Line(_), hits) => st.(lines := Bumped(st.lines, st.sf, t.key, hits))
    case Row(Branch(_), hits) => st.(branches := Bumped(st.branches, st.sf, t.key, hits))
    case _ => st
  }

  function ScanReport(st: Scan, r: Report): Scan {
    if r == [] then st.(sf := "") else Step(ScanReport(st, r[..|r| - 1]), r[|r| - 1])
  }

  function ScanAll(reports: seq<Report>): Scan {
    if reports == [] then Scan("", map[], map[])
    else ScanReport(ScanAll(reports[..|reports| - 1]), reports[|reports| - 1])
  }

  function Cells(c: Counts, hit: bool): set<Cell> {
    set f, k | f in c && k in c[f] && (hit ==> c[f][k] > 0) :: Cell(f, k)
  }

  function StatsOf(reports: seq<Report>): Stats {
    var st := ScanAll(reports);
    Stats(Part(|Cells(st.lines, true)|, |Cells(st.lines, false)|),
          Part(|Cells(st.branches, true)|, |Cells(st.branches, false)|))
  }

  /** `combinedCoverageStats`, the percentage aside. */
  method CombinedCoverageStats(reports: seq<Report>) returns (stats: Stats)
    ensures stats == StatsOf(reports)
  {
    var lineHits: Counts, branchTaken: Counts := map[], map[];
    ghost var sf0 := "";
    for t := 0 to |reports|
      invariant Scan(sf0, lineHits, branchTaken) == ScanAll(reports[..t])
    {
      var text, sf := reports[t], "";
      ghost var st := ScanAll(reports[..t]);
      for i := 0 to |text|
        invariant Scan(sf, lineHits, branchTaken) == ScanReport(st, text[..i])
      {
        assert text[..i + 1][..i] == text[..i];
        match text[i]
        case SF(path) =>
          sf := path;
          if sf !in lineHits { lineHits := lineHits[sf := map[]]; }
          if sf !in branchTaken { branchTaken := branchTaken[sf := map[]]; }
        case Row(Line(n), hits) =>
          if sf in lineHits {
            var m := lineHits[sf];
            lineHits := lineHits[sf := m[Line(n) := Max(if Line(n) in m then m[Line(n)] else 0, hits)]];
          }
        case Row(Branch(id), taken) =>
          if sf in branchTaken {
            var m := branchTaken[sf];
            branchTaken := branchTaken[sf := m[Branch(id) := Max(if Branch(id) in m then m[Branch(id)] else 0, taken)]];
          }
        case _ =>
      }
      sf0 := sf;
      assert text[..|text|] == text && reports[..t + 1][..t] == reports[..t];
    }
    assert reports[..|reports|] == reports;
    var lines := CountUp(lineHits, Cells(lineHits, false), Cells(lineHits, true));
    var branches := CountUp(branchTaken, Cells(branchTaken, false), Cells(branchTaken, true));
    stats := Stats(lines, branches);
  }

  // ------------------------------------------- the total is the set of the rows

  predicate NamesEmpty(reports: seq<Report>) { exists r <- reports :: "" in Files(r) }

  /** The rows the total counts: a report begins under the empty path once an earlier one has named it. */
  function Counted(reports: seq<Report>, hit: bool): set<Cell> {
    if reports == [] then {} else
      var before, last := reports[..|reports| - 1], reports[|reports| - 1];
      Counted(before, hit) + Rows(if NamesEmpty(before) then Some("") else None, last, hit)
  }

  ghost predicate ScanTallies(st: Scan, rows: set<Cell>, hits: set<Cell>) {
    && hits <= rows
    && Tallies(st.lines, OfKind(rows, true), OfKind(hits, true))
    && Tallies(st.branches, OfKind(rows, false), OfKind(hits, false))
  }

  lemma SeenTallies(c: Counts, rows: set<Cell>, hits: set<Cell>, f: string)
    requires Tallies(c, rows, hits)
    ensures Tallies(Seen(c, f), rows, hits)
  {}

  lemma OfKindMore(cells: set<Cell>, c: Cell, lines: bool)
    ensures OfKind(cells + {c}, lines)
         == if c.key.Line? == lines then OfKind(cells, lines) + {c} else OfKind(cells, lines)
  {}

  lemma StepTallies(st: Scan, rows: set<Cell>, hits: set<Cell>, t: Token)
    requires ScanTallies(st, rows, hits) && st.lines.Keys == st.branches.Keys
    ensures var counts := t.Row? && st.sf in st.lines;
      ScanTallies(Step(st, t), if counts then rows + {Cell(st.sf, t.key)} else rows,
                  if counts && t.hits > 0 then hits + {Cell(st.sf, t.key)} else hits)
  {
    assert forall lines: bool :: OfKind(hits, lines) <= OfKind(rows, lines);
    hide Tallies, OfKind;
    if t.SF? {
      SeenTallies(st.lines, OfKind(rows, true), OfKind(hits, true), t.path);
      SeenTallies(st.branches, OfKind(rows, false), OfKind(hits, false), t.path);
    } else if t.Row? && st.sf in st.lines {
      var c := Cell(st.sf, t.key);
      OfKindMore(rows, c, true);
      OfKindMore(rows, c, false);
      OfKindMore(hits, c, true);
      OfKindMore(hits, c, false);
      if t.key.Line? {
        BumpTallies(st.lines, OfKind(rows, true), OfKind(hits, true), st.sf, t.key, t.hits);
      } else {
        BumpTallies(st.branches, OfKind(rows, false), OfKind(hits, false), st.sf, t.key, t.hits);
      }
      hide Bumped;
    }
  }

  lemma StepKeys(st: Scan, t: Token)
    requires st.lines.Keys == st.branches.Keys
    ensures var keys := st.lines.Keys + if t.SF? then {t.path} else {};
      Step(st, t).lines.Keys == keys == Step(st, t).branches.Keys
  {}

  /** The files seen after a report. */
  lemma {:induction false} ReportKeys(st: Scan, r: Report)
    requires st.lines.Keys == st.branches.Keys
    ensures ScanReport(st, r).lines.Keys == ScanReport(st, r).branches.Keys == st.lines.Keys + Files(r)
  {
    assert Files([]) == {};
    hide Files;
    if r != [] {
      ReportKeys(st, r[..|r| - 1]);
      FilesMore(r);
      StepKeys(ScanReport(st, r[..|r| - 1]), r[|r| - 1]);
      hide Step;
    }
  }

  /** ... and the file named last. */
  lemma {:induction false} ReportFile(st: Scan, r: Report)
    requires st.lines.Keys == st.branches.Keys
    ensures var (st', at) := (ScanReport(st, r), FileAfter(if "" in st.lines then Some("") else None, r));
      if at == None then st'.sf == "" && "" !in st'.lines else st'.sf == at.value && st'.sf in st'.lines
  {
    if r != [] {
      ReportFile(st, r[..|r| - 1]);
      ReportKeys(st, r[..|r| - 1]);
      StepKeys(ScanReport(st, r[..|r| - 1]), r[|r| - 1]);
      hide Files, Bumped, Seen;
    }
  }

  lemma {:induction false} ReportTallies(st: Scan, rows: set<Cell>, hits: set<Cell>, r: Report)
    requires ScanTallies(st, rows, hits) && st.lines.Keys == st.branches.Keys
    ensures var f := if "" in st.lines then Some("") else None;
      ScanTallies(ScanReport(st, r), rows + Rows(f, r, false), hits + Rows(f, r, true))
  {
    assert ScanTallies(st.(sf := ""), rows, hits);
    hide ScanTallies, Files;
    var f := if "" in st.lines then Some("") else None;
    if r == [] {
      assert rows + {} == rows && hits + {} == hits;
    } else {
      var before, t := r[..|r| - 1], r[|r| - 1];
      ReportTallies(st, rows, hits, before);
      ReportKeys(st, before);
      ReportFile(st, before);
      StepTallies(ScanReport(st, before), rows + Rows(f, before, false), hits + Rows(f, before, true), t);
      ReportAdds(rows, f, r, false);
      ReportAdds(hits, f, r, true);
    }
  }

  lemma ReportAdds(cells: set<Cell>, f: Option<string>, r: Report, hit: bool)
    requires r != []
    ensures var (before, t) := (r[..|r| - 1], r[|r| - 1]);
      var at := FileAfter(f, before);
      cells + Rows(f, r, hit) == if t.Row? && at.Some? && (hit ==> t.hits > 0)
        then cells + Rows(f, before, hit) + {Cell(at.value, t.key)} else cells + Rows(f, before, hit)
  {}

  lemma {:induction false} AllTally(reports: seq<Report>)
    ensures var st := ScanAll(reports);
      && ScanTallies(st, Counted(reports, false), Counted(reports, true))
      && st.lines.Keys == st.branches.Keys && ("" in st.lines <==> NamesEmpty(reports))
  {
    if reports != [] {
      hide ScanTallies, Files, Rows, NamesEmpty;
      var before, last := reports[..|reports| - 1], reports[|reports| - 1];
      AllTally(before);
      ReportTallies(ScanAll(before), Counted(before, false), Counted(before, true), last);
      ReportKeys(ScanAll(before), last);
      NamesMore(reports);
    } else {
      assert ScanTallies(Scan("", map[], map[]), {}, {});
    }
  }

  lemma NamesMore(reports: seq<Report>)
    requires reports != []
    ensures NamesEmpty(reports) <==>
      NamesEmpty(reports[..|reports| - 1]) || "" in Files(reports[|reports| - 1])
  {
    assert reports == reports[..|reports| - 1] + [reports[|reports| - 1]];
    hide Files;
  }

  lemma TalliedCells(c: Counts, rows: set<Cell>, hits: set<Cell>)
    requires Tallies(c, rows, hits) && hits <= rows
    ensures Cells(c, false) == rows && Cells(c, true) == hits
  {
    forall cell ensures cell in Cells(c, false) <==> cell in rows {
      assert cell in rows <==> cell.file in c && cell.key in c[cell.file];
    }
    forall cell ensures cell in Cells(c, true) <==> cell in hits {
      if cell in hits { assert cell.file in c && cell.key in c[cell.file]; }
    }
  }

  function StatsOfRows(rows: set<Cell>, hits: set<Cell>): Stats {
    Stats(Part(|OfKind(hits, true)|, |OfKind(rows, true)|), Part(|OfKind(hits, false)|, |OfKind(rows, false)|))
  }

  /** The total counts the distinct rows of the reports together, and those of them any report hit. */
  lemma StatsCountRows(reports: seq<Report>)
    ensures StatsOf(reports) == StatsOfRows(Counted(reports, false), Counted(reports, true))
  {
    AllTally(reports);
    var st, rows, hits := ScanAll(reports), Counted(reports, false), Counted(reports, true);
    TalliedCells(st.lines, OfKind(rows, true), OfKind(hits, true));
    TalliedCells(st.branches, OfKind(rows, false), OfKind(hits, false));
  }

  // ----------------------------------------------- when the order does not matter

  /** The rows of some report of the list, each read from `f`. */
  function AllRows(f: Option<string>, reports: seq<Report>, hit: bool): set<Cell> {
    set r, c | r in reports && c in Rows(f, r, hit) :: c
  }

  /** The row, read under the empty path, stands in a report that comes after one naming that path. */
  predicate InLater(reports: seq<Report>, c: Cell, hit: bool) {
    exists i :: 0 <= i < |reports| && NamesEmpty(reports[..i]) && c in Rows(Some(""), reports[i], hit)
  }

  lemma InLaterMore(reports: seq<Report>, c: Cell, hit: bool)
    requires reports != []
    ensures var (before, last) := (reports[..|reports| - 1], reports[|reports| - 1]);
      && (InLater(reports, c, hit) <==>
            InLater(before, c, hit) || (NamesEmpty(before) && c in Rows(Some(""), last, hit)))
      && (c in AllRows(None, reports, hit) <==> c in AllRows(None, before, hit) || c in Rows(None, last, hit))
  {
    hide Rows, NamesEmpty;
    var n := |reports| - 1;
    var before, last := reports[..n], reports[n];
    assert reports == before + [last];
    assert forall i :: 0 <= i < n ==> before[..i] == reports[..i] && before[i] == reports[i];
    if InLater(before, c, hit) {
      var i :| 0 <= i < n && NamesEmpty(before[..i]) && c in Rows(Some(""), before[i], hit);
      assert NamesEmpty(reports[..i]) && c in Rows(Some(""), reports[i], hit);
    }
  }

  lemma {:induction false} InCounted(reports: seq<Report>, c: Cell, hit: bool)
    ensures c in Counted(reports, hit) <==> c in AllRows(None, reports, hit) || InLater(reports, c, hit)
  {
    if reports != [] {
      InCounted(reports[..|reports| - 1], c, hit);
      InLaterMore(reports, c, hit);
      StrayRows(reports[|reports| - 1], c, hit);
      hide Rows, NamesEmpty, InLater, AllRows;
    }
  }

  /** No order counts more than all rows, those before any file name read under the empty path. */
  lemma AtMost(reports: seq<Report>, c: Cell, hit: bool)
    requires c in Counted(reports, hit)
    ensures c in AllRows(Some(""), reports, hit)
  {
    InCounted(reports, c, hit);
    forall r | r in reports ensures c in Rows(None, r, hit) ==> c in Rows(Some(""), r, hit) { StrayRows(r, c, hit); }
  }

  predicate SameReports(a: seq<Report>, b: seq<Report>) { (forall r <- a :: r in b) && (forall r <- b :: r in a) }

  /** Some report counts this row even where `e` comes first of those that name the empty path. */
  predicate CountsAnyway(a: seq<Report>, e: Report, c: Cell, hit: bool) {
    c in AllRows(None, a, hit) || exists r <- a :: r != e && "" in Files(r) && c in Rows(Some(""), r, hit)
  }

  /**
  No report names the empty path; or each row that precedes the first file name of its report also stands under that
  path in some report, or precedes the first file name in two reports that name it.
  */
  predicate Settled(a: seq<Report>) {
    forall e <- a, hit: bool | "" in Files(e) :: forall c <- AllRows(Some(""), a, hit) :: CountsAnyway(a, e, c, hit)
  }

  lemma SettledCounts(a: seq<Report>, b: seq<Report>, c: Cell, hit: bool)
    requires Settled(a) && SameReports(a, b)
    ensures c in Counted(b, hit) <==> c in AllRows(if NamesEmpty(a) then Some("") else None, a, hit)
  {
    hide Files, Rows, Counted, CountsAnyway;
    if NamesEmpty(a) {
      if c in Counted(b, hit) { AtMost(b, c, hit); }
      if c in AllRows(Some(""), a, hit) {
        var j := FirstNaming(b);
        assert CountsAnyway(a, b[j], c, hit);
        AnywayCounts(a, b, j, c, hit);
      }
    } else {
      InCounted(b, c, hit);
      assert forall i :: 0 <= i < |b| ==> !NamesEmpty(b[..i]);
    }
  }

  lemma AnywayCounts(a: seq<Report>, b: seq<Report>, j: nat, c: Cell, hit: bool)
    requires SameReports(a, b) && j < |b| && "" in Files(b[j]) && CountsAnyway(a, b[j], c, hit)
    requires forall i :: 0 <= i < j ==> "" !in Files(b[i])
    ensures c in Counted(b, hit)
  {
    hide Files, Rows, Counted;
    InCounted(b, c, hit);
    if c !in AllRows(None, a, hit) {
      var r :| r in a && r != b[j] && "" in Files(r) && c in Rows(Some(""), r, hit);
      var i :| 0 <= i < |b| && b[i] == r;
      assert b[..i][j] == b[j];
    }
  }

  lemma FirstNaming(b: seq<Report>) returns (j: nat)
    requires NamesEmpty(b)
    ensures j < |b| && "" in Files(b[j]) && forall i :: 0 <= i < j ==> "" !in Files(b[i])
  {
    j := 0;
    while "" !in Files(b[j])
      invariant j < |b| && forall i :: 0 <= i < j ==> "" !in Files(b[i])
      decreases |b| - j
    {
      assert exists i :: 0 <= i < |b| && "" in Files(b[i]);
      j := j + 1;
    }
  }

  lemma {:induction false} Listed(reports: set<Report>) returns (list: seq<Report>)
    ensures forall r :: r in list <==> r in reports
  {
    if reports == {} {
      list := [];
    } else {
      var r :| r in reports;
      list := Listed(reports - {r});
      list := list + [r];
    }
  }

  /** A report that names the empty path, put first, lets every row count. */
  lemma MostRows(a: seq<Report>, e: Report, c: Cell, hit: bool)
    requires e in a && "" in Files(e) && c in AllRows(Some(""), a, hit)
    ensures c in Counted([e] + a, hit)
  {
    hide Files, Rows, Counted;
    var all := [e] + a;
    var r :| r in a && c in Rows(Some(""), r, hit);
    var k :| 0 <= k < |a| && a[k] == r;
    assert all[k + 1] == r && all[..k + 1][0] == e;
    InCounted(all, c, hit);
  }

  /** Put behind those that name no empty path and before the others that do, it leaves out what they do not hold. */
  lemma FewerRows(a: seq<Report>, e: Report, c: Cell, hit: bool) returns (b: seq<Report>)
    requires e in a && "" in Files(e) && !CountsAnyway(a, e, c, hit)
    ensures SameReports(a, b) && c !in Counted(b, hit)
  {
    hide Files, Rows, Counted;
    var first := Listed(set r | r in a && "" !in Files(r));
    var last := Listed(set r | r in a && "" in Files(r) && r != e);
    b := first + [e] + last;
    InCounted(b, c, hit);
    assert forall r <- last :: c !in Rows(Some(""), r, hit);
    forall i | 0 <= i < |b| ensures NamesEmpty(b[..i]) ==> c !in Rows(Some(""), b[i], hit) {
      if i <= |first| {
        assert b[..i] == first[..i];
        assert forall r <- first[..i] :: r in first;
      } else {
        assert b[i] == last[i - |first| - 1] && b[i] in last;
      }
    }
  }

  lemma SameSize(a: set<Cell>, b: set<Cell>)
    requires a <= b && |a| == |b|
    ensures a == b
  {
    assert b == a + (b - a);
  }

  /** Of two countings one of which holds the other, equal totals mean equal rows. */
  lemma StatsTell(rows: set<Cell>, hits: set<Cell>, more: set<Cell>, moreHits: set<Cell>)
    requires rows <= more && hits <= moreHits && StatsOfRows(rows, hits) == StatsOfRows(more, moreHits)
    ensures rows == more && hits == moreHits
  {
    forall lines: bool
      ensures OfKind(rows, lines) == OfKind(more, lines) && OfKind(hits, lines) == OfKind(moreHits, lines)
    {
      SameSize(OfKind(rows, lines), OfKind(more, lines));
      SameSize(OfKind(hits, lines), OfKind(moreHits, lines));
    }
    assert forall c <- more :: c in OfKind(more, c.key.Line?);
    assert forall c <- moreHits :: c in OfKind(moreHits, c.key.Line?);
  }

  lemma SettledTotals(a: seq<Report>, b: seq<Report>)
    requires Settled(a) && SameReports(a, b)
    ensures StatsOf(b) == StatsOf(a)
  {
    hide Settled, Counted, AllRows, NamesEmpty, StatsOf, StatsOfRows;
    forall hit: bool ensures Counted(a, hit) == Counted(b, hit) {
      forall c ensures c in Counted(a, hit) <==> c in Counted(b, hit) {
        SettledCounts(a, a, c, hit);
        SettledCounts(a, b, c, hit);
      }
    }
    StatsCountRows(a);
    StatsCountRows(b);
  }

  /** Otherwise two orders of the same reports have different totals. */
  lemma UnsettledTotals(a: seq<Report>) returns (most: seq<Report>, less: seq<Report>)
    requires !Settled(a)
    ensures SameReports(a, most) && SameReports(a, less) && StatsOf(most) != StatsOf(less)
  {
    var e, hit: bool, c :| e in a && "" in Files(e) && c in AllRows(Some(""), a, hit) && !CountsAnyway(a, e, c, hit);
    hide Settled, Counted, Rows, StatsOf, StatsOfRows, CountsAnyway, Files;
    most := [e] + a;
    less := FewerRows(a, e, c, hit);
    MostRows(a, e, c, hit);
    forall h: bool, d | d in Counted(less, h) ensures d in Counted(most, h) {
      AtMost(less, d, h);
      MostRows(a, e, d, h);
    }
    StatsCountRows(most);
    StatsCountRows(less);
    if StatsOf(most) == StatsOf(less) {
      StatsTell(Counted(less, false), Counted(less, true), Counted(most, false), Counted(most, true));
    }
  }

  /** Neither the order of the reports nor a repeated one changes the total, if and only if the reports are settled. */
  lemma StatsIgnoreOrder(a: seq<Report>)
    ensures (forall b :: SameReports(a, b) ==> StatsOf(b) == StatsOf(a)) <==> Settled(a)
  {
    if Settled(a) {
      forall b | SameReports(a, b) ensures StatsOf(b) == StatsOf(a) { SettledTotals(a, b); }
    } else {
      var most, less := UnsettledTotals(a);
    }
    hide Settled, StatsOf, SameReports;
  }

  /** So order never matters where every row has its file, or where no report names the empty path. */
  lemma OrdinarilySettled(a: seq<Report>)
    requires (forall r <- a :: Anchored(r)) || !NamesEmpty(a)
    ensures Settled(a)
  {
    forall e, hit: bool, c | e in a && "" in Files(e) && c in AllRows(Some(""), a, hit)
      ensures CountsAnyway(a, e, c, hit)
    {
      var r :| r in a && c in Rows(Some(""), r, hit);
      AnchoredReads(Some(""), r, hit);
    }
  }

  /** Two reports that are not settled: a row before any file name, and the empty path. */
  lemma UnanchoredExample()
    ensures var (row, named) := ([Row(Line(1), 1)], [SF("")]);
      StatsOf([row, named]).lines == Part(0, 0) && StatsOf([named, row]).lines == Part(1, 1)
  {
    var row: Report, named: Report, c := [Row(Line(1), 1)], [SF("")], Cell("", Line(1));
    assert Files(row) == {} && "" in Files(named) by { assert named[0].SF?; }
    forall hit: bool ensures Counted([row, named], hit) == {} && Counted([named, row], hit) == {c} {
      OneRow(None, row[0], hit);
      OneRow(Some(""), row[0], hit);
      OneRow(None, named[0], hit);
      CountedTwo(row, named, hit);
      CountedTwo(named, row, hit);
    }
    StatsCountRows([row, named]);
    StatsCountRows([named, row]);
    assert OfKind({c}, true) == {c} && OfKind({}, true) == {};
  }

  lemma OneRow(f: Option<string>, t: Token, hit: bool)
    ensures Rows(f, [t], hit) == if t.Row? && f.Some? && (hit ==> t.hits > 0) then {Cell(f.value, t.key)} else {}
  {
    assert [t][..0] == [];
    assert FileAfter(f, []) == f && Rows(f, [t][..0], hit) == {};
  }

  lemma CountedTwo(a: Report, b: Report, hit: bool)
    ensures Counted([a, b], hit) == Rows(None, a, hit) + Rows(if "" in Files(a) then Some("") else None, b, hit)
  {
    assert [a, b][..1] == [a] && [a][..0] == [];
    assert Counted([a], hit) == Rows(None, a, hit);
    assert NamesEmpty([a]) <==> "" in Files(a);
  }

  // ----------------------------------------------------------- reconciliation

  type LineModel = map<string, set<int>>

  function LinesOf(rows: set<Cell>, f: string): set<int> { set c <- rows | c.file == f && c.key.Line? :: c.key.n }

  /** The lines a report has, file by file. */
  function ModelOf(r: Report): LineModel { map f <- Files(r) :: LinesOf(Rows(None, r, false), f) }

  lemma ModelMore(r: Report)
    requires r != []
    ensures var (before, t) := (r[..|r| - 1], r[|r| - 1]);
      var (model, at) := (ModelOf(before), FileAfter(None, before));
      ModelOf(r) == match t
        case SF(path) => if path in model then model else model[path := {}]
        case Row(Line(n), _) =>
          if at.Some? && at.value in model then model[at.value := model[at.value] + {n}] else model
        case _ => model
  {
    var before, t := r[..|r| - 1], r[|r| - 1];
    FilesMore(r);
    FileNamed(None, before);
    hide Files, FileAfter;
    forall f | f in Files(r)
      ensures ModelOf(r)[f] == if t.Row? && t.key.Line? && FileAfter(None, before) == Some(f)
        then LinesOf(Rows(None, before, false), f) + {t.key.n} else LinesOf(Rows(None, before, false), f)
      ensures f !in Files(before) ==> LinesOf(Rows(None, before, false), f) == {}
    {
      LinesMore(r, f);
      if f !in Files(before) { NoLines(before, f); }
    }
    hide LinesOf, Rows;
  }

  lemma LinesMore(r: Report, f: string)
    requires r != []
    ensures var (before, t) := (r[..|r| - 1], r[|r| - 1]);
      LinesOf(Rows(None, r, false), f) == if t.Row? && t.key.Line? && FileAfter(None, before) == Some(f)
        then LinesOf(Rows(None, before, false), f) + {t.key.n} else LinesOf(Rows(None, before, false), f)
  {
    var before, t := r[..|r| - 1], r[|r| - 1];
    var at := FileAfter(None, before);
    if t.Row? && at.Some? {
      assert Rows(None, r, false) == Rows(None, before, false) + {Cell(at.value, t.key)};
      assert Cell(at.value, t.key) in Rows(None, r, false);
    }
    hide Rows;
  }

  lemma NoLines(r: Report, f: string)
    requires f !in Files(r)
    ensures LinesOf(Rows(None, r, false), f) == {}
  {
    forall c | c in Rows(None, r, false) ensures c.file in Files(r) { RowsNamed(None, r, c, false); }
  }

  /** The loop that builds the line model. A row before the first file name finds no set to go into. */
  method ReadLineModel(r: Report) returns (model: LineModel)
    ensures model == ModelOf(r)
  {
    model := map[];
    var sf := "";
    for i := 0 to |r|
      invariant model == ModelOf(r[..i])
      invariant FileAfter(None, r[..i]) == if model == map[] then None else Some(sf)
      invariant model != map[] ==> sf in model
    {
      assert r[..i + 1][..i] == r[..i];
      ModelMore(r[..i + 1]);
      FileNamed(None, r[..i]);
      hide ModelOf;
      match r[i]
      case SF(path) =>
        sf := path;
        if sf !in model { model := model[sf := {}]; }
      case Row(Line(n), _) => if sf in model { model := model[sf := model[sf] + {n}]; }
      case _ =>
    }
    assert r[..|r|] == r;
  }

  /** What decides whether a record filtered by these lines keeps a row. */
  predicate KeepsKey(lines: set<int>, k: Key) { k.Line? ==> k.n in lines }

  function KeptRows(rec: Report, lines: set<int>): Report {
    if rec == [] then [] else
      var last := rec[|rec| - 1];
      KeptRows(rec[..|rec| - 1], lines) + if last.Row? && !KeepsKey(lines, last.key) then [] else [last]
  }

  function CountRows(rec: Report, hit: bool): nat {
    if rec == [] then 0 else
      var last := rec[|rec| - 1];
      CountRows(rec[..|rec| - 1], hit) + if last.Row? && last.key.Line? && (hit ==> last.hits > 0) then 1 else 0
  }

  function Recounted(rec: Report, lf: nat, lh: nat): Report {
    seq(|rec|, i requires 0 <= i < |rec| => match rec[i] case LF(_) => LF(lf) case LH(_) => LH(lh) case t => t)
  }

  /** The first file a record names, wherever in it that stands; an empty name is passed over. */
  function NamedBy(rec: Report): Option<string> {
    if rec == [] then None else if rec[0].SF? && rec[0].path != "" then Some(rec[0].path) else NamedBy(rec[1..])
  }

  function ReconciledRecord(rec: Report, model: LineModel): Report {
    var f := NamedBy(rec);
    if f == None || f.value !in model then rec else
      var kept := KeptRows(rec, model[f.value]);
      Recounted(kept, CountRows(kept, false), CountRows(kept, true))
  }

  /** `reconcileBunLcovLineModel` on records already split. */
  function Reconciled(records: seq<Report>, model: LineModel): seq<Report> {
    seq(|records|, i requires 0 <= i < |records| => ReconciledRecord(records[i], model))
  }

  lemma {:induction false} RecountedReads(f: Option<string>, rec: Report, lf: nat, lh: nat, hit: bool)
    ensures CountRows(Recounted(rec, lf, lh), hit) == CountRows(rec, hit)
    ensures FileAfter(f, Recounted(rec, lf, lh)) == FileAfter(f, rec)
    ensures Rows(f, Recounted(rec, lf, lh), hit) == Rows(f, rec, hit)
  {
    if rec != [] {
      RecountedReads(f, rec[..|rec| - 1], lf, lh, hit);
      assert Recounted(rec, lf, lh)[..|rec| - 1] == Recounted(rec[..|rec| - 1], lf, lh);
    }
  }

  /** In a reconciled record LF and LH are the line rows it holds, and those of them hit. */
  lemma TotalsRecomputed(rec: Report, model: LineModel, i: nat)
    requires NamedBy(rec).Some? && NamedBy(rec).value in model && i < |ReconciledRecord(rec, model)|
    ensures var out := ReconciledRecord(rec, model);
      && (out[i].LF? ==> out[i].n == CountRows(out, false)) && (out[i].LH? ==> out[i].n == CountRows(out, true))
  {
    var kept := KeptRows(rec, model[NamedBy(rec).value]);
    RecountedReads(None, kept, CountRows(kept, false), CountRows(kept, true), false);
    RecountedReads(None, kept, CountRows(kept, false), CountRows(kept, true), true);
  }

  lemma {:induction false} KeptReads(f: Option<string>, rec: Report, lines: set<int>, c: Cell, hit: bool)
    ensures FileAfter(f, KeptRows(rec, lines)) == FileAfter(f, rec)
    ensures c in Rows(f, KeptRows(rec, lines), hit) <==> c in Rows(f, rec, hit) && KeepsKey(lines, c.key)
  {
    if rec != [] {
      var before, last := rec[..|rec| - 1], rec[|rec| - 1];
      KeptReads(f, before, lines, c, hit);
      var kept := KeptRows(before, lines);
      hide KeptRows, Rows, FileAfter;
      assert rec == before + [last];
      KeptMore(before, last, lines);
      OneMoreRow(f, before, last, hit);
      OneMoreRow(f, kept, last, hit);
    }
  }

  lemma KeptMore(rec: Report, t: Token, lines: set<int>)
    ensures KeptRows(rec + [t], lines)
         == if t.Row? && !KeepsKey(lines, t.key) then KeptRows(rec, lines) else KeptRows(rec, lines) + [t]
  {
    assert (rec + [t])[..|rec|] == rec;
  }

  lemma OneMoreRow(f: Option<string>, r: Report, t: Token, hit: bool)
    ensures FileAfter(f, r + [t]) == if t.SF? then Some(t.path) else FileAfter(f, r)
    ensures var at := FileAfter(f, r);
      Rows(f, r + [t], hit) == if t.Row? && at.Some? && (hit ==> t.hits > 0)
        then Rows(f, r, hit) + {Cell(at.value, t.key)} else Rows(f, r, hit)
  {
    assert (r + [t])[..|r|] == r;
  }

  /** A record without its line rows, the numbers of its totals left open. */
  function Outline(rec: Report): Report {
    if rec == [] then [] else
      var last := rec[|rec| - 1];
      Outline(rec[..|rec| - 1])
      + match last
        case Row(Line(_), _) => []
        case LF(_) => [LF(0)]
        case LH(_) => [LH(0)]
        case t => [t]
  }

  lemma {:induction false} OutlineKept(rec: Report, lines: set<int>)
    ensures Outline(KeptRows(rec, lines)) == Outline(rec)
  {
    if rec != [] {
      var before, last := rec[..|rec| - 1], rec[|rec| - 1];
      OutlineKept(before, lines);
      var kept := KeptRows(before, lines);
      if last.Row? && !KeepsKey(lines, last.key) {
        assert KeptRows(rec, lines) == kept && Outline(before) + [] == Outline(before);
      } else {
        assert (kept + [last])[..|kept|] == kept;
      }
    }
  }

  lemma {:induction false} OutlineRecounted(rec: Report, lf: nat, lh: nat)
    ensures Outline(Recounted(rec, lf, lh)) == Outline(rec)
  {
    if rec != [] {
      OutlineRecounted(rec[..|rec| - 1], lf, lh);
      assert Recounted(rec, lf, lh)[..|rec| - 1] == Recounted(rec[..|rec| - 1], lf, lh);
    }
  }

  /** Reconciling drops line rows and rewrites LF and LH; every other line stays, in its place. */
  lemma OutlineReconciled(rec: Report, model: LineModel)
    ensures Outline(ReconciledRecord(rec, model)) == Outline(rec)
  {
    var f := NamedBy(rec);
    if f.Some? && f.value in model {
      var kept := KeptRows(rec, model[f.value]);
      OutlineKept(rec, model[f.value]);
      OutlineRecounted(kept, CountRows(kept, false), CountRows(kept, true));
    }
  }

  /** The record's own filter lets rows of this key through. */
  predicate Passes(rec: Report, model: LineModel, k: Key) {
    var f := NamedBy(rec);
    f.Some? && f.value in model ==> KeepsKey(model[f.value], k)
  }

  /** A reconciled record holds exactly its old rows on the lines its filter has, each of its old file. */
  lemma ReconciledRows(f: Option<string>, rec: Report, model: LineModel, c: Cell, hit: bool)
    ensures var out := ReconciledRecord(rec, model);
      && FileAfter(f, out) == FileAfter(f, rec)
      && (c in Rows(f, out, hit) <==> c in Rows(f, rec, hit) && Passes(rec, model, c.key))
  {
    var g := NamedBy(rec);
    if g.Some? && g.value in model {
      var kept := KeptRows(rec, model[g.value]);
      KeptReads(f, rec, model[g.value], c, hit);
      RecountedReads(f, kept, CountRows(kept, false), CountRows(kept, true), hit);
    }
  }

  // ----------------------------------------------------------- and then merged

  /** The records written out again, each with its end marker. */
  function Joined(records: seq<Report>): Report {
    if records == [] then [] else Joined(records[..|records| - 1]) + (records[|records| - 1] + [EndOfRecord])
  }

  /** The rows of record `i` where it stands: a file named in an earlier record lasts until the next name. */
  function RowsIn(f: Option<string>, records: seq<Report>, i: nat, hit: bool): set<Cell>
    requires i < |records|
  {
    Rows(FileAfter(f, Joined(records[..i])), records[i], hit)
  }

  lemma EndsRecord(f: Option<string>, rec: Report, hit: bool)
    ensures FileAfter(f, rec + [EndOfRecord]) == FileAfter(f, rec)
    ensures Rows(f, rec + [EndOfRecord], hit) == Rows(f, rec, hit)
  {
    assert (rec + [EndOfRecord])[..|rec|] == rec;
  }

  /** What the joined output holds, for records of any shape. */
  lemma {:induction false} JoinedReads(f: Option<string>, records: seq<Report>, model: LineModel, c: Cell, hit: bool)
    ensures var out := Joined(Reconciled(records, model));
      && FileAfter(f, out) == FileAfter(f, Joined(records))
      && (c in Rows(f, out, hit) <==> Held(f, records, model, c, hit))
  {
    if records != [] {
      var n := |records| - 1;
      var before, rec, all := records[..n], records[n], Reconciled(records, model);
      var a, b, out := Joined(before), Joined(Reconciled(before, model)), ReconciledRecord(rec, model);
      JoinedReads(f, before, model, c, hit);
      assert all[..n] == Reconciled(before, model) && all[n] == out && |all| == n + 1;
      assert Joined(all) == b + (out + [EndOfRecord]) && Joined(records) == a + (rec + [EndOfRecord]);
      hide Joined, FileAfter, Rows, ReconciledRecord, Passes, Reconciled;
      JoinedMore(f, a, rec, hit);
      JoinedMore(f, b, out, hit);
      ReconciledRows(FileAfter(f, a), rec, model, c, hit);
      assert c in Rows(f, Joined(all), hit) <==> c in Rows(f, b, hit) || Holds(f, records, n, model, c, hit);
      HeldMore(f, records, model, c, hit);
      hide Held, Holds;
    }
  }

  /** Record `i` holds the row and its filter lets it through. */
  predicate Holds(f: Option<string>, records: seq<Report>, i: nat, model: LineModel, c: Cell, hit: bool)
    requires i < |records|
  {
    c in RowsIn(f, records, i, hit) && Passes(records[i], model, c.key)
  }

  predicate Held(f: Option<string>, records: seq<Report>, model: LineModel, c: Cell, hit: bool) {
    exists i: nat :: i < |records| && Holds(f, records, i, model, c, hit)
  }

  lemma HeldMore(f: Option<string>, records: seq<Report>, model: LineModel, c: Cell, hit: bool)
    requires records != []
    ensures var n := |records| - 1;
      Held(f, records, model, c, hit) <==> Held(f, records[..n], model, c, hit) || Holds(f, records, n, model, c, hit)
  {
    var n := |records| - 1;
    var before := records[..n];
    assert forall i :: 0 <= i < n ==> before[..i] == records[..i] && before[i] == records[i];
    forall i: nat | i < n ensures Holds(f, before, i, model, c, hit) <==> Holds(f, records, i, model, c, hit) {}
    hide Holds;
    if Held(f, records, model, c, hit) {
      var i: nat :| i < |records| && Holds(f, records, i, model, c, hit);
      assert i < n ==> Holds(f, before, i, model, c, hit);
    }
  }

  lemma JoinedMore(f: Option<string>, a: Report, rec: Report, hit: bool)
    ensures var all := a + (rec + [EndOfRecord]);
      && FileAfter(f, all) == FileAfter(FileAfter(f, a), rec)
      && Rows(f, all, hit) == Rows(f, a, hit) + Rows(FileAfter(f, a), rec, hit)
  {
    AppendReads(f, a, rec + [EndOfRecord], hit);
    EndsRecord(FileAfter(f, a), rec, hit);
  }

  lemma JoinedPlain(f: Option<string>, records: seq<Report>, c: Cell, hit: bool)
    ensures c in Rows(f, Joined(records), hit) <==>
      exists i: nat :: i < |records| && c in RowsIn(f, records, i, hit)
  {
    hide Joined, RowsIn;
    assert Reconciled(records, map[]) == records;
    JoinedReads(f, records, map[], c, hit);
    forall i: nat | i < |records| ensures Holds(f, records, i, map[], c, hit) <==> c in RowsIn(f, records, i, hit) {}
    hide Holds;
  }

  /** Every line row stands under the file whose lines its record is filtered by. */
  predicate Homed(bun: seq<Report>) {
    forall i: nat, c | i < |bun| && c in RowsIn(Some(""), bun, i, false) ::
      c.key.Line? ==> NamedBy(bun[i]) == Some(c.file)
  }

  /**
  What the reconciling is for. A file vitest reports has exactly vitest's lines, each covered iff one of the two tiers
  hit it; a file only Bun loads keeps its rows; and branch rows stay as they were.
  */
  predicate Follows(vitest: Report, bun: seq<Report>, c: Cell) {
    var own, other := Rows(None, vitest, false), Joined(bun);
    var merged := [vitest, Joined(Reconciled(bun, ModelOf(vitest)))];
    && (c.file in Files(vitest) && c.key.Line? ==>
          && (c in Counted(merged, false) <==> c in own)
          && (c in Counted(merged, true) <==>
                c in own && (c in Rows(None, vitest, true) || c in Rows(None, other, true))))
    && (c.file !in Files(vitest) ==> forall hit: bool :: c in Counted(merged, hit) <==> c in Rows(None, other, hit))
    && (c.key.Branch? ==> forall hit: bool :: c in Counted(merged, hit) <==> c in Counted([vitest, other], hit))
  }

  /** A line row of homed records reads the same wherever the reading starts. */
  lemma HomedRows(bun: seq<Report>, i: nat, c: Cell, hit: bool)
    requires Homed(bun) && i < |bun| && c.key.Line?
    ensures c in RowsIn(Some(""), bun, i, hit) <==> c in RowsIn(None, bun, i, hit)
    ensures c in RowsIn(None, bun, i, hit) ==> NamedBy(bun[i]) == Some(c.file)
  {
    NotEmpty(bun[i]);
    RowsInStray(bun, i, c, hit);
    if c in RowsIn(Some(""), bun, i, hit) {
      RowsNamed(FileAfter(Some(""), Joined(bun[..i])), bun[i], c, hit);
      assert c in RowsIn(Some(""), bun, i, false);
    }
  }

  lemma RowsInStray(bun: seq<Report>, i: nat, c: Cell, hit: bool)
    requires i < |bun|
    ensures c in RowsIn(None, bun, i, hit) ==> c in RowsIn(Some(""), bun, i, hit)
    ensures c.file != "" ==> (c in RowsIn(None, bun, i, hit) <==> c in RowsIn(Some(""), bun, i, hit))
  {
    StrayRows(Joined(bun[..i]), c, hit);
    StrayRows(bun[i], c, hit);
  }

  lemma {:induction false} NotEmpty(rec: Report)
    ensures NamedBy(rec) != Some("")
    ensures NamedBy(rec).Some? ==> NamedBy(rec).value in Files(rec)
  {
    if rec != [] && !(rec[0].SF? && rec[0].path != "") {
      NotEmpty(rec[1..]);
      assert forall i :: 0 <= i < |rec| - 1 ==> rec[1..][i] == rec[i + 1];
    }
  }

  lemma MergeFollowsVitest(vitest: Report, bun: seq<Report>, c: Cell)
    requires Homed(bun)
    ensures Follows(vitest, bun, c)
  {
    var model, f := ModelOf(vitest), if "" in Files(vitest) then Some("") else None;
    var other, out := Joined(bun), Joined(Reconciled(bun, model));
    forall hit: bool
      ensures c in Counted([vitest, out], hit) <==> c in Rows(None, vitest, hit) || c in Rows(f, out, hit)
      ensures c in Counted([vitest, other], hit) <==> c in Rows(None, vitest, hit) || c in Rows(f, other, hit)
      ensures c in Rows(None, vitest, hit) ==> c.file in Files(vitest) && c in Rows(None, vitest, false)
      ensures c.key.Line? ==> (c in Rows(f, out, hit) <==>
        c in Rows(None, other, hit) && (c.file in model ==> c.key.n in model[c.file]))
      ensures c.key.Branch? ==> (c in Rows(f, out, hit) <==> c in Rows(f, other, hit))
      ensures c.file !in Files(vitest) ==> (c in Rows(f, other, hit) <==> c in Rows(None, other, hit))
    {
      CountedTwo(vitest, out, hit);
      CountedTwo(vitest, other, hit);
      if c in Rows(None, vitest, hit) { RowsNamed(None, vitest, c, hit); }
      StrayRows(other, c, hit);
      OutputRows(f, bun, model, c, hit);
    }
    assert c.file in model && c.key.Line? ==> (c.key.n in model[c.file] <==> c in Rows(None, vitest, false)) by {
      assert c == Cell(c.file, c.key);
    }
    hide Counted, Rows, Files, ModelOf, Joined, Reconciled;
  }

  lemma OutputRows(f: Option<string>, bun: seq<Report>, model: LineModel, c: Cell, hit: bool)
    requires Homed(bun) && (f == None || f == Some(""))
    ensures var (out, other) := (Joined(Reconciled(bun, model)), Joined(bun));
      && (c.key.Line? ==> (c in Rows(f, out, hit) <==>
            c in Rows(None, other, hit) && (c.file in model ==> c.key.n in model[c.file])))
      && (c.key.Branch? ==> (c in Rows(f, out, hit) <==> c in Rows(f, other, hit)))
  {
    JoinedReads(f, bun, model, c, hit);
    JoinedPlain(f, bun, c, hit);
    JoinedPlain(None, bun, c, hit);
    forall i: nat | i < |bun|
      ensures c.key.Branch? ==> (Holds(f, bun, i, model, c, hit) <==> c in RowsIn(f, bun, i, hit))
      ensures c.key.Line? ==> (Holds(f, bun, i, model, c, hit) <==>
        c in RowsIn(None, bun, i, hit) && (c.file in model ==> c.key.n in model[c.file]))
    {
      if c.key.Line? { HomedRows(bun, i, c, hit); }
      hide RowsIn;
    }
    hide Holds, Homed, Joined, Reconciled, RowsIn, Rows;
  }

  /** The reconciling does what it is for, whatever vitest reports, if and only if the records are homed. */
  lemma MergeExactly(bun: seq<Report>)
    ensures Homed(bun) <==> forall vitest, c :: Follows(vitest, bun, c)
  {
    if Homed(bun) {
      forall vitest, c ensures Follows(vitest, bun, c) { MergeFollowsVitest(vitest, bun, c); }
    } else {
      var i: nat, c :|
        i < |bun| && c in RowsIn(Some(""), bun, i, false) && c.key.Line? && NamedBy(bun[i]) != Some(c.file);
      MergeStrays(bun, i, c);
      assert !Follows([SF(c.file)], bun, c);
    }
  }

  /** A row filtered by another file's lines survives a vitest report that has none for its own. */
  lemma MergeStrays(bun: seq<Report>, i: nat, c: Cell)
    requires i < |bun| && c in RowsIn(Some(""), bun, i, false) && c.key.Line? && NamedBy(bun[i]) != Some(c.file)
    ensures !Follows([SF(c.file)], bun, c)
  {
    var vitest: Report := [SF(c.file)];
    var f, model := if c.file == "" then Some("") else None, ModelOf(vitest);
    assert vitest[..0] == [] && Rows(None, vitest, false) == {};
    assert Files(vitest) == {c.file} by { assert vitest[0].SF?; }
    RowsInStray(bun, i, c, false);
    assert Holds(f, bun, i, model, c, false);
    JoinedReads(f, bun, model, c, false);
    CountedTwo(vitest, Joined(Reconciled(bun, model)), false);
  }

  /** A record as the lcov format has it: one file, named before its rows, with any other lines around. */
  predicate Shaped(rec: Report) {
    Anchored(rec) && forall i :: 0 <= i < |rec| && rec[i].SF? ==> NamedBy(rec) == Some(rec[i].path)
  }

  lemma ShapedIsHomed(bun: seq<Report>)
    requires forall i :: 0 <= i < |bun| ==> Shaped(bun[i])
    ensures Homed(bun)
  {
    forall i: nat, c | i < |bun| && c in RowsIn(Some(""), bun, i, false) ensures NamedBy(bun[i]) == Some(c.file) {
      assert Shaped(bun[i]);
      AnchoredReads(FileAfter(Some(""), Joined(bun[..i])), bun[i], false);
      RowsNamed(None, bun[i], c, false);
    }
  }
}
