/**
Asset backup and restore: the rows paged out of the database, their blobs copied into a bundle and back by the bounded
fan-out, each copy landing in whatever order it settles, and every restored blob checked against its row.
*/
module BlobBackup {
  import opened Prelude
  import opened Concurrency

  const ASSET_ENUM_PAGE_SIZE := 1000
  const ASSET_COPY_CONCURRENCY := 8

  type Blob = string

  /** `<projectId>/<assetId>`. */
  datatype Key = Key(project: string, asset: string)

  datatype Row = Row(id: string, project: string, sha256: string, size: nat)

  function KeyOf(r: Row): Key { Key(r.project, r.id) }

  type Store = map<Key, Blob>

  // ----------------------------------------------------------------- paging

  /** `LIMIT` rows from `OFFSET` of the table in its stable order. */
  function PageAt(table: seq<Row>, offset: nat): seq<Row> {
    table[Min(offset, |table|)..Min(offset + ASSET_ENUM_PAGE_SIZE, |table|)]
  }

  /** Every row exactly once, in order, also when the table ends on a page boundary. */
  method EnumerateAssetRows(table: seq<Row>) returns (rows: seq<Row>)
    ensures rows == table
  {
    rows := [];
    var offset := 0;
    while true
      invariant 0 <= offset <= |table| && rows == table[..offset]
      decreases |table| - offset
    {
      var page := PageAt(table, offset);
      rows := rows + page;
      if |page| < ASSET_ENUM_PAGE_SIZE { break; }
      offset := offset + |page|;
    }
  }

  /** The primary key: no two rows share an id. */
  predicate UniqueIds(rows: seq<Row>) { forall i, j :: 0 <= i < j < |rows| ==> rows[i].id != rows[j].id }

  // ------------------------------------------------------------------- sizes

  ghost function Total(m: Store): nat
    decreases |m|
  {
    if m == map[] then 0 else
      var k :| k in m;
      |m[k]| + Total(m - {k})
  }

  lemma {:induction false} TotalSplits(m: Store, k: Key)
    requires k in m
    ensures Total(m) == |m[k]| + Total(m - {k})
    decreases |m|
  {
    var j :| j in m && Total(m) == |m[j]| + Total(m - {j});
    if j != k {
      TotalSplits(m - {j}, k);
      TotalSplits(m - {k}, j);
      assert m - {j} - {k} == m - {k} - {j};
    }
  }

  lemma TotalAdds(m: Store, k: Key, b: Blob)
    requires k !in m
    ensures Total(m[k := b]) == Total(m) + |b|
  {
    TotalSplits(m[k := b], k);
    assert m[k := b] - {k} == m;
  }

  /** A fan-out over `n` items, after the settlings in `order`. */
  function Fanned(n: nat, good: nat -> bool, order: seq<nat>): Pool {
    Run(Start(n, ASSET_COPY_CONCURRENCY), n, good, order)
  }

  /** Copies go eight at a time: never more, and never fewer while rows or files remain and none has failed. */
  lemma EightAtATime(n: nat, good: nat -> bool, order: seq<nat>)
    ensures var p := Fanned(n, good, order);
      InFlight(p.workers) <= 8 && (!p.rejected && |p.started| < n ==> InFlight(p.workers) == 8)
  {
    LimitUsed(n, ASSET_COPY_CONCURRENCY, good, order);
  }

  // -------------------------------------------------------------------- dump

  datatype Dump = Dump(files: Store, count: nat, bytes: nat, missing: seq<Key>)

  /** One row's copy: its blob written to the bundle, or its key noted as missing. */
  function Copied(d: Dump, source: Store, r: Row): Dump {
    var k := KeyOf(r);
    if k in source then Dump(d.files[k := source[k]], d.count + 1, d.bytes + |source[k]|, d.missing)
    else d.(missing := d.missing + [k])
  }

  predicate InRange(order: seq<nat>, n: nat) { forall i :: 0 <= i < |order| ==> order[i] < n }

  /** The bundle after the copies of the rows `order` names, in that order. */
  function DumpOf(rows: seq<Row>, source: Store, order: seq<nat>): Dump
    requires InRange(order, |rows|)
  {
    if order == [] then Dump(map[], 0, 0, [])
    else Copied(DumpOf(rows, source, order[..|order| - 1]), source, rows[order[|order| - 1]])
  }

  /** The keys of the rows `order` names. */
  function KeysOf(rows: seq<Row>, order: seq<nat>): set<Key>
    requires InRange(order, |rows|)
  {
    set i | 0 <= i < |order| :: KeyOf(rows[order[i]])
  }

  /** The bundle holds the source's blobs of these keys, and nothing else; every key is copied or missing. */
  ghost predicate DumpOk(source: Store, keys: set<Key>, count: nat, d: Dump) {
    && (forall k :: k in d.files <==> k in source && k in keys)
    && (forall k <- d.files :: d.files[k] == source[k])
    && (forall k :: k in d.missing <==> k !in source && k in keys)
    && d.count + |d.missing| == count && d.count == |d.files| && d.bytes == Total(d.files)
  }

  lemma CopiedOk(source: Store, keys: set<Key>, count: nat, d: Dump, r: Row)
    requires DumpOk(source, keys, count, d) && KeyOf(r) !in keys
    ensures DumpOk(source, keys + {KeyOf(r)}, count + 1, Copied(d, source, r))
  {
    hide Total;
    var k := KeyOf(r);
    if k in source { TotalAdds(d.files, k, source[k]); }
  }

  lemma KeysMore(rows: seq<Row>, order: seq<nat>)
    requires UniqueIds(rows) && InRange(order, |rows|) && Distinct(order) && order != []
    ensures var n := |order| - 1;
      && KeyOf(rows[order[n]]) !in KeysOf(rows, order[..n])
      && KeysOf(rows, order) == KeysOf(rows, order[..n]) + {KeyOf(rows[order[n]])}
  {
    var n := |order| - 1;
    forall i | 0 <= i < n ensures KeyOf(rows[order[..n][i]]) != KeyOf(rows[order[n]]) {
      assert order[i] != order[n];
    }
    assert order == order[..n] + [order[n]];
  }

  lemma {:induction false} DumpHolds(rows: seq<Row>, source: Store, order: seq<nat>)
    requires UniqueIds(rows) && InRange(order, |rows|) && Distinct(order)
    ensures DumpOk(source, KeysOf(rows, order), |order|, DumpOf(rows, source, order))
  {
    if order != [] {
      var n := |order| - 1;
      KeysMore(rows, order);
      DumpHolds(rows, source, order[..n]);
      hide DumpOk, KeysOf, Copied;
      CopiedOk(source, KeysOf(rows, order[..n]), n, DumpOf(rows, source, order[..n]), rows[order[n]]);
    }
  }

  function Keys(rows: seq<Row>): set<Key> { set i | 0 <= i < |rows| :: KeyOf(rows[i]) }

  lemma Member(s: seq<nat>, i: nat)
    requires i < |s|
    ensures s[i] in s
  {}

  lemma {:induction false} FullLength(s: seq<nat>, n: nat)
    requires Distinct(s) && forall i: nat :: i in s <==> i < n
    ensures |s| == n
  {
    if n == 0 {
      if |s| > 0 { Member(s, 0); }
    } else {
      assert n - 1 in s;
      var j :| 0 <= j < |s| && s[j] == n - 1;
      var rest := s[..j] + s[j + 1..];
      forall i: nat ensures i in rest <==> i < n - 1 {
        if i in s && i != n - 1 {
          var at :| 0 <= at < |s| && s[at] == i;
          assert rest[if at < j then at else at - 1] == i;
        }
      }
      FullLength(rest, n - 1);
    }
  }

  /**
  A backup that resolves has copied or listed as missing every row once, whatever order the copies landed in: the
  bundle is the source restricted to the rows, and copied plus missing is the number of rows. A read that fails for any
  reason but not-found is an item that is not `good`.
  */
  lemma DumpComplete(rows: seq<Row>, source: Store, good: nat -> bool, order: seq<nat>)
    requires UniqueIds(rows)
    requires Resolved(Fanned(|rows|, good, order))
    ensures var done := Fanned(|rows|, good, order).done;
      && InRange(done, |rows|)
      && var d := DumpOf(rows, source, done);
         && (forall k :: k in d.files <==> k in source && k in Keys(rows))
         && (forall k <- d.files :: d.files[k] == source[k])
         && (forall k :: k in d.missing <==> k !in source && k in Keys(rows))
         && d.count + |d.missing| == |rows| && d.count == |d.files| && d.bytes == Total(d.files)
  {
    EachOnce(|rows|, ASSET_COPY_CONCURRENCY, good, order);
    var done := Fanned(|rows|, good, order).done;
    forall i | 0 <= i < |done| ensures done[i] < |rows| { assert done[i] in done; }
    DumpHolds(rows, source, done);
    FullLength(done, |rows|);
    forall k ensures k in KeysOf(rows, done) <==> k in Keys(rows) {
      if k in Keys(rows) {
        var i: nat :| i < |rows| && KeyOf(rows[i]) == k;
        assert i in done;
      }
    }
  }

  // ----------------------------------------------------------------- restore

  /** `rowsById`: the last row wins, were an id ever repeated. */
  function RowsById(rows: seq<Row>): map<string, Row> {
    if rows == [] then map[] else RowsById(rows[..|rows| - 1])[rows[|rows| - 1].id := rows[|rows| - 1]]
  }

  lemma {:induction false} RowsByIdFinds(rows: seq<Row>, i: nat)
    requires UniqueIds(rows) && i < |rows|
    ensures rows[i].id in RowsById(rows) && RowsById(rows)[rows[i].id] == rows[i]
  {
    if i < |rows| - 1 {
      assert rows[..|rows| - 1][i] == rows[i];
      RowsByIdFinds(rows[..|rows| - 1], i);
    }
  }

  /** The integrity check after a write. A blob with no row passes unless the restore is strict. */
  predicate Passes(byId: map<string, Row>, sha: Blob -> string, strict: bool, k: Key, b: Blob) {
    if k.asset in byId then sha(b) == byId[k.asset].sha256 && |b| == byId[k.asset].size else !strict
  }

  datatype Restore = Restore(store: Store, count: nat, bytes: nat, verified: nat, unverified: nat)

  /** One blob written to the store and counted. */
  function Landed(r: Restore, byId: map<string, Row>, k: Key, b: Blob): Restore {
    var known := k.asset in byId;
    Restore(r.store[k := b], r.count + 1, r.bytes + |b|,
            r.verified + (if known then 1 else 0), r.unverified + (if known then 0 else 1))
  }

  predicate Within(refs: seq<Key>, files: Store) { forall i :: 0 <= i < |refs| ==> refs[i] in files }

  function RestoreOf(files: Store, refs: seq<Key>, byId: map<string, Row>, target: Store, order: seq<nat>): Restore
    requires Within(refs, files) && InRange(order, |refs|)
  {
    if order == [] then Restore(target, 0, 0, 0, 0) else
      var k := refs[order[|order| - 1]];
      Landed(RestoreOf(files, refs, byId, target, order[..|order| - 1]), byId, k, files[k])
  }

  /** The bundle's tree walked in any order: each of its blobs listed once. */
  predicate Lists(refs: seq<Key>, files: Store) {
    Within(refs, files) && (forall k <- files :: k in refs)
    && forall i, j :: 0 <= i < j < |refs| ==> refs[i] != refs[j]
  }

  /** The blobs the items in `order` name. */
  function Part(files: Store, refs: seq<Key>, order: seq<nat>): Store
    requires Within(refs, files) && InRange(order, |refs|)
  {
    if order == [] then map[] else
      var k := refs[order[|order| - 1]];
      Part(files, refs, order[..|order| - 1])[k := files[k]]
  }

  lemma {:induction false} PartHolds(files: Store, refs: seq<Key>, order: seq<nat>, k: Key)
    requires Within(refs, files) && InRange(order, |refs|)
    ensures k in Part(files, refs, order) <==> exists i :: 0 <= i < |order| && refs[order[i]] == k
    ensures k in Part(files, refs, order) ==> k in files && Part(files, refs, order)[k] == files[k]
  {
    if order != [] {
      var n := |order| - 1;
      PartHolds(files, refs, order[..n], k);
      if i :| 0 <= i < |order| && refs[order[i]] == k && i != n {
        assert refs[order[..n][i]] == k;
      }
    }
  }

  /** The blobs without a row. */
  function Rowless(m: Store, byId: map<string, Row>): set<Key> { set k <- m | k.asset !in byId }

  lemma RowlessMore(m: Store, byId: map<string, Row>, k: Key, b: Blob)
    requires k !in m
    ensures |Rowless(m[k := b], byId)| == |Rowless(m, byId)| + if k.asset in byId then 0 else 1
  {
    var more := if k.asset in byId then {} else {k};
    assert Rowless(m[k := b], byId) == Rowless(m, byId) + more && k !in Rowless(m, byId);
  }

  lemma {:induction false} RestoreHolds(files: Store, refs: seq<Key>, byId: map<string, Row>, target: Store,
                                        order: seq<nat>)
    requires Lists(refs, files) && InRange(order, |refs|) && Distinct(order)
    ensures var r := RestoreOf(files, refs, byId, target, order);
      && r.store == target + Part(files, refs, order) && r.bytes == Total(Part(files, refs, order))
      && r.count == |order| == r.verified + r.unverified
      && r.unverified == |Rowless(Part(files, refs, order), byId)|
  {
    if order == [] {
      assert target + map[] == target && Rowless(map[], byId) == {};
    } else {
      var n := |order| - 1;
      var k, before := refs[order[n]], order[..n];
      RestoreHolds(files, refs, byId, target, before);
      NotYet(files, refs, order);
      hide Lists, Total, Rowless;
      RowlessMore(Part(files, refs, before), byId, k, files[k]);
      TotalAdds(Part(files, refs, before), k, files[k]);
      Overlaid(target, Part(files, refs, before), k, files[k]);
    }
  }

  lemma NotYet(files: Store, refs: seq<Key>, order: seq<nat>)
    requires Lists(refs, files) && InRange(order, |refs|) && Distinct(order) && order != []
    ensures var n := |order| - 1; refs[order[n]] !in Part(files, refs, order[..n])
  {
    var n := |order| - 1;
    PartHolds(files, refs, order[..n], refs[order[n]]);
    forall i | 0 <= i < n ensures refs[order[..n][i]] != refs[order[n]] {
      assert order[i] != order[n];
    }
  }

  lemma Overlaid(under: Store, over: Store, k: Key, b: Blob)
    ensures (under + over)[k := b] == under + over[k := b]
  {}

  lemma PartIsAll(files: Store, refs: seq<Key>, order: seq<nat>)
    requires Lists(refs, files) && InRange(order, |refs|) && forall i: nat :: i < |refs| ==> i in order
    ensures Part(files, refs, order) == files
  {
    forall k ensures k in Part(files, refs, order) <==> k in files {
      PartHolds(files, refs, order, k);
      if k in files {
        var i :| 0 <= i < |refs| && refs[i] == k;
        assert i in order;
      }
    }
    forall k | k in files ensures Part(files, refs, order)[k] == files[k] { PartHolds(files, refs, order, k); }
  }

  /**
  Restoring a bundle, whatever order its tree is listed in and its copies settle in: once nothing is in flight it has
  resolved exactly when every read and write went through and every blob passes its check, and then the target is its
  old self overlaid with the bundle, every blob counted once.
  */
  lemma RestoreExact(files: Store, refs: seq<Key>, rows: seq<Row>, sha: Blob -> string, strict: bool, target: Store,
                     copies: nat -> bool, good: nat -> bool, order: seq<nat>)
    requires Lists(refs, files) && Judged(RowsById(rows), sha, strict, files, refs, copies, good)
    requires Idle(Fanned(|refs|, good, order))
    ensures var p := Fanned(|refs|, good, order);
      && (Resolved(p) <==> (forall i: nat :: i < |refs| ==> copies(i))
                           && forall k <- files :: Passes(RowsById(rows), sha, strict, k, files[k]))
      && (p.rejected <==> !Resolved(p))
      && (Resolved(p) ==>
            && InRange(p.done, |refs|)
            && var r := RestoreOf(files, refs, RowsById(rows), target, p.done);
               && r.store == target + files && r.count == |refs| == r.verified + r.unverified
               && r.bytes == Total(files) && r.unverified == |Rowless(files, RowsById(rows))|)
  {
    hide RowsById, Run, Passes, Resolved, Idle;
    var n, c, byId := |refs|, ASSET_COPY_CONCURRENCY, RowsById(rows);
    var p := Run(Start(n, c), n, good, order);
    ResolvedIff(n, c, good, order);
    AllPass(files, refs, byId, sha, strict, copies, good);
    if Resolved(p) {
      EachOnce(n, c, good, order);
      forall i | 0 <= i < |p.done| ensures p.done[i] < n { assert p.done[i] in p.done; }
      FullLength(p.done, n);
      RestoreHolds(files, refs, byId, target, p.done);
      PartIsAll(files, refs, p.done);
    }
  }

  /** One item of a restore goes well when its file is read and written, and then passes. */
  ghost predicate Judged(byId: map<string, Row>, sha: Blob -> string, strict: bool, files: Store, refs: seq<Key>,
                         copies: nat -> bool, good: nat -> bool)
    requires Within(refs, files)
  {
    forall i: nat :: i < |refs| ==> good(i) == (copies(i) && Passes(byId, sha, strict, refs[i], files[refs[i]]))
  }

  /** The map has no ids but the rows'. */
  lemma {:induction false} RowsByIdOnly(rows: seq<Row>, id: string)
    ensures id in RowsById(rows) <==> exists r <- rows :: r.id == id
  {
    if rows != [] {
      RowsByIdOnly(rows[..|rows| - 1], id);
      assert rows == rows[..|rows| - 1] + [rows[|rows| - 1]];
    }
  }

  /**
  A restore does not resolve over a blob that is not its row's, in hash or in size, nor, when it is strict, over one
  that has no row; when it is not, a blob without a row is no obstacle.
  */
  lemma MismatchAborts(files: Store, refs: seq<Key>, rows: seq<Row>, sha: Blob -> string, strict: bool,
                       copies: nat -> bool, good: nat -> bool, order: seq<nat>, k: Key)
    requires Lists(refs, files) && Judged(RowsById(rows), sha, strict, files, refs, copies, good) && UniqueIds(rows)
    requires Idle(Fanned(|refs|, good, order)) && k in files
    ensures var p := Fanned(|refs|, good, order);
      && ((exists r <- rows :: r.id == k.asset && (sha(files[k]) != r.sha256 || |files[k]| != r.size)) ==> p.rejected)
      && (strict && (forall r <- rows :: r.id != k.asset) ==> p.rejected)
      && (!strict && (forall r <- rows, j <- files :: r.id != j.asset) ==>
            (Resolved(p) <==> forall i: nat :: i < |refs| ==> copies(i)))
  {
    hide Run, Idle, Resolved, Judged, RowsById;
    RestoreExact(files, refs, rows, sha, strict, map[], copies, good, order);
    forall j | j in files ensures j.asset in RowsById(rows) <==> exists r <- rows :: r.id == j.asset {
      RowsByIdOnly(rows, j.asset);
    }
    if r :| r in rows && r.id == k.asset && (sha(files[k]) != r.sha256 || |files[k]| != r.size) {
      var i: nat :| i < |rows| && rows[i] == r;
      RowsByIdFinds(rows, i);
      assert !Passes(RowsById(rows), sha, strict, k, files[k]);
    }
    if strict && forall r <- rows :: r.id != k.asset { assert !Passes(RowsById(rows), sha, strict, k, files[k]); }
  }

  /**
  The items a restore had written when it stood at `p`: those finished, those that failed their check, since the write
  comes first, and any others begun.
  */
  ghost predicate Wrote(p: Pool, copies: nat -> bool, wrote: seq<nat>) {
    && (forall i <- p.done :: i in wrote)
    && (forall w <- p.workers :: w.Failed? && copies(w.index) ==> w.index in wrote)
    && (forall i <- wrote :: i in p.started)
  }

  /**
  A restore cut off at any point, rejected or not, leaves the target overlaid with the blobs it had written, and can be
  run again: whatever the new listing and the order of its copies, it resolves by the same condition and then the target
  is its old self overlaid with the whole bundle, as if the first run had not been.
  */
  lemma RerunIsSafe(files: Store, refs: seq<Key>, again: seq<Key>, rows: seq<Row>, sha: Blob -> string, strict: bool,
                    target: Store, copies: nat -> bool, good: nat -> bool, order: seq<nat>, wrote: seq<nat>,
                    copies': nat -> bool, good': nat -> bool, order': seq<nat>)
    requires Lists(refs, files) && Judged(RowsById(rows), sha, strict, files, refs, copies, good)
    requires Wrote(Fanned(|refs|, good, order), copies, wrote)
    requires Lists(again, files) && Judged(RowsById(rows), sha, strict, files, again, copies', good')
    requires Idle(Fanned(|again|, good', order'))
    ensures InRange(wrote, |refs|)
    ensures var (left, p) := (target + Part(files, refs, wrote), Fanned(|again|, good', order'));
      && (forall i <- Fanned(|refs|, good, order).done ::
            i < |refs| && refs[i] in left && left[refs[i]] == files[refs[i]])
      && (forall k :: k !in files ==> (k in left <==> k in target) && (k in target ==> left[k] == target[k]))
      && (Resolved(p) <==> (forall i: nat :: i < |again| ==> copies'(i))
                           && forall k <- files :: Passes(RowsById(rows), sha, strict, k, files[k]))
      && (Resolved(p) ==>
            && InRange(p.done, |again|)
            && RestoreOf(files, again, RowsById(rows), left, p.done).store == target + files)
  {
    hide RowsById, Run, Passes, Resolved, Idle, Judged, Part, RestoreOf;
    BegunInRange(|refs|, good, order);
    forall i | 0 <= i < |wrote| ensures wrote[i] < |refs| { assert wrote[i] in wrote; }
    LeftBehind(files, refs, target, wrote);
    RestoreExact(files, again, rows, sha, strict, target + Part(files, refs, wrote), copies', good', order');
  }

  /** A target with some of the bundle's blobs written over it. */
  lemma LeftBehind(files: Store, refs: seq<Key>, target: Store, wrote: seq<nat>)
    requires Within(refs, files) && InRange(wrote, |refs|)
    ensures var left := target + Part(files, refs, wrote);
      && (forall i <- wrote :: refs[i] in left && left[refs[i]] == files[refs[i]])
      && (forall k :: k !in files ==> (k in left <==> k in target) && (k in target ==> left[k] == target[k]))
      && left + files == target + files
  {
    var left := target + Part(files, refs, wrote);
    forall k ensures k in Part(files, refs, wrote) ==> k in files && Part(files, refs, wrote)[k] == files[k] {
      PartHolds(files, refs, wrote, k);
    }
    forall i | i in wrote ensures refs[i] in left && left[refs[i]] == files[refs[i]] {
      var j :| 0 <= j < |wrote| && wrote[j] == i;
      PartHolds(files, refs, wrote, refs[i]);
    }
    hide Part;
    assert left + files == target + files;
  }

  lemma BegunInRange(n: nat, good: nat -> bool, order: seq<nat>)
    ensures forall i <- Fanned(n, good, order).started :: i < n
  {
    RunOk(n, ASSET_COPY_CONCURRENCY, good, order);
  }

  lemma AllPass(files: Store, refs: seq<Key>, byId: map<string, Row>, sha: Blob -> string, strict: bool,
                copies: nat -> bool, good: nat -> bool)
    requires Lists(refs, files) && Judged(byId, sha, strict, files, refs, copies, good)
    ensures (forall i: nat :: i < |refs| ==> good(i)) <==>
      (forall i: nat :: i < |refs| ==> copies(i)) && (forall k <- files :: Passes(byId, sha, strict, k, files[k]))
  {
    hide Passes;
    if forall i: nat :: i < |refs| ==> good(i) {
      forall k | k in files ensures Passes(byId, sha, strict, k, files[k]) {
        var i: nat :| i < |refs| && refs[i] == k;
        assert good(i);
      }
      forall i: nat | i < |refs| ensures copies(i) { assert good(i); }
    }
  }

  /**
  The round trip: a backup that resolved, restored over the same rows. It resolves exactly when every read and write
  went through and every copied blob still has the hash and size its row records; then the target holds exactly the
  copied blobs beside what it had, every one verified.
  */
  lemma BackupRoundTrip(rows: seq<Row>, source: Store, dumped: nat -> bool, dumping: seq<nat>,
                        refs: seq<Key>, sha: Blob -> string, strict: bool, target: Store,
                        copies: nat -> bool, good: nat -> bool, order: seq<nat>)
    requires UniqueIds(rows)
    requires Resolved(Fanned(|rows|, dumped, dumping))
    requires var done := Fanned(|rows|, dumped, dumping).done;
      InRange(done, |rows|) && Lists(refs, DumpOf(rows, source, done).files)
    requires var files := DumpOf(rows, source, Fanned(|rows|, dumped, dumping).done).files;
      Judged(RowsById(rows), sha, strict, files, refs, copies, good)
    requires Idle(Fanned(|refs|, good, order))
    ensures var p := Fanned(|refs|, good, order);
      && (Resolved(p) <==>
            && (forall i: nat :: i < |refs| ==> copies(i))
            && forall i: nat :: i < |rows| && KeyOf(rows[i]) in source ==> Intact(rows[i], sha, source))
      && (Resolved(p) ==>
            && InRange(p.done, |refs|)
            && var d := DumpOf(rows, source, Fanned(|rows|, dumped, dumping).done);
               var r := RestoreOf(d.files, refs, RowsById(rows), target, p.done);
               && r.store == target + d.files && r.verified == r.count == |refs| && r.unverified == 0
               && r.bytes == d.bytes)
  {
    hide Run, RowsById, DumpOf, RestoreOf, Resolved, Idle, Start;
    var done := Fanned(|rows|, dumped, dumping).done;
    var files := DumpOf(rows, source, done).files;
    DumpComplete(rows, source, dumped, dumping);
    RestoreExact(files, refs, rows, sha, strict, target, copies, good, order);
    forall i: nat | i < |rows| ensures rows[i].id in RowsById(rows) && RowsById(rows)[rows[i].id] == rows[i] {
      RowsByIdFinds(rows, i);
    }
    forall k | k in files ensures k.asset in RowsById(rows) {
      var i: nat :| i < |rows| && KeyOf(rows[i]) == k;
    }
    assert Rowless(files, RowsById(rows)) == {};
    PassesIff(rows, source, files, sha, strict);
  }

  predicate Intact(r: Row, sha: Blob -> string, source: Store)
    requires KeyOf(r) in source
  {
    sha(source[KeyOf(r)]) == r.sha256 && |source[KeyOf(r)]| == r.size
  }

  lemma PassesIff(rows: seq<Row>, source: Store, files: Store, sha: Blob -> string, strict: bool)
    requires UniqueIds(rows)
    requires forall k :: k in files <==> k in source && k in Keys(rows)
    requires forall k <- files :: files[k] == source[k]
    ensures (forall k <- files :: Passes(RowsById(rows), sha, strict, k, files[k]))
        <==> forall i: nat :: i < |rows| && KeyOf(rows[i]) in source ==> Intact(rows[i], sha, source)
  {
    hide RowsById;
    forall i: nat | i < |rows| ensures rows[i].id in RowsById(rows) && RowsById(rows)[rows[i].id] == rows[i] {
      RowsByIdFinds(rows, i);
    }
    if forall k <- files :: Passes(RowsById(rows), sha, strict, k, files[k]) {
      forall i: nat | i < |rows| && KeyOf(rows[i]) in source ensures Intact(rows[i], sha, source) {
        assert KeyOf(rows[i]) in files;
      }
    }
    if forall i: nat :: i < |rows| && KeyOf(rows[i]) in source ==> Intact(rows[i], sha, source) {
      forall k | k in files ensures Passes(RowsById(rows), sha, strict, k, files[k]) {
        var i: nat :| i < |rows| && KeyOf(rows[i]) == k;
        assert Intact(rows[i], sha, source);
      }
    }
  }
}
