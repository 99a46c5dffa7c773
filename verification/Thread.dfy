/** How a task thread folds: contiguous rows of machinery gathered into groups between what people said. */
module Thread {
  import opened Prelude

  /** A row as the fold rule sees it; `runId` and `kind` come from its structural payload. */
  datatype Row = Row(
    id: string, contentType: string, runId: Option<string>, kind: Option<string>, status: Option<string>)

  datatype FoldContext = FoldContext(activeRunId: Option<string>, retryableRunId: Option<string>)

  datatype View = Conversation | Detailed

  /** Only run and system rows are events; an unknown content type reads as conversation. */
  predicate IsInlineEvent(contentType: string) { contentType == "run" || contentType == "system" }

  predicate IsRunFailed(r: Row) { r.contentType == "system" && r.kind == Some("run_failed") }

  predicate IsFoldable(r: Row, ctx: FoldContext) {
    IsInlineEvent(r.contentType)
    && !(r.contentType == "run" && r.runId.Some? && (r.runId == ctx.activeRunId || r.runId == ctx.retryableRunId))
  }

  predicate RunErrored(r: Row, failed: set<string>) {
    if r.status.Some? then r.status.value == "failed" || r.status.value == "timed_out"
    else r.runId.Some? && r.runId.value in failed
  }

  /**
  The rule: a row stays in the conversation exactly when it is neither a run nor a system row, or is the run executing
  now or the one that can be retried.
  */
  lemma FoldRule(r: Row, ctx: FoldContext)
    ensures !IsFoldable(r, ctx) <==>
      || (r.contentType != "run" && r.contentType != "system")
      || (r.contentType == "run" && r.runId.Some? && r.runId == ctx.activeRunId)
      || (r.contentType == "run" && r.runId.Some? && r.runId == ctx.retryableRunId)
  {}

  /** The runs a `run_failed` notice names. */
  function FailedIds(rows: seq<Row>): set<string> {
    set i | 0 <= i < |rows| && IsRunFailed(rows[i]) && rows[i].runId.Some? && rows[i].runId.value != ""
      :: rows[i].runId.value
  }

  method FailedRunIds(rows: seq<Row>) returns (ids: set<string>)
    ensures ids == FailedIds(rows)
  {
    ids := {};
    for i := 0 to |rows|
      invariant ids == FailedIds(rows[..i])
    {
      assert rows[..i + 1] == rows[..i] + [rows[i]];
      if IsRunFailed(rows[i]) && rows[i].runId.Some? && rows[i].runId.value != "" {
        ids := ids + {rows[i].runId.value};
      }
    }
    assert rows[..|rows|] == rows;
  }

  /** A notice in the thread says that this run failed. */
  predicate Noticed(rows: seq<Row>, runId: string) {
    exists n <- rows :: n.contentType == "system" && n.kind == Some("run_failed") && n.runId == Some(runId)
  }

  /**
  A run's own status decides whether it failed, whatever notices there are; without one it failed exactly when it has an
  id and some notice in the thread names it.
  */
  lemma FailureRule(r: Row, rows: seq<Row>)
    ensures var errored := RunErrored(r, FailedIds(rows));
      && (r.status.Some? ==> (errored <==> r.status == Some("failed") || r.status == Some("timed_out")))
      && (r.status == None ==>
            (errored <==> r.runId.Some? && r.runId.value != "" && Noticed(rows, r.runId.value)))
  {
    if r.status == None && r.runId.Some? && Noticed(rows, r.runId.value) {
      var n :| n in rows && n.contentType == "system" && n.kind == Some("run_failed") && n.runId == r.runId;
      var i :| 0 <= i < |rows| && rows[i] == n;
      assert IsRunFailed(rows[i]);
    }
  }

  // ---------------------------------------------------------------- summaries

  datatype Summary = Summary(total: nat, failedRuns: nat, runs: nat, changes: nat)

  function Count(rows: seq<Row>, p: Row -> bool): nat {
    if rows == [] then 0 else Count(rows[..|rows| - 1], p) + if p(rows[|rows| - 1]) then 1 else 0
  }

  /** What a group says about itself: each number counts its own kind of row. */
  function SummaryOf(rows: seq<Row>, failed: set<string>): Summary {
    Summary(|rows|,
            Count(rows, (r: Row) => r.contentType == "run" && RunErrored(r, failed)),
            Count(rows, (r: Row) => r.contentType == "run" && !RunErrored(r, failed)),
            Count(rows, (r: Row) => r.contentType != "run" && !IsRunFailed(r)))
  }

  method Summarize(rows: seq<Row>, failed: set<string>) returns (s: Summary)
    ensures s == SummaryOf(rows, failed)
  {
    var failedRuns, runs, changes := 0, 0, 0;
    for i := 0 to |rows|
      invariant SummaryOf(rows[..i], failed) == Summary(i, failedRuns, runs, changes)
    {
      assert rows[..i + 1][..i] == rows[..i];
      var row := rows[i];
      if row.contentType == "run" {
        if RunErrored(row, failed) { failedRuns := failedRuns + 1; } else { runs := runs + 1; }
      } else if IsRunFailed(row) {
      } else {
        changes := changes + 1;
      }
    }
    assert rows[..|rows|] == rows;
    s := Summary(|rows|, failedRuns, runs, changes);
  }

  /** Every row of a group is accounted for once: failed, other runs, changes, or a failure notice. */
  lemma {:induction false} SummaryAccounts(rows: seq<Row>, failed: set<string>)
    ensures var s := SummaryOf(rows, failed);
      s.failedRuns + s.runs + s.changes + Count(rows, IsRunFailed) == s.total
  {
    if rows != [] { SummaryAccounts(rows[..|rows| - 1], failed); }
  }

  // ------------------------------------------------------------------ folding

  datatype Item = Single(key: string, row: Row) | Group(key: string, rows: seq<Row>, summary: Summary)

  function SingleOf(r: Row): Item { Single("row:" + r.id, r) }

  function GroupOf(rows: seq<Row>, failed: set<string>): Item
    requires rows != []
  {
    Group("group:" + rows[0].id, rows, SummaryOf(rows, failed))
  }

  function RowsOf(item: Item): seq<Row> { match item case Single(_, r) => [r] case Group(_, rows, _) => rows }

  function Flatten(items: seq<Item>): seq<Row> {
    if items == [] then [] else
      Flatten(items[..|items| - 1]) + RowsOf(items[|items| - 1])
  }

  predicate ItemOk(item: Item, ctx: FoldContext, failed: set<string>) {
    match item
    case Single(_, r) => !IsFoldable(r, ctx) && item == SingleOf(r)
    case Group(_, rows, _) =>
      rows != [] && item == GroupOf(rows, failed) && forall i :: 0 <= i < |rows| ==> IsFoldable(rows[i], ctx)
  }

  /** The items show exactly these rows in order, and their groups are the maximal runs of foldable rows. */
  predicate Folds(items: seq<Item>, rows: seq<Row>, ctx: FoldContext, failed: set<string>) {
    && Flatten(items) == rows
    && (forall i :: 0 <= i < |items| ==> ItemOk(items[i], ctx, failed))
    && forall i :: 0 <= i < |items| - 1 ==> items[i].Single? || items[i + 1].Single?
  }

  lemma FoldsMore(items: seq<Item>, rows: seq<Row>, item: Item, ctx: FoldContext, failed: set<string>)
    requires Folds(items, rows, ctx, failed) && ItemOk(item, ctx, failed)
    requires items == [] || items[|items| - 1].Single? || item.Single?
    ensures Folds(items + [item], rows + RowsOf(item), ctx, failed)
  {
    hide ItemOk;
    assert (items + [item])[..|items|] == items;
  }

  lemma SingleOk(r: Row, ctx: FoldContext, failed: set<string>)
    requires !IsFoldable(r, ctx)
    ensures ItemOk(SingleOf(r), ctx, failed)
  {}

  lemma GroupOk(rows: seq<Row>, ctx: FoldContext, failed: set<string>)
    requires rows != [] && forall i :: 0 <= i < |rows| ==> IsFoldable(rows[i], ctx)
    ensures ItemOk(GroupOf(rows, failed), ctx, failed)
  {}

  lemma FoldsNothing(ctx: FoldContext, failed: set<string>)
    ensures Folds([], [], ctx, failed)
  {}

  lemma RowsOfBoth(r: Row, rows: seq<Row>, failed: set<string>)
    requires rows != []
    ensures RowsOf(SingleOf(r)) == [r] && RowsOf(GroupOf(rows, failed)) == rows
  {}

  lemma Slices(rows: seq<Row>, i: nat, j: nat)
    requires i < j <= |rows|
    ensures rows[..i] + rows[i..j] == rows[..j] && (j == i + 1 ==> rows[i..j] == [rows[i]])
  {}

  /** The inner loop: on to the first row from `start` that does not fold. */
  method EndOfRun(rows: seq<Row>, start: nat, ctx: FoldContext) returns (i: nat)
    requires start < |rows| && IsFoldable(rows[start], ctx)
    ensures start < i <= |rows| && (i < |rows| ==> !IsFoldable(rows[i], ctx))
    ensures forall j :: 0 <= j < i - start ==> IsFoldable(rows[start..i][j], ctx)
  {
    i := start;
    while i < |rows| && IsFoldable(rows[i], ctx)
      invariant start <= i <= |rows| && forall j :: start <= j < i ==> IsFoldable(rows[j], ctx)
    {
      i := i + 1;
    }
  }

  function DetailedItems(rows: seq<Row>): (items: seq<Item>)
    ensures |items| == |rows| && forall i :: 0 <= i < |rows| ==> items[i] == SingleOf(rows[i])
  {
    seq(|rows|, i requires 0 <= i < |rows| => SingleOf(rows[i]))
  }

  /** `buildThreadItems`. */
  method BuildThreadItems(rows: seq<Row>, view: View, ctx: FoldContext) returns (items: seq<Item>)
    ensures view == Detailed ==> |items| == |rows| && forall i :: 0 <= i < |rows| ==> items[i] == SingleOf(rows[i])
    ensures view == Conversation ==> Folds(items, rows, ctx, FailedIds(rows))
  {
    hide FailedIds, SummaryOf, Folds, ItemOk, IsFoldable, RowsOf, DetailedItems;
    if view == Detailed { return DetailedItems(rows); }
    var failed := FailedRunIds(rows);
    items := [];
    FoldsNothing(ctx, failed);
    var i := 0;
    while i < |rows|
      invariant 0 <= i <= |rows| && Folds(items, rows[..i], ctx, failed)
      invariant items != [] && items[|items| - 1].Group? && i < |rows| ==> !IsFoldable(rows[i], ctx)
    {
      if !IsFoldable(rows[i], ctx) {
        SingleOk(rows[i], ctx, failed);
        FoldsMore(items, rows[..i], SingleOf(rows[i]), ctx, failed);
        RowsOfBoth(rows[i], [rows[i]], failed);
        Slices(rows, i, i + 1);
        items := items + [SingleOf(rows[i])];
        i := i + 1;
      } else {
        var start := i;
        i := EndOfRun(rows, start, ctx);
        var group := rows[start..i];
        var summary := Summarize(group, failed);
        var item := Group("group:" + group[0].id, group, summary);
        GroupOk(group, ctx, failed);
        RowsOfBoth(rows[start], group, failed);
        FoldsMore(items, rows[..start], item, ctx, failed);
        Slices(rows, start, i);
        items := items + [item];
      }
    }
    assert rows[..i] == rows;
  }

  // --------------------------------------------------------- what that implies

  lemma FoldsShorter(items: seq<Item>, rows: seq<Row>, ctx: FoldContext, failed: set<string>)
    requires Folds(items, rows, ctx, failed) && items != []
    ensures var last := RowsOf(items[|items| - 1]);
      && 0 < |last| <= |rows| && rows[|rows| - |last|..] == last
      && Folds(items[..|items| - 1], rows[..|rows| - |last|], ctx, failed)
  {
    assert ItemOk(items[|items| - 1], ctx, failed);
  }

  /** The row before a last group is not foldable: the group is maximal. */
  lemma BeforeGroup(items: seq<Item>, rows: seq<Row>, ctx: FoldContext, failed: set<string>)
    requires Folds(items, rows, ctx, failed) && items != [] && items[|items| - 1].Group?
    requires |RowsOf(items[|items| - 1])| < |rows|
    ensures !IsFoldable(rows[|rows| - |RowsOf(items[|items| - 1])| - 1], ctx)
  {
    FoldsShorter(items, rows, ctx, failed);
    var fewer, left := items[..|items| - 1], rows[..|rows| - |RowsOf(items[|items| - 1])|];
    assert fewer != [];
    FoldsShorter(fewer, left, ctx, failed);
    assert fewer[|fewer| - 1] == items[|items| - 2];
    assert ItemOk(fewer[|fewer| - 1], ctx, failed);
    assert left[|left| - 1] == left[|left| - 1..][0];
  }

  lemma LastRows(items: seq<Item>, rows: seq<Row>, ctx: FoldContext, failed: set<string>)
    requires Folds(items, rows, ctx, failed) && items != []
    ensures var (n, last) := (|RowsOf(items[|items| - 1])|, items[|items| - 1]);
      && 0 < n <= |rows| && (last.Group? <==> IsFoldable(rows[|rows| - 1], ctx)) && (last.Single? ==> n == 1)
      && (last.Group? ==> forall i :: |rows| - n <= i < |rows| ==> IsFoldable(rows[i], ctx))
  {
    FoldsShorter(items, rows, ctx, failed);
    var n, last := |RowsOf(items[|items| - 1])|, items[|items| - 1];
    assert ItemOk(last, ctx, failed);
    forall i | |rows| - n <= i < |rows| ensures rows[i] == RowsOf(last)[i - (|rows| - n)] {
      assert rows[i] == rows[|rows| - n..][i - (|rows| - n)];
    }
  }

  /** The last item of a folding is decided by the rows. */
  lemma LastDecided(a: seq<Item>, b: seq<Item>, rows: seq<Row>, ctx: FoldContext, failed: set<string>)
    requires Folds(a, rows, ctx, failed) && Folds(b, rows, ctx, failed) && a != [] && b != []
    ensures |RowsOf(a[|a| - 1])| <= |RowsOf(b[|b| - 1])|
  {
    LastRows(a, rows, ctx, failed);
    LastRows(b, rows, ctx, failed);
    if |RowsOf(b[|b| - 1])| < |RowsOf(a[|a| - 1])| {
      BeforeGroup(b, rows, ctx, failed);
    }
  }

  lemma LastSame(a: seq<Item>, b: seq<Item>, rows: seq<Row>, ctx: FoldContext, failed: set<string>)
    requires Folds(a, rows, ctx, failed) && Folds(b, rows, ctx, failed) && a != [] && b != []
    ensures a[|a| - 1] == b[|b| - 1]
  {
    hide Flatten, SummaryOf;
    LastDecided(a, b, rows, ctx, failed);
    LastDecided(b, a, rows, ctx, failed);
    LastRows(a, rows, ctx, failed);
    LastRows(b, rows, ctx, failed);
    FoldsShorter(a, rows, ctx, failed);
    FoldsShorter(b, rows, ctx, failed);
    assert ItemOk(a[|a| - 1], ctx, failed) && ItemOk(b[|b| - 1], ctx, failed);
  }

  lemma NoRows(a: seq<Item>, b: seq<Item>, rows: seq<Row>, ctx: FoldContext, failed: set<string>)
    requires Folds(a, rows, ctx, failed) && Folds(b, rows, ctx, failed) && (a == [] || b == [])
    ensures a == b
  {
    if a != [] { FoldsShorter(a, rows, ctx, failed); }
    if b != [] { FoldsShorter(b, rows, ctx, failed); }
  }

  /** A thread folds in one way only. */
  lemma {:induction false} FoldUnique(a: seq<Item>, b: seq<Item>, rows: seq<Row>, ctx: FoldContext, failed: set<string>)
    requires Folds(a, rows, ctx, failed) && Folds(b, rows, ctx, failed)
    ensures a == b
    decreases |a|
  {
    hide Folds;
    if a == [] || b == [] {
      NoRows(a, b, rows, ctx, failed);
    } else {
      LastSame(a, b, rows, ctx, failed);
      FoldsShorter(a, rows, ctx, failed);
      FoldsShorter(b, rows, ctx, failed);
      FoldUnique(a[..|a| - 1], b[..|b| - 1], rows[..|rows| - |RowsOf(a[|a| - 1])|], ctx, failed);
      assert a == a[..|a| - 1] + [a[|a| - 1]] && b == b[..|b| - 1] + [b[|b| - 1]];
    }
  }

  // ------------------------------------------------------------ stable keys

  function Keys(items: seq<Item>): seq<string> { seq(|items|, i requires 0 <= i < |items| => items[i].key) }

  /** One more row: it joins the last group, opens one, or stands alone. */
  function Grown(items: seq<Item>, r: Row, ctx: FoldContext, failed: set<string>): seq<Item> {
    if !IsFoldable(r, ctx) then items + [SingleOf(r)]
    else if items != [] && items[|items| - 1].Group? then
      items[..|items| - 1] + [GroupOf(items[|items| - 1].rows + [r], failed)]
    else items + [GroupOf([r], failed)]
  }

  lemma KeysMore(items: seq<Item>, item: Item)
    ensures Keys(items + [item]) == Keys(items) + [item.key]
  {}

  lemma GroupGrows(items: seq<Item>, rows: seq<Row>, r: Row, ctx: FoldContext, failed: set<string>)
    requires Folds(items, rows, ctx, failed) && IsFoldable(r, ctx) && items != [] && items[|items| - 1].Group?
    ensures Folds(Grown(items, r, ctx, failed), rows + [r], ctx, failed)
    ensures Keys(items) == Keys(Grown(items, r, ctx, failed))
  {
    hide SummaryOf, Flatten;
    var fewer, last := items[..|items| - 1], items[|items| - 1];
    FoldsShorter(items, rows, ctx, failed);
    assert ItemOk(last, ctx, failed);
    var left := rows[..|rows| - |last.rows|];
    assert left + last.rows == rows;
    var group := GroupOf(last.rows + [r], failed);
    assert ItemOk(group, ctx, failed);
    FoldsMore(fewer, left, group, ctx, failed);
    assert left + (last.rows + [r]) == left + last.rows + [r];
    KeysMore(fewer, last);
    KeysMore(fewer, group);
    assert items == fewer + [last];
  }

  lemma GrownFolds(items: seq<Item>, rows: seq<Row>, r: Row, ctx: FoldContext, failed: set<string>)
    requires Folds(items, rows, ctx, failed)
    ensures Folds(Grown(items, r, ctx, failed), rows + [r], ctx, failed)
    ensures Keys(items) <= Keys(Grown(items, r, ctx, failed))
  {
    hide SummaryOf, Flatten;
    if !IsFoldable(r, ctx) {
      FoldsMore(items, rows, SingleOf(r), ctx, failed);
      KeysMore(items, SingleOf(r));
    } else if items != [] && items[|items| - 1].Group? {
      GroupGrows(items, rows, r, ctx, failed);
    } else {
      FoldsMore(items, rows, GroupOf([r], failed), ctx, failed);
      KeysMore(items, GroupOf([r], failed));
    }
  }

  /** The same items with their summaries taken against another set of failed runs. */
  function Resummarised(items: seq<Item>, failed: set<string>): seq<Item> {
    seq(|items|, i requires 0 <= i < |items| =>
      match items[i]
      case Single(_, _) => items[i]
      case Group(key, rows, _) => Group(key, rows, SummaryOf(rows, failed)))
  }

  lemma {:induction false} ResummarisedFlattens(items: seq<Item>, failed: set<string>)
    ensures Flatten(Resummarised(items, failed)) == Flatten(items)
  {
    if items != [] {
      var n := |items| - 1;
      ResummarisedFlattens(items[..n], failed);
      assert Resummarised(items, failed)[..n] == Resummarised(items[..n], failed);
    }
  }

  lemma PrefixOf(a: seq<string>, b: seq<string>, c: seq<string>)
    requires a <= b <= c
    ensures a <= c
  {
    assert c[..|a|] == b[..|a|];
  }

  lemma {:induction false} KeysGrow(items: seq<Item>, rows: seq<Row>, more: seq<Row>, later: seq<Item>,
                                    ctx: FoldContext, failed: set<string>)
    requires Folds(items, rows, ctx, failed) && Folds(later, rows + more, ctx, failed)
    ensures Keys(items) <= Keys(later)
    decreases |more|
  {
    hide Folds, Grown, Keys;
    if more == [] {
      assert rows + more == rows;
      FoldUnique(items, later, rows, ctx, failed);
    } else {
      GrownFolds(items, rows, more[0], ctx, failed);
      assert rows + more == (rows + [more[0]]) + more[1..];
      var grown := Grown(items, more[0], ctx, failed);
      KeysGrow(grown, rows + [more[0]], more[1..], later, ctx, failed);
      PrefixOf(Keys(items), Keys(grown), Keys(later));
    }
  }

  /** Appending rows keeps the keys there were, as a prefix, so a group keeps its identity while it grows. */
  lemma KeysStable(items: seq<Item>, rows: seq<Row>, more: seq<Row>, later: seq<Item>, ctx: FoldContext)
    requires Folds(items, rows, ctx, FailedIds(rows)) && Folds(later, rows + more, ctx, FailedIds(rows + more))
    ensures Keys(items) <= Keys(later)
  {
    hide FailedIds, SummaryOf;
    var failed, again := FailedIds(rows + more), Resummarised(items, FailedIds(rows + more));
    ResummarisedFlattens(items, failed);
    assert Folds(again, rows, ctx, failed) by {
      forall i | 0 <= i < |again| ensures ItemOk(again[i], ctx, failed) {
        assert ItemOk(items[i], ctx, FailedIds(rows));
      }
    }
    assert Keys(again) == Keys(items);
    KeysGrow(again, rows, more, later, ctx, failed);
  }

  // -------------------------------------------------- keys across contexts

  /** The key a row gives rise to, if it stands alone or comes first in a group. */
  function KeyAt(rows: seq<Row>, ctx: FoldContext, i: nat): Option<string>
    requires i < |rows|
  {
    if !IsFoldable(rows[i], ctx) then Some("row:" + rows[i].id)
    else if i == 0 || !IsFoldable(rows[i - 1], ctx) then Some("group:" + rows[i].id)
    else None
  }

  function KeysOf(rows: seq<Row>, ctx: FoldContext): seq<string> {
    if rows == [] then [] else
      var key := KeyAt(rows, ctx, |rows| - 1);
      KeysOf(rows[..|rows| - 1], ctx) + if key.Some? then [key.value] else []
  }

  /** Folding built up one row at a time. */
  function Fold(rows: seq<Row>, ctx: FoldContext, failed: set<string>): seq<Item> {
    if rows == [] then [] else Grown(Fold(rows[..|rows| - 1], ctx, failed), rows[|rows| - 1], ctx, failed)
  }

  lemma {:induction false} FoldFolds(rows: seq<Row>, ctx: FoldContext, failed: set<string>)
    ensures Folds(Fold(rows, ctx, failed), rows, ctx, failed)
  {
    FoldsNothing(ctx, failed);
    hide Folds, Grown;
    if rows != [] {
      var before, r := rows[..|rows| - 1], rows[|rows| - 1];
      FoldFolds(before, ctx, failed);
      GrownFolds(Fold(before, ctx, failed), before, r, ctx, failed);
      assert rows == before + [r];
      hide Fold;
    }
  }

  lemma GrownKeys(items: seq<Item>, rows: seq<Row>, r: Row, ctx: FoldContext, failed: set<string>)
    requires Folds(items, rows, ctx, failed)
    ensures var key := KeyAt(rows + [r], ctx, |rows|);
      Keys(Grown(items, r, ctx, failed)) == Keys(items) + if key.Some? then [key.value] else []
  {
    hide SummaryOf, IsFoldable;
    assert items == [] ==> rows == [];
    if items != [] { LastRows(items, rows, ctx, failed); }
    hide Flatten;
    if !IsFoldable(r, ctx) {
      KeysMore(items, SingleOf(r));
    } else if items != [] && items[|items| - 1].Group? {
      GroupGrows(items, rows, r, ctx, failed);
    } else {
      KeysMore(items, GroupOf([r], failed));
    }
  }

  lemma OneMore(before: seq<Row>, r: Row, ctx: FoldContext, failed: set<string>)
    ensures Fold(before + [r], ctx, failed) == Grown(Fold(before, ctx, failed), r, ctx, failed)
    ensures var key := KeyAt(before + [r], ctx, |before|);
      KeysOf(before + [r], ctx) == KeysOf(before, ctx) + if key.Some? then [key.value] else []
  {
    hide Grown, KeyAt;
    assert (before + [r])[..|before|] == before;
  }

  lemma {:induction false} KeysOfFold(rows: seq<Row>, ctx: FoldContext, failed: set<string>)
    ensures Keys(Fold(rows, ctx, failed)) == KeysOf(rows, ctx)
  {
    if rows == [] {
      assert Keys([]) == [];
    } else {
      hide Fold, KeysOf, Folds, Grown, Keys, KeyAt;
      var before, r := rows[..|rows| - 1], rows[|rows| - 1];
      assert rows == before + [r];
      OneMore(before, r, ctx, failed);
      KeysOfFold(before, ctx, failed);
      FoldFolds(before, ctx, failed);
      GrownKeys(Fold(before, ctx, failed), before, r, ctx, failed);
    }
  }

  lemma {:induction false} InKeysOf(rows: seq<Row>, ctx: FoldContext, key: string)
    ensures key in KeysOf(rows, ctx) <==> exists i: nat :: i < |rows| && KeyAt(rows, ctx, i) == Some(key)
  {
    if rows != [] {
      var n := |rows| - 1;
      InKeysOf(rows[..n], ctx, key);
      assert forall i: nat :: i < n ==> KeyAt(rows[..n], ctx, i) == KeyAt(rows, ctx, i);
      hide KeyAt;
      if i: nat :| i < |rows| && KeyAt(rows, ctx, i) == Some(key) && i != n {
        assert KeyAt(rows[..n], ctx, i) == Some(key);
      }
      if i: nat :| i < n && KeyAt(rows[..n], ctx, i) == Some(key) {
        assert KeyAt(rows, ctx, i) == Some(key);
      }
    }
  }

  predicate UniqueIds(rows: seq<Row>) { forall i, j :: 0 <= i < j < |rows| ==> rows[i].id != rows[j].id }

  lemma KeySpells(a: string, b: string)
    ensures "row:" + a == "row:" + b <==> a == b
    ensures "group:" + a == "group:" + b <==> a == b
    ensures "row:" + a != "group:" + b
  {
    assert ("row:" + a)[4..] == a && ("row:" + b)[4..] == b && ("group:" + a)[6..] == a && ("group:" + b)[6..] == b;
    assert ("row:" + a)[0] == 'r' && ("group:" + b)[0] == 'g';
  }

  /** Two rows of a thread never share a key. */
  lemma KeyOnce(rows: seq<Row>, ctx: FoldContext, ctx': FoldContext, i: nat, j: nat)
    requires UniqueIds(rows) && i < |rows| && j < |rows| && i != j && KeyAt(rows, ctx, i).Some?
    ensures KeyAt(rows, ctx, i) != KeyAt(rows, ctx', j)
  {
    KeySpells(rows[i].id, rows[j].id);
    KeySpells(rows[j].id, rows[i].id);
    hide IsFoldable;
  }

  lemma {:induction false} KeysOfDistinct(rows: seq<Row>, ctx: FoldContext)
    requires UniqueIds(rows)
    ensures var keys := KeysOf(rows, ctx); forall i, j :: 0 <= i < j < |keys| ==> keys[i] != keys[j]
  {
    if rows != [] {
      var n := |rows| - 1;
      KeysOfDistinct(rows[..n], ctx);
      var key := KeyAt(rows, ctx, n);
      if key.Some? {
        InKeysOf(rows[..n], ctx, key.value);
        forall i: nat | i < n ensures KeyAt(rows[..n], ctx, i) != key {
          KeyOnce(rows, ctx, ctx, n, i);
          assert KeyAt(rows[..n], ctx, i) == KeyAt(rows, ctx, i);
        }
      }
    }
  }

  lemma FoldKeys(items: seq<Item>, rows: seq<Row>, ctx: FoldContext, failed: set<string>)
    requires Folds(items, rows, ctx, failed)
    ensures Keys(items) == KeysOf(rows, ctx)
  {
    hide Folds;
    FoldFolds(rows, ctx, failed);
    KeysOfFold(rows, ctx, failed);
    FoldUnique(items, Fold(rows, ctx, failed), rows, ctx, failed);
  }

  /** The keys of a thread are those its rows give rise to, and tell its items apart. */
  lemma KeysDistinct(items: seq<Item>, rows: seq<Row>, ctx: FoldContext, failed: set<string>, key: string)
    requires Folds(items, rows, ctx, failed)
    ensures key in Keys(items) <==> exists i: nat :: i < |rows| && KeyAt(rows, ctx, i) == Some(key)
    ensures UniqueIds(rows) ==> forall i, j :: 0 <= i < j < |items| ==> items[i].key != items[j].key
  {
    FoldKeys(items, rows, ctx, failed);
    hide Folds, KeyAt, KeysOf;
    InKeysOf(rows, ctx, key);
    assert forall i :: 0 <= i < |items| ==> items[i].key == Keys(items)[i];
    if UniqueIds(rows) { KeysOfDistinct(rows, ctx); }
  }

  /**
  Which keys a refetch keeps when rows were appended and the active or retryable run has changed too: exactly those of
  rows that fold, or stand alone, as before, and, for a group, whose first row still has nothing foldable before it.
  */
  lemma KeysSurvive(rows: seq<Row>, ctx: FoldContext, later: seq<Item>, more: seq<Row>, ctx': FoldContext, i: nat)
    requires Folds(later, rows + more, ctx', FailedIds(rows + more)) && UniqueIds(rows + more)
    requires i < |rows| && KeyAt(rows, ctx, i).Some?
    ensures KeyAt(rows, ctx, i).value in Keys(later) <==>
      && IsFoldable(rows[i], ctx') == IsFoldable(rows[i], ctx)
      && (IsFoldable(rows[i], ctx) && i > 0 ==> !IsFoldable(rows[i - 1], ctx'))
  {
    var all, key := rows + more, KeyAt(rows, ctx, i);
    KeysDistinct(later, all, ctx', FailedIds(all), key.value);
    hide IsFoldable, Folds, Keys, FailedIds;
    assert KeyAt(all, ctx, i) == key;
    KeySpells(rows[i].id, rows[i].id);
    assert KeyAt(all, ctx', i) == key <==>
      && IsFoldable(rows[i], ctx') == IsFoldable(rows[i], ctx)
      && (IsFoldable(rows[i], ctx) && i > 0 ==> !IsFoldable(rows[i - 1], ctx'));
    forall j: nat | j < |all| && j != i ensures KeyAt(all, ctx', j) != key { KeyOnce(all, ctx, ctx', i, j); }
    hide KeyAt, UniqueIds;
  }

  // --------------------------------------------------------- finding a row

  predicate InGroup(item: Item, id: string) { item.Group? && exists i :: 0 <= i < |item.rows| && item.rows[i].id == id }

  predicate Found(items: seq<Item>, id: string) { exists i :: 0 <= i < |items| && InGroup(items[i], id) }

  /** `findGroupKeyForRow`: the first group holding the row. */
  method FindGroupKey(items: seq<Item>, id: string) returns (key: Option<string>)
    ensures key.Some? <==> Found(items, id)
    ensures key.Some? ==> exists i :: 0 <= i < |items| && InGroup(items[i], id) && items[i].key == key.value
  {
    for i := 0 to |items|
      invariant forall j :: 0 <= j < i ==> !InGroup(items[j], id)
    {
      if InGroup(items[i], id) { return Some(items[i].key); }
    }
    key := None;
  }

  lemma FoundLast(items: seq<Item>, id: string)
    requires items != []
    ensures Found(items, id) <==> Found(items[..|items| - 1], id) || InGroup(items[|items| - 1], id)
  {
    var n := |items| - 1;
    if i :| 0 <= i < n && InGroup(items[i], id) {
      assert InGroup(items[..n][i], id);
    }
  }

  lemma NotInLast(items: seq<Item>, rows: seq<Row>, id: string, ctx: FoldContext, failed: set<string>)
    requires Folds(items, rows, ctx, failed) && items != []
    ensures var start := |rows| - |RowsOf(items[|items| - 1])|;
      0 <= start && ((forall i :: start <= i < |rows| ==> rows[i].id != id) ==> !InGroup(items[|items| - 1], id))
  {
    FoldsShorter(items, rows, ctx, failed);
    var last := RowsOf(items[|items| - 1]);
    var start := |rows| - |last|;
    forall i | 0 <= i < |last| ensures last[i] == rows[start + i] {
      assert rows[start..][i] == rows[start + i];
    }
  }

  lemma {:induction false} NotEarlier(items: seq<Item>, rows: seq<Row>, id: string, ctx: FoldContext,
                                      failed: set<string>)
    requires Folds(items, rows, ctx, failed) && forall i :: 0 <= i < |rows| ==> rows[i].id != id
    ensures !Found(items, id)
    decreases |items|
  {
    if items != [] {
      FoldsShorter(items, rows, ctx, failed);
      NotInLast(items, rows, id, ctx, failed);
      FoundLast(items, id);
      hide Folds, Found, InGroup;
      NotEarlier(items[..|items| - 1], rows[..|rows| - |RowsOf(items[|items| - 1])|], id, ctx, failed);
    }
  }

  lemma InLast(items: seq<Item>, rows: seq<Row>, k: nat, ctx: FoldContext, failed: set<string>)
    requires Folds(items, rows, ctx, failed) && k < |rows|
    ensures items != []
    ensures var last := items[|items| - 1];
      |rows| - |RowsOf(last)| <= k && last.Group? ==> InGroup(last, rows[k].id)
  {
    assert items != [];
    FoldsShorter(items, rows, ctx, failed);
    var start := |rows| - |RowsOf(items[|items| - 1])|;
    if start <= k { assert rows[start..][k - start] == rows[k]; }
  }

  /** A row is found in a group exactly when the rule folds it. */
  lemma {:induction false} FoundIffFoldable(items: seq<Item>, rows: seq<Row>, ctx: FoldContext, failed: set<string>,
                                            k: nat)
    requires Folds(items, rows, ctx, failed) && UniqueIds(rows) && k < |rows|
    ensures Found(items, rows[k].id) <==> IsFoldable(rows[k], ctx)
    decreases |items|
  {
    hide Folds, Found, InGroup, IsFoldable;
    var n, id := |items| - 1, rows[k].id;
    InLast(items, rows, k, ctx, failed);
    var start := |rows| - |RowsOf(items[n])|;
    FoldsShorter(items, rows, ctx, failed);
    LastRows(items, rows, ctx, failed);
    FoundLast(items, id);
    if k < start {
      NotInLast(items, rows, id, ctx, failed);
      assert rows[..start][k] == rows[k];
      FoundIffFoldable(items[..n], rows[..start], ctx, failed, k);
    } else if items[n].Single? {
      NotInGroup(items[n], id);
      NotEarlier(items[..n], rows[..start], id, ctx, failed);
    }
  }

  lemma NotInGroup(item: Item, id: string)
    requires item.Single?
    ensures !InGroup(item, id)
  {}
}
