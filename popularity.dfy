/**
 * The daily rebuild of the facets table's `popularity` column from the
 * daily views table: every row is zeroed, then each row whose post has view
 * rows inside the rolling 30-day window gets the sum of those views.
 */
module Popularity {

  const DaySeconds: int := 86400
  /** Length of the rolling window, in days. */
  const WindowDays: int := 30

  /** One row of the daily views table; `day` is a UTC calendar day, counted from the epoch. */
  datatype ViewRow = ViewRow(postId: int, day: int, views: int)

  /** One facets row; `attributes` stands for every column other than popularity. */
  datatype Facet = Facet(popularity: int, attributes: map<string, string>)

  /** Outcome of a rebuild, as the job reports it in its log line. */
  datatype RebuildReport =
    | SkippedMissingColumn
    | Rebuilt(windowStart: int, queryFailed: bool)

  /** The UTC calendar day of a Unix time (seconds). */
  function DayOf(t: int): int
  {
    t / DaySeconds
  }

  /** The first day of the window: the calendar day of the instant 30 days before `now`. */
  function WindowStart(now: int): (start: int)
    ensures start == DayOf(now) - WindowDays
    ensures start * DaySeconds <= now - WindowDays * DaySeconds < (start + 1) * DaySeconds
  {
    DayOf(now - WindowDays * DaySeconds)
  }

  /** Whether a view row is one the windowed aggregate of `id` takes in. */
  predicate Counts(row: ViewRow, id: int, start: int)
  {
    row.postId == id && row.day >= start
  }

  /** Sum of `views` over the rows of `log` for post `id` dated on or after `start`. */
  function WindowSum(log: seq<ViewRow>, id: int, start: int): int
  {
    if log == [] then 0
    else
      var last := log[|log| - 1];
      WindowSum(log[..|log| - 1], id, start) + (if Counts(last, id, start) then last.views else 0)
  }

  /** Whether the aggregate subquery produces a group for post `id`. */
  predicate HasRecentViews(log: seq<ViewRow>, id: int, start: int)
  {
    exists k :: 0 <= k < |log| && Counts(log[k], id, start)
  }

  /**
   * The facets table after a rebuild, as the two statements define it: every
   * popularity zeroed, then overwritten by the group's sum for the posts the
   * inner join matches. The rows and their other columns stay as they were.
   */
  function RebuiltRows(rows: map<int, Facet>, log: seq<ViewRow>, start: int): map<int, Facet>
  {
    map id | id in rows ::
      rows[id].(popularity := if HasRecentViews(log, id, start) then WindowSum(log, id, start) else 0)
  }

  /** The facets table after `UPDATE facets SET popularity = 0`. */
  function Zeroed(rows: map<int, Facet>): map<int, Facet>
  {
    map id | id in rows :: rows[id].(popularity := 0)
  }

  /** A zeroed table is what the rebuild makes of it when no view row qualifies. */
  lemma ZeroedIsRebuildWithoutViews(rows: map<int, Facet>, log: seq<ViewRow>, start: int)
    requires forall k :: 0 <= k < |log| ==> log[k].day < start
    ensures Zeroed(rows) == RebuiltRows(rows, log, start)
  {
  }

  /** A post without qualifying rows sums to zero. */
  lemma {:induction false} ZeroDefault(log: seq<ViewRow>, id: int, start: int)
    requires !HasRecentViews(log, id, start)
    ensures WindowSum(log, id, start) == 0
  {
    if log != [] {
      var prefix := log[..|log| - 1];
      assert forall k :: 0 <= k < |prefix| ==> prefix[k] == log[k];
      ZeroDefault(prefix, id, start);
    }
  }

  /** The windowed sum of a concatenation is the sum of the parts' windowed sums. */
  lemma {:induction false} WindowSumConcat(a: seq<ViewRow>, b: seq<ViewRow>, id: int, start: int)
    ensures WindowSum(a + b, id, start) == WindowSum(a, id, start) + WindowSum(b, id, start)
  {
    if b == [] {
      assert a + b == a;
    } else {
      assert (a + b)[..|a + b| - 1] == a + b[..|b| - 1];
      WindowSumConcat(a, b[..|b| - 1], id, start);
    }
  }

  /**
   * The window boundary: wherever it sits in the log, a row of post `id`
   * dated on the start day adds its views, and one dated the day before
   * adds nothing.
   */
  lemma WindowBoundary(before: seq<ViewRow>, after: seq<ViewRow>, id: int, now: int, views: int)
    ensures var start := WindowStart(now);
      WindowSum(before + [ViewRow(id, start, views)] + after, id, start)
        == WindowSum(before + after, id, start) + views
    ensures var start := WindowStart(now);
      WindowSum(before + [ViewRow(id, start - 1, views)] + after, id, start)
        == WindowSum(before + after, id, start)
  {
    var start := WindowStart(now);
    WindowSumConcat(before + [ViewRow(id, start, views)], after, id, start);
    WindowSumConcat(before + [ViewRow(id, start - 1, views)], after, id, start);
    WindowSumConcat(before, after, id, start);
  }

  /**
   * After a rebuild every row keeps its key and its other columns, and its
   * popularity is the windowed sum, which is 0 for a post without
   * qualifying rows.
   */
  lemma RebuiltIsWindowSum(rows: map<int, Facet>, log: seq<ViewRow>, start: int)
    ensures RebuiltRows(rows, log, start).Keys == rows.Keys
    ensures forall id :: id in rows ==>
      && RebuiltRows(rows, log, start)[id].attributes == rows[id].attributes
      && RebuiltRows(rows, log, start)[id].popularity == WindowSum(log, id, start)
  {
    forall id | id in rows && !HasRecentViews(log, id, start) {
      ZeroDefault(log, id, start);
    }
  }

  /** The result does not depend on the popularity values the table held before. */
  lemma RebuildForgetsPriorPopularity(rows1: map<int, Facet>, rows2: map<int, Facet>, log: seq<ViewRow>, start: int)
    requires rows1.Keys == rows2.Keys
    requires forall id :: id in rows1 ==> rows1[id].attributes == rows2[id].attributes
    ensures RebuiltRows(rows1, log, start) == RebuiltRows(rows2, log, start)
  {
  }

  /** Running the rebuild twice with the same window and log changes nothing more. */
  lemma RebuildIdempotent(rows: map<int, Facet>, log: seq<ViewRow>, start: int)
    ensures RebuiltRows(RebuiltRows(rows, log, start), log, start) == RebuiltRows(rows, log, start)
  {
    RebuildForgetsPriorPopularity(RebuiltRows(rows, log, start), rows, log, start);
  }

  /** Removing one occurrence of `x` from both sides keeps two bags equal. */
  lemma MultisetRemoveOne(prefix: seq<ViewRow>, x: ViewRow, left: seq<ViewRow>, right: seq<ViewRow>)
    requires multiset(prefix + [x]) == multiset(left + [x] + right)
    ensures multiset(prefix) == multiset(left + right)
  {
    calc {
      multiset(prefix) + multiset{x};
      multiset(prefix + [x]);
      multiset(left + [x] + right);
      multiset(left) + multiset{x} + multiset(right);
      multiset(left + right) + multiset{x};
    }
    assert multiset(prefix) == multiset(prefix) + multiset{x} - multiset{x};
    assert multiset(left + right) == multiset(left + right) + multiset{x} - multiset{x};
  }

  /** A row spliced into the middle of a log adds what it would add at the end. */
  lemma WindowSumSplice(left: seq<ViewRow>, x: ViewRow, right: seq<ViewRow>, id: int, start: int)
    ensures WindowSum(left + [x] + right, id, start)
      == WindowSum(left + right, id, start) + (if Counts(x, id, start) then x.views else 0)
  {
    WindowSumConcat(left + [x], right, id, start);
    assert (left + [x])[..|left + [x]| - 1] == left;
    WindowSumConcat(left, right, id, start);
  }

  /** The windowed sum depends only on which rows the log holds, not on their order. */
  lemma {:induction false} WindowSumOrderFree(a: seq<ViewRow>, b: seq<ViewRow>, id: int, start: int)
    requires multiset(a) == multiset(b)
    ensures WindowSum(a, id, start) == WindowSum(b, id, start)
    decreases |a|
  {
    if a == [] {
      assert |b| == |multiset(b)| == 0;
    } else {
      var x, prefix := a[|a| - 1], a[..|a| - 1];
      assert a == prefix + [x];
      assert x in multiset(b);
      var j :| 0 <= j < |b| && b[j] == x;
      var left, right := b[..j], b[j + 1..];
      assert b == left + [x] + right;
      MultisetRemoveOne(prefix, x, left, right);
      WindowSumOrderFree(prefix, left + right, id, start);
      WindowSumSplice(left, x, right, id, start);
    }
  }

  /** Whether a post has qualifying rows does not depend on the order of the log either. */
  lemma HasRecentViewsOrderFree(a: seq<ViewRow>, b: seq<ViewRow>, id: int, start: int)
    requires multiset(a) == multiset(b)
    ensures HasRecentViews(a, id, start) == HasRecentViews(b, id, start)
  {
    if HasRecentViews(a, id, start) {
      var k :| 0 <= k < |a| && Counts(a[k], id, start);
      assert a[k] in multiset(b);
      var j :| 0 <= j < |b| && b[j] == a[k];
    }
    if HasRecentViews(b, id, start) {
      var k :| 0 <= k < |b| && Counts(b[k], id, start);
      assert b[k] in multiset(a);
      var j :| 0 <= j < |a| && a[j] == b[k];
    }
  }

  /** The views table is a bag: two logs holding the same rows rebuild to the same table. */
  lemma RebuildOrderFree(rows: map<int, Facet>, a: seq<ViewRow>, b: seq<ViewRow>, start: int)
    requires multiset(a) == multiset(b)
    ensures RebuiltRows(rows, a, start) == RebuiltRows(rows, b, start)
  {
    forall id | id in rows
      ensures WindowSum(a, id, start) == WindowSum(b, id, start)
      ensures HasRecentViews(a, id, start) == HasRecentViews(b, id, start)
    {
      WindowSumOrderFree(a, b, id, start);
      HasRecentViewsOrderFree(a, b, id, start);
    }
  }

  /** View rows of posts without a facets row, appended to the log, do not affect the result. */
  lemma AppendedUnknownPostsIgnored(rows: map<int, Facet>, log: seq<ViewRow>, extra: seq<ViewRow>, start: int)
    requires forall k :: 0 <= k < |extra| ==> extra[k].postId !in rows
    ensures RebuiltRows(rows, log + extra, start) == RebuiltRows(rows, log, start)
  {
    forall id | id in rows
      ensures WindowSum(log + extra, id, start) == WindowSum(log, id, start)
      ensures HasRecentViews(log + extra, id, start) == HasRecentViews(log, id, start)
    {
      ZeroDefault(extra, id, start);
      WindowSumConcat(log, extra, id, start);
      if HasRecentViews(log, id, start) {
        var k :| 0 <= k < |log| && Counts(log[k], id, start);
        assert (log + extra)[k] == log[k];
      }
      if HasRecentViews(log + extra, id, start) {
        var k :| 0 <= k < |log + extra| && Counts((log + extra)[k], id, start);
        assert k < |log| ==> (log + extra)[k] == log[k];
      }
    }
  }

  /**
   * View rows of posts that have no facets row do not affect the result,
   * wherever they sit among the other rows: a views table holding the rows
   * of `log` and of `extra`, in any order, rebuilds like `log` alone.
   */
  lemma UnknownPostsIgnored(rows: map<int, Facet>, log: seq<ViewRow>, extra: seq<ViewRow>, table: seq<ViewRow>, start: int)
    requires forall k :: 0 <= k < |extra| ==> extra[k].postId !in rows
    requires multiset(table) == multiset(log + extra)
    ensures RebuiltRows(rows, table, start) == RebuiltRows(rows, log, start)
  {
    RebuildOrderFree(rows, table, log + extra, start);
    AppendedUnknownPostsIgnored(rows, log, extra, start);
  }

  /**
   * A worked instance. At noon UTC on 2024-03-31 (Unix time 1711886400) the
   * window starts on 2024-03-01 (day 19783). Post 1 (popularity 5) has 7 + 5
   * views inside the window and 40 the day before it, post 2 (popularity 9)
   * has none; afterwards post 1 has 12 and post 2 has 0.
   */
  lemma RebuildExample(attrs: map<string, string>)
    ensures WindowStart(1711886400) == 19783
    ensures var start := 19783;
      var rows := map[1 := Facet(5, attrs), 2 := Facet(9, attrs)];
      var log := [ViewRow(1, start - 1, 40), ViewRow(1, start, 7), ViewRow(1, start + 29, 5)];
      RebuiltRows(rows, log, start) == map[1 := Facet(12, attrs), 2 := Facet(0, attrs)]
  {
    var start := 19783;
    var rows := map[1 := Facet(5, attrs), 2 := Facet(9, attrs)];
    var log := [ViewRow(1, start - 1, 40), ViewRow(1, start, 7), ViewRow(1, start + 29, 5)];
    RebuiltIsWindowSum(rows, log, start);
    var one, two := log[..1], log[..2];
    assert one[..0] == [] && two[..1] == one && log[..2] == two;
    assert WindowSum(one, 1, start) == 0;
    assert WindowSum(two, 1, start) == 7;
    assert WindowSum(log, 1, start) == 12;
    assert WindowSum(log, 2, start) == 0;
  }

  /**
   * The aggregate subquery: for each post with view rows dated on or after
   * `start`, the sum of their views (`SELECT post_id, SUM(views) ... GROUP BY post_id`).
   */
  method AggregateWindow(log: seq<ViewRow>, start: int) returns (sums: map<int, int>)
    ensures forall id :: id in sums <==> HasRecentViews(log, id, start)
    ensures forall id :: id in sums ==> sums[id] == WindowSum(log, id, start)
  {
    sums := map[];
    for i := 0 to |log|
      invariant forall id :: id in sums <==> HasRecentViews(log[..i], id, start)
      invariant forall id :: id in sums ==> sums[id] == WindowSum(log[..i], id, start)
    {
      var row := log[i];
      assert log[..i + 1][..i] == log[..i];
      assert forall k :: 0 <= k < i ==> log[..i + 1][k] == log[..i][k];
      if row.day >= start {
        var previous := if row.postId in sums then sums[row.postId] else 0;
        assert row.postId !in sums ==> WindowSum(log[..i], row.postId, start) == 0 by {
          if row.postId !in sums {
            ZeroDefault(log[..i], row.postId, start);
          }
        }
        sums := sums[row.postId := previous + row.views];
      }
    }
    assert log[..|log|] == log;
  }

  /** The facets table, updated in place by the rebuild job. */
  class FacetsTable {
    var rows: map<int, Facet>
    var hasPopularityColumn: bool

    constructor(rows: map<int, Facet>, hasPopularityColumn: bool)
      ensures this.rows == rows && this.hasPopularityColumn == hasPopularityColumn
    {
      this.rows := rows;
      this.hasPopularityColumn := hasPopularityColumn;
    }

    /** `UPDATE facets SET popularity = 0`. */
    method ZeroPopularity()
      modifies this
      ensures hasPopularityColumn == old(hasPopularityColumn)
      ensures rows == Zeroed(old(rows))
    {
      rows := map id | id in rows :: rows[id].(popularity := 0);
    }

    /** `UPDATE facets f INNER JOIN sums d ON d.post_id = f.post_id SET f.popularity = d.pop`. */
    method JoinSums(sums: map<int, int>)
      modifies this
      ensures hasPopularityColumn == old(hasPopularityColumn)
      ensures rows.Keys == old(rows).Keys
      ensures forall id :: id in rows ==>
        rows[id] == if id in sums then old(rows)[id].(popularity := sums[id]) else old(rows)[id]
    {
      rows := map id | id in rows :: if id in sums then rows[id].(popularity := sums[id]) else rows[id];
    }

    /**
     * The rebuild job. With the column guard available and reporting the
     * column missing, nothing is written. Without the guard, a missing column
     * makes both statements fail, which also writes nothing. When the column
     * exists but the join statement fails (the views table or one of its
     * columns is missing), the zeroing has already happened and stays.
     */
    method RebuildPopularity(now: int, log: seq<ViewRow>, guardDefined: bool, joinSucceeds: bool)
      returns (report: RebuildReport)
      modifies this
      ensures hasPopularityColumn == old(hasPopularityColumn)
      ensures guardDefined && !hasPopularityColumn ==> report == SkippedMissingColumn
      ensures !(guardDefined && !hasPopularityColumn) ==>
        report == Rebuilt(WindowStart(now), !hasPopularityColumn || !joinSucceeds)
      ensures rows ==
        if !hasPopularityColumn then old(rows)
        else if joinSucceeds then RebuiltRows(old(rows), log, WindowStart(now))
        else Zeroed(old(rows))
    {
      if guardDefined && !hasPopularityColumn {
        return SkippedMissingColumn;
      }
      var start := WindowStart(now);
      if !hasPopularityColumn {
        return Rebuilt(start, true);
      }
      ZeroPopularity();
      if !joinSucceeds {
        return Rebuilt(start, true);
      }
      var sums := AggregateWindow(log, start);
      JoinSums(sums);
      report := Rebuilt(start, false);
    }
  }
}
