/**
 * The aggregation in src/dashboard/summary.schema.ts: a user's project rows
 * are counted (total, published, per visibility), the latest update time is
 * found, and a completion percentage is derived. The rows are an input; the
 * query that fetches them is not part of this model.
 */
module Summary {
  import opened Wrappers
  import opened Content

  /** The four columns the summary reads from a project row; `None` is a null or unparsable value. */
  datatype SummaryRow = SummaryRow(
    visibility: Option<string>, isPublished: bool, updatedAt: Option<Timestamp>, createdAt: Option<Timestamp>)

  datatype VisibilityBreakdown = VisibilityBreakdown(publicCount: nat, unlistedCount: nat, privateCount: nat)

  /** `PortfolioDashboardSummaryV1`, without the constant `appId` and `version`. */
  datatype DashboardSummary = DashboardSummary(
    totalPortfolios: nat, publishedCount: nat, lastUpdatedAt: Timestamp,
    visibilityBreakdown: VisibilityBreakdown, completionHint: int)

  /** The number of published rows. */
  function CountPublished(rows: seq<SummaryRow>): (r: nat)
    ensures r <= |rows|
  {
    if |rows| == 0 then 0
    else CountPublished(rows[..|rows| - 1]) + (if rows[|rows| - 1].isPublished then 1 else 0)
  }

  /** The visibility a row is counted under: a null visibility counts as private. */
  function VisibilityOf(row: SummaryRow): string {
    if row.visibility.Some? then row.visibility.value else PRIVATE
  }

  /** The number of rows counted under visibility `v`. */
  function CountVisibility(rows: seq<SummaryRow>, v: string): (r: nat)
    ensures r <= |rows|
  {
    if |rows| == 0 then 0
    else CountVisibility(rows[..|rows| - 1], v) + (if VisibilityOf(rows[|rows| - 1]) == v then 1 else 0)
  }

  /** The time a row contributes: its update time, or its creation time when that is missing. */
  function CandidateOf(row: SummaryRow): Option<Timestamp> {
    if row.updatedAt.Some? then row.updatedAt else row.createdAt
  }

  /** One step of the scan: a candidate replaces the latest time when there is none yet or it is later. */
  function Later(latest: Option<Timestamp>, candidate: Option<Timestamp>): Option<Timestamp> {
    if candidate.None? then latest
    else if latest.None? || candidate.value > latest.value then candidate
    else latest
  }

  /** The latest time over the rows, scanning them in order; `None` when no row has one. */
  function LatestOf(rows: seq<SummaryRow>): Option<Timestamp> {
    if |rows| == 0 then None
    else Later(LatestOf(rows[..|rows| - 1]), CandidateOf(rows[|rows| - 1]))
  }

  /**
   * `Math.round(100 * published / total)` computed exactly, 0 with no rows:
   * the integer nearest to the exact percentage, halves rounding up.
   */
  function CompletionHint(published: nat, total: nat): (r: int)
    ensures total == 0 ==> r == 0
    ensures total > 0 ==> r * (2 * total) <= 200 * published + total < (r + 1) * (2 * total)
  {
    if total > 0 then (200 * published + total) / (2 * total) else 0
  }

  /** `buildPortfolioDashboardSummary` after the query: one pass over the rows. */
  method BuildSummary(rows: seq<SummaryRow>, now: Timestamp) returns (s: DashboardSummary)
    ensures s.totalPortfolios == |rows|
    ensures s.publishedCount == CountPublished(rows)
    ensures s.visibilityBreakdown.publicCount == CountVisibility(rows, PUBLIC)
    ensures s.visibilityBreakdown.unlistedCount == CountVisibility(rows, UNLISTED)
    ensures s.visibilityBreakdown.privateCount == CountVisibility(rows, PRIVATE)
    ensures LatestOf(rows).Some? ==> s.lastUpdatedAt == LatestOf(rows).value
    ensures LatestOf(rows).None? ==> s.lastUpdatedAt == now
    ensures s.completionHint == CompletionHint(CountPublished(rows), |rows|)
  {
    var published: nat := 0;
    var publicCount: nat, unlistedCount: nat, privateCount: nat := 0, 0, 0;
    var latest: Option<Timestamp> := None;
    var i := 0;
    while i < |rows|
      invariant 0 <= i <= |rows|
      invariant published == CountPublished(rows[..i])
      invariant publicCount == CountVisibility(rows[..i], PUBLIC)
      invariant unlistedCount == CountVisibility(rows[..i], UNLISTED)
      invariant privateCount == CountVisibility(rows[..i], PRIVATE)
      invariant latest == LatestOf(rows[..i])
    {
      var row := rows[i];
      assert rows[..i + 1][..i] == rows[..i];
      if row.isPublished {
        published := published + 1;
      }
      var visibility := VisibilityOf(row);
      if visibility == PUBLIC {
        publicCount := publicCount + 1;
      } else if visibility == UNLISTED {
        unlistedCount := unlistedCount + 1;
      } else if visibility == PRIVATE {
        privateCount := privateCount + 1;
      }
      var candidate := CandidateOf(row);
      if candidate.Some? && (latest.None? || candidate.value > latest.value) {
        latest := candidate;
      }
      i := i + 1;
    }
    assert rows[..i] == rows;
    var lastUpdatedAt := if latest.Some? then latest.value else now;
    var hint := CompletionHint(published, |rows|);
    s := DashboardSummary(
      |rows|, published, lastUpdatedAt, VisibilityBreakdown(publicCount, unlistedCount, privateCount), hint);
  }

  /** Each row is counted under at most one visibility, so the breakdown never exceeds the total. */
  lemma {:induction false} BreakdownAtMostTotal(rows: seq<SummaryRow>)
    ensures CountVisibility(rows, PUBLIC) + CountVisibility(rows, UNLISTED) + CountVisibility(rows, PRIVATE) <= |rows|
  {
    if |rows| > 0 {
      BreakdownAtMostTotal(rows[..|rows| - 1]);
    }
  }

  /** With every visibility one of the three known values (or null), the breakdown adds up to the total. */
  lemma {:induction false} BreakdownCoversKnownVisibilities(rows: seq<SummaryRow>)
    requires forall i :: 0 <= i < |rows| ==> rows[i].visibility.None? || IsVisibility(rows[i].visibility.value)
    ensures CountVisibility(rows, PUBLIC) + CountVisibility(rows, UNLISTED) + CountVisibility(rows, PRIVATE) == |rows|
  {
    if |rows| > 0 {
      BreakdownCoversKnownVisibilities(rows[..|rows| - 1]);
    }
  }

  /** The latest time is one of the rows' times, and no row's time is later. */
  lemma {:induction false} LatestIsMaximum(rows: seq<SummaryRow>)
    ensures LatestOf(rows).None? <==> forall i :: 0 <= i < |rows| ==> CandidateOf(rows[i]).None?
    ensures LatestOf(rows).Some? ==>
      (exists i :: 0 <= i < |rows| && CandidateOf(rows[i]) == LatestOf(rows))
      && forall i :: 0 <= i < |rows| && CandidateOf(rows[i]).Some? ==> CandidateOf(rows[i]).value <= LatestOf(rows).value
  {
    if |rows| > 0 {
      var init := rows[..|rows| - 1];
      LatestIsMaximum(init);
      assert forall i :: 0 <= i < |init| ==> init[i] == rows[i];
      if LatestOf(rows) == LatestOf(init) && LatestOf(init).Some? {
        var j :| 0 <= j < |init| && CandidateOf(init[j]) == LatestOf(init);
        assert CandidateOf(rows[j]) == LatestOf(rows);
      }
    }
  }

  /** Division by a positive number: a quotient `q` with remainder in `0..d-1` is the quotient. */
  lemma DivIsQuotient(n: int, d: int, q: int)
    requires d > 0 && q * d <= n < (q + 1) * d
    ensures n / d == q
  {
    var k := n / d;
    assert k * d <= n < (k + 1) * d;
    MulCancel(k, q + 1, d);
    MulCancel(q, k + 1, d);
  }

  /** A product with a positive factor is strictly monotone in the other factor. */
  lemma MulCancel(k: int, m: int, d: int)
    requires d > 0 && k * d < m * d
    ensures k < m
  {
  }

  /** The completion hint is a percentage: 0 with none published, 100 when all are published. */
  lemma CompletionHintBounds(published: nat, total: nat)
    requires published <= total
    ensures 0 <= CompletionHint(published, total) <= 100
    ensures published == 0 ==> CompletionHint(published, total) == 0
    ensures total > 0 && published == total ==> CompletionHint(published, total) == 100
  {
    if total > 0 {
      var n, d := 200 * published + total, 2 * total;
      var q := n / d;
      assert q * d <= n < 101 * d;
      MulCancel(q, 101, d);
      if published == 0 {
        DivIsQuotient(n, d, 0);
      }
      if published == total {
        DivIsQuotient(n, d, 100);
      }
    }
  }

  /** In the built summary, published rows never outnumber rows and the hint is a percentage. */
  lemma SummaryBounds(rows: seq<SummaryRow>)
    ensures CountPublished(rows) <= |rows|
    ensures 0 <= CompletionHint(CountPublished(rows), |rows|) <= 100
  {
    CompletionHintBounds(CountPublished(rows), |rows|);
  }
}
