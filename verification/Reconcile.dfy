/** Point reconciliation of one entry's season (server/src/analytics/reconcile.js). */
module Reconcile {
  import opened Wrappers
  import opened Sorting
  import opened Points
  import Semantics

  /** One gameweek of an entry's history: points R, transfer cost C, season total T. */
  datatype HistoryRow = HistoryRow(event: int, points: int, cost: int, total: int)

  datatype Hypothesis = BOTH | GROSS | NET | NONE

  datatype Normalized = Normalized(
    event: int,
    reportedGwPoints: int,
    transferCost: int,
    totalPoints: int,
    previousTotalPoints: Option<int>,
    delta: Option<int>,
    hypothesis: Hypothesis,
    picksPoints: Option<int>,
    netGwPoints: Option<int>,
    grossGwPoints: Option<int>,
    pointsSemantics: PointsSemantics,
    status: ReconciliationStatus)

  datatype Reconciled = Reconciled(rows: seq<Normalized>, gross: nat, net: nat)

  /** What reconcileSeason is told besides the history. */
  datatype Context = Context(picksPoints: map<int, int>, seasonSemantics: PointsSemantics, eventStates: map<int, EventState>)

  function EventOf(): HistoryRow -> int {
    (r: HistoryRow) => r.event
  }

  /** byEvent.get(event): the last row of that event. */
  function LastOf(rows: seq<HistoryRow>, event: int): Option<HistoryRow> {
    if rows == [] then None
    else if rows[|rows| - 1].event == event then Some(rows[|rows| - 1])
    else LastOf(rows[..|rows| - 1], event)
  }

  /** Tprev: 0 before the first event, the previous event's total, None across a gap. */
  function Previous(sorted: seq<HistoryRow>, row: HistoryRow): Option<int> {
    if sorted != [] && row.event == sorted[0].event then Some(0)
    else match LastOf(sorted, row.event - 1)
      case Some(p) => Some(p.total)
      case None => None
  }

  predicate FitsGross(row: HistoryRow, previous: Option<int>) {
    previous.Some? && row.total - previous.value == row.points - row.cost
  }

  predicate FitsNet(row: HistoryRow, previous: Option<int>) {
    previous.Some? && row.total - previous.value == row.points
  }

  /** A hit row where exactly one hypothesis holds. */
  predicate Proves(h: Hypothesis, row: HistoryRow, previous: Option<int>) {
    row.cost > 0 && HypothesisOf(row, previous) == h
  }

  function HypothesisOf(row: HistoryRow, previous: Option<int>): Hypothesis {
    if FitsGross(row, previous) && FitsNet(row, previous) then BOTH
    else if FitsGross(row, previous) then GROSS
    else if FitsNet(row, previous) then NET
    else NONE
  }

  function Evidence(sorted: seq<HistoryRow>, h: Hypothesis): nat {
    |Filter(sorted, (r: HistoryRow) => Proves(h, r, Previous(sorted, r)))|
  }

  /** The season's verdict, or what this entry proves on its own while it is unverified. */
  function Applied(season: PointsSemantics, gross: nat, net: nat): PointsSemantics {
    if season == UNVERIFIED then
      if gross > 0 && net > 0 then CONFLICTED
      else if gross > 0 then GROSS_BEFORE_HITS
      else if net > 0 then NET_AFTER_HITS
      else UNVERIFIED
    else season
  }

  predicate Disagrees(row: HistoryRow, ctx: Context) {
    && row.event in ctx.picksPoints
    && ctx.picksPoints[row.event] != row.points
    && row.event in ctx.eventStates && ctx.eventStates[row.event] == DATA_CHECKED
  }

  function StatusOf(row: HistoryRow, previous: Option<int>, applied: PointsSemantics, ctx: Context): ReconciliationStatus {
    var h := HypothesisOf(row, previous);
    if previous.None? then INCOMPLETE
    else if Disagrees(row, ctx) then SOURCE_DISAGREEMENT
    else if row.cost == 0 then (if FitsNet(row, previous) then RECONCILED_NO_COST else MISMATCH)
    else if h != GROSS && h != NET then MISMATCH
    else if applied == CONFLICTED || applied != (if h == GROSS then GROSS_BEFORE_HITS else NET_AFTER_HITS) then SEMANTICS_CONFLICT
    else RECONCILED
  }

  function Normalize(row: HistoryRow, previous: Option<int>, applied: PointsSemantics, ctx: Context): Normalized {
    var status, h := StatusOf(row, previous, applied, ctx), HypothesisOf(row, previous);
    Normalized(
      row.event, row.points, row.cost, row.total, previous,
      if previous.Some? then Some(row.total - previous.value) else None,
      h,
      if row.event in ctx.picksPoints then Some(ctx.picksPoints[row.event]) else None,
      if !IsReconciled(status) then None else if status == RECONCILED && h == GROSS then Some(row.points - row.cost) else Some(row.points),
      if !IsReconciled(status) then None else if status == RECONCILED && h == NET then Some(row.points + row.cost) else Some(row.points),
      if row.cost > 0 then applied else ctx.seasonSemantics,
      status)
  }

  /** reconcileSeason */
  function ReconcileSeason(history: seq<HistoryRow>, ctx: Context): Reconciled {
    var sorted := SortByKey(history, EventOf());
    var gross, net := Evidence(sorted, GROSS), Evidence(sorted, NET);
    var applied := Applied(ctx.seasonSemantics, gross, net);
    Reconciled(Map(sorted, (r: HistoryRow) => Normalize(r, Previous(sorted, r), applied, ctx)), gross, net)
  }

  // ---- what a reconciled row says ----

  /**
   A reconciled row, and no other, has points: its net points are exactly the change of the season total, and
   its gross points those and the hit.
   */
  lemma ReconciledRowIsExact(history: seq<HistoryRow>, ctx: Context, n: Normalized)
    requires n in ReconcileSeason(history, ctx).rows && n.transferCost >= 0
    ensures n.netGwPoints.Some? <==> n.status == RECONCILED || n.status == RECONCILED_NO_COST
    ensures n.grossGwPoints.Some? <==> n.netGwPoints.Some?
    ensures n.netGwPoints.Some? ==>
      && n.previousTotalPoints.Some?
      && n.netGwPoints.value == n.totalPoints - n.previousTotalPoints.value
      && n.grossGwPoints.value == n.netGwPoints.value + n.transferCost
  {
  }

  lemma NormalizedIsExact(row: HistoryRow, previous: Option<int>, applied: PointsSemantics, ctx: Context)
    requires row.cost >= 0
    ensures var n := Normalize(row, previous, applied, ctx);
      && (IsReconciled(n.status) == n.netGwPoints.Some? == n.grossGwPoints.Some?)
      && (IsReconciled(n.status) ==>
            && previous.Some?
            && n.netGwPoints.value == row.total - previous.value
            && n.grossGwPoints.value == n.netGwPoints.value + row.cost)
      && (IsReconciled(n.status) && row.cost > 0 ==>
            n.pointsSemantics == applied == (if n.hypothesis == GROSS then GROSS_BEFORE_HITS else NET_AFTER_HITS))
  {
  }

  /** All reconciled hit rows of an entry were read under one semantics, which is a proven one. */
  lemma HitRowsShareSemantics(history: seq<HistoryRow>, ctx: Context, a: Normalized, b: Normalized)
    requires forall r | r in history :: r.cost >= 0
    requires a in ReconcileSeason(history, ctx).rows && b in ReconcileSeason(history, ctx).rows
    requires IsReconciled(a.status) && IsReconciled(b.status) && a.transferCost > 0 && b.transferCost > 0
    ensures a.pointsSemantics == b.pointsSemantics && a.hypothesis == b.hypothesis
    ensures a.pointsSemantics == GROSS_BEFORE_HITS || a.pointsSemantics == NET_AFTER_HITS
    ensures ctx.seasonSemantics == UNVERIFIED || ctx.seasonSemantics == a.pointsSemantics
  {
  }

  // ---- conservation over a season ----

  predicate DistinctEvents(history: seq<HistoryRow>) {
    DistinctKeys(history, EventOf())
  }

  /** Consecutive events, in order. */
  predicate GapFree(sorted: seq<HistoryRow>) {
    forall k | 0 <= k < |sorted| :: sorted[k].event == sorted[0].event + k
  }

  lemma {:induction false} LastOfIs(rows: seq<HistoryRow>, k: nat)
    requires k < |rows| && forall i, j | 0 <= i < j < |rows| :: rows[i].event < rows[j].event
    ensures LastOf(rows, rows[k].event) == Some(rows[k])
  {
    var n := |rows| - 1;
    if k < n {
      LastOfIs(rows[..n], k);
    }
  }

  lemma PreviousOfGapFree(sorted: seq<HistoryRow>, k: nat)
    requires GapFree(sorted) && k < |sorted|
    ensures Previous(sorted, sorted[k]) == Some(if k == 0 then 0 else sorted[k - 1].total)
  {
    if k > 0 {
      LastOfIs(sorted, k - 1);
    }
  }

  function Nets(rows: seq<Normalized>): seq<int> {
    Map(rows, (n: Normalized) => n.netGwPoints.GetOr(0))
  }

  function Grosses(rows: seq<Normalized>): seq<int> {
    Map(rows, (n: Normalized) => n.grossGwPoints.GetOr(0))
  }

  function Costs(rows: seq<Normalized>): seq<int> {
    Map(rows, (n: Normalized) => n.transferCost)
  }

  ghost predicate FullyReconciled(rows: seq<Normalized>) {
    forall n | n in rows :: IsReconciled(n.status) && n.transferCost >= 0
  }

  /** A row that, when reconciled, accounts for its event exactly. */
  predicate Exact(n: Normalized, row: HistoryRow, previous: Option<int>) {
    IsReconciled(n.status) && n.transferCost >= 0 ==>
      && previous.Some?
      && n.netGwPoints == Some(row.total - previous.value)
      && n.grossGwPoints == Some(row.total - previous.value + n.transferCost)
  }

  ghost predicate AllExact(rows: seq<Normalized>, sorted: seq<HistoryRow>) {
    |rows| == |sorted| && forall k | 0 <= k < |rows| :: Exact(rows[k], sorted[k], Previous(sorted, sorted[k]))
  }

  lemma RowIsExact(row: HistoryRow, previous: Option<int>, applied: PointsSemantics, ctx: Context)
    ensures Exact(Normalize(row, previous, applied, ctx), row, previous)
  {
    if row.cost >= 0 {
      NormalizedIsExact(row, previous, applied, ctx);
    }
  }

  lemma SeasonIsExact(history: seq<HistoryRow>, ctx: Context)
    ensures AllExact(ReconcileSeason(history, ctx).rows, SortByKey(history, EventOf()))
  {
    var sorted := SortByKey(history, EventOf());
    var applied := Applied(ctx.seasonSemantics, Evidence(sorted, GROSS), Evidence(sorted, NET));
    forall k | 0 <= k < |sorted|
      ensures Exact(Normalize(sorted[k], Previous(sorted, sorted[k]), applied, ctx), sorted[k], Previous(sorted, sorted[k]))
    {
      RowIsExact(sorted[k], Previous(sorted, sorted[k]), applied, ctx);
    }
  }

  /** The total before position k. */
  function Before(totals: seq<int>, k: int): int
    requires 0 <= k <= |totals|
  {
    if k == 0 then 0 else totals[k - 1]
  }

  lemma {:induction false} Telescope(totals: seq<int>, nets: seq<int>, k: nat)
    requires |totals| == |nets| && k <= |nets|
    requires forall i | 0 <= i < |nets| :: nets[i] + Before(totals, i) == totals[i]
    ensures Sum(nets[..k]) == Before(totals, k)
  {
    if k > 0 {
      Telescope(totals, nets, k - 1);
      assert nets[..k][..k - 1] == nets[..k - 1];
      assert nets[k - 1] + Before(totals, k - 1) == totals[k - 1];
    }
  }

  lemma RowAddsUp(sorted: seq<HistoryRow>, rows: seq<Normalized>, k: nat)
    requires GapFree(sorted) && AllExact(rows, sorted) && FullyReconciled(rows) && k < |rows|
    ensures Nets(rows)[k] + Before(Map(sorted, (r: HistoryRow) => r.total), k) == sorted[k].total
    ensures Grosses(rows)[k] == Nets(rows)[k] + Costs(rows)[k]
  {
    assert rows[k] in rows && Exact(rows[k], sorted[k], Previous(sorted, sorted[k]));
    PreviousOfGapFree(sorted, k);
  }

  /**
   Season conservation: over a gap-free, fully reconciled season the net points add up to the final
   total and the gross points to the final total plus everything paid for transfers, whatever order
   the history came in.
   */
  lemma SeasonConservation(history: seq<HistoryRow>, ctx: Context, last: HistoryRow)
    requires history != [] && GapFree(SortByKey(history, EventOf()))
    requires last in history && forall r | r in history :: r.event <= last.event
    requires FullyReconciled(ReconcileSeason(history, ctx).rows)
    ensures Sum(Nets(ReconcileSeason(history, ctx).rows)) == last.total
    ensures Sum(Grosses(ReconcileSeason(history, ctx).rows)) == last.total + Sum(Costs(ReconcileSeason(history, ctx).rows))
  {
    var sorted, rows := SortByKey(history, EventOf()), ReconcileSeason(history, ctx).rows;
    SeasonIsExact(history, ctx);
    LastIsLast(history, sorted, last);
    SumsOfExactRows(sorted, rows);
  }

  lemma SumsOfExactRows(sorted: seq<HistoryRow>, rows: seq<Normalized>)
    requires sorted != [] && GapFree(sorted) && AllExact(rows, sorted) && FullyReconciled(rows)
    ensures Sum(Nets(rows)) == sorted[|sorted| - 1].total
    ensures Sum(Grosses(rows)) == sorted[|sorted| - 1].total + Sum(Costs(rows))
  {
    var totals := Map(sorted, (r: HistoryRow) => r.total);
    forall k | 0 <= k < |rows|
      ensures Nets(rows)[k] + Before(totals, k) == totals[k]
      ensures Grosses(rows)[k] == Nets(rows)[k] + Costs(rows)[k]
    {
      RowAddsUp(sorted, rows, k);
    }
    Telescope(totals, Nets(rows), |rows|);
    assert Nets(rows)[..|rows|] == Nets(rows);
    SumOfPairs(Grosses(rows), Nets(rows), Costs(rows));
  }

  lemma LastIsLast(history: seq<HistoryRow>, sorted: seq<HistoryRow>, last: HistoryRow)
    requires multiset(sorted) == multiset(history) && GapFree(sorted)
    requires last in history && forall r | r in history :: r.event <= last.event
    ensures sorted != [] && sorted[|sorted| - 1] == last
  {
    SameMembers(sorted, history);
    assert last in sorted;
    var k :| 0 <= k < |sorted| && sorted[k] == last;
    assert sorted[|sorted| - 1] in history;
  }

  /** With one row per event the order of the history does not matter. */
  lemma ReconcileIgnoresInputOrder(a: seq<HistoryRow>, b: seq<HistoryRow>, ctx: Context)
    requires DistinctEvents(a) && multiset(a) == multiset(b)
    ensures ReconcileSeason(a, ctx) == ReconcileSeason(b, ctx)
  {
    SortByKeyPermutation(a, b, EventOf());
  }

  // ---- agreement with the probe ----

  /** evaluateHistory (server/src/fpl/smoke/reconcileProbe.js), one row. */
  datatype Outcome = INCOMPLETE_ROW | NO_COST | MISMATCH_ROW | PROVES_GROSS | PROVES_NET

  function ProbeOutcome(row: HistoryRow, previous: Option<int>): Outcome {
    if previous.None? then INCOMPLETE_ROW
    else
      var delta := row.total - previous.value;
      if row.cost == 0 then (if delta == row.points then NO_COST else MISMATCH_ROW)
      else if delta == row.points - row.cost && delta != row.points then PROVES_GROSS
      else if delta == row.points && delta != row.points - row.cost then PROVES_NET
      else MISMATCH_ROW
  }

  function ProbeCount(history: seq<HistoryRow>, o: Outcome): nat {
    var sorted := SortByKey(history, EventOf());
    |Filter(sorted, (r: HistoryRow) => ProbeOutcome(r, Previous(sorted, r)) == o)|
  }

  lemma EvidenceAgrees(history: seq<HistoryRow>, h: Hypothesis)
    requires forall r | r in history :: r.cost >= 0
    requires h == GROSS || h == NET
    ensures Evidence(SortByKey(history, EventOf()), h) == ProbeCount(history, if h == GROSS then PROVES_GROSS else PROVES_NET)
  {
    var sorted := SortByKey(history, EventOf());
    var o := if h == GROSS then PROVES_GROSS else PROVES_NET;
    SameMembers(sorted, history);
    FilterCongruence(sorted, (r: HistoryRow) => Proves(h, r, Previous(sorted, r)), (r: HistoryRow) => ProbeOutcome(r, Previous(sorted, r)) == o);
  }

  /** The production reconciler and the probe count the same evidence and reach the same verdict. */
  lemma ProbeAgrees(history: seq<HistoryRow>, ctx: Context)
    requires forall r | r in history :: r.cost >= 0
    ensures var r := ReconcileSeason(history, ctx);
      && r.gross == ProbeCount(history, PROVES_GROSS) && r.net == ProbeCount(history, PROVES_NET)
      && Applied(UNVERIFIED, r.gross, r.net) == Semantics.Verdict(ProbeCount(history, PROVES_GROSS), ProbeCount(history, PROVES_NET))
  {
    EvidenceAgrees(history, GROSS);
    EvidenceAgrees(history, NET);
  }

  /** A checked event in which the picks report other points than the history. */
  ghost predicate SourcesDisagree(n: Normalized, ctx: Context) {
    && n.event in ctx.picksPoints && ctx.picksPoints[n.event] != n.reportedGwPoints
    && n.event in ctx.eventStates && ctx.eventStates[n.event] == DATA_CHECKED
  }

  /** The history row behind a normalized one. */
  function SourceOf(n: Normalized): HistoryRow {
    HistoryRow(n.event, n.reportedGwPoints, n.transferCost, n.totalPoints)
  }

  /**
   Row by row over a reconciled season: what the probe calls proof or no-cost is what reconciles, unless the
   sources disagree on a checked event, or the season or the entry's own rows prove other semantics.
   */
  lemma ProbeRow(history: seq<HistoryRow>, ctx: Context, n: Normalized)
    requires n in ReconcileSeason(history, ctx).rows && n.transferCost >= 0
    ensures var o := ProbeOutcome(SourceOf(n), n.previousTotalPoints);
      && (n.status == INCOMPLETE <==> o == INCOMPLETE_ROW)
      && (n.status == SOURCE_DISAGREEMENT <==> n.previousTotalPoints.Some? && SourcesDisagree(n, ctx))
      && (!SourcesDisagree(n, ctx) ==>
            && (n.status == MISMATCH <==> o == MISMATCH_ROW)
            && (n.status == RECONCILED_NO_COST <==> o == NO_COST)
            && (n.status == RECONCILED <==>
                  (o == PROVES_GROSS && n.pointsSemantics == GROSS_BEFORE_HITS) || (o == PROVES_NET && n.pointsSemantics == NET_AFTER_HITS))
            && (n.status == SEMANTICS_CONFLICT <==>
                  (o == PROVES_GROSS && n.pointsSemantics != GROSS_BEFORE_HITS) || (o == PROVES_NET && n.pointsSemantics != NET_AFTER_HITS)))
  {
    var row, previous, applied := RowOf(history, ctx, n);
    NormalizedStatus(row, previous, applied, ctx);
  }

  lemma NormalizedStatus(row: HistoryRow, previous: Option<int>, applied: PointsSemantics, ctx: Context)
    requires row.cost >= 0
    ensures var n, o := Normalize(row, previous, applied, ctx), ProbeOutcome(row, previous);
      && (n.status == INCOMPLETE <==> o == INCOMPLETE_ROW)
      && (n.status == SOURCE_DISAGREEMENT <==> previous.Some? && SourcesDisagree(n, ctx))
      && (!SourcesDisagree(n, ctx) ==>
            && (n.status == MISMATCH <==> o == MISMATCH_ROW)
            && (n.status == RECONCILED_NO_COST <==> o == NO_COST)
            && (n.status == RECONCILED <==>
                  (o == PROVES_GROSS && n.pointsSemantics == GROSS_BEFORE_HITS) || (o == PROVES_NET && n.pointsSemantics == NET_AFTER_HITS))
            && (n.status == SEMANTICS_CONFLICT <==>
                  (o == PROVES_GROSS && n.pointsSemantics != GROSS_BEFORE_HITS) || (o == PROVES_NET && n.pointsSemantics != NET_AFTER_HITS)))
  {
  }

  /** Every normalized row comes from a history row, with its columns as they were. */
  lemma RowOf(history: seq<HistoryRow>, ctx: Context, n: Normalized) returns (row: HistoryRow, previous: Option<int>, applied: PointsSemantics)
    requires n in ReconcileSeason(history, ctx).rows
    ensures row in history && previous == Previous(SortByKey(history, EventOf()), row) && n == Normalize(row, previous, applied, ctx)
    ensures row == SourceOf(n) && n.previousTotalPoints == previous
    ensures applied == Applied(ctx.seasonSemantics, ReconcileSeason(history, ctx).gross, ReconcileSeason(history, ctx).net)
  {
    var sorted, rows := SortByKey(history, EventOf()), ReconcileSeason(history, ctx).rows;
    var k :| 0 <= k < |rows| && rows[k] == n;
    row, previous := sorted[k], Previous(sorted, sorted[k]);
    applied := Applied(ctx.seasonSemantics, Evidence(sorted, GROSS), Evidence(sorted, NET));
    SameMembers(sorted, history);
    assert sorted[k] in sorted;
  }

  lemma {:induction false} LastOfMeans(rows: seq<HistoryRow>, event: int)
    ensures LastOf(rows, event).Some? ==> LastOf(rows, event).value in rows && LastOf(rows, event).value.event == event
    ensures LastOf(rows, event).None? <==> forall r | r in rows :: r.event != event
  {
    if rows != [] {
      var n := |rows| - 1;
      assert rows == rows[..n] + [rows[n]];
      LastOfMeans(rows[..n], event);
    }
  }

  lemma FirstIsLeast(history: seq<HistoryRow>)
    requires history != []
    ensures var sorted := SortByKey(history, EventOf());
      sorted != [] && forall r | r in history :: sorted[0].event <= r.event
  {
    var sorted := SortByKey(history, EventOf());
    SortByKeySorts(history, EventOf());
    SameMembers(sorted, history);
    assert sorted != [];
    forall r | r in history ensures sorted[0].event <= r.event {
      var k :| 0 <= k < |sorted| && sorted[k] == r;
      assert EventOf()(sorted[0]) <= EventOf()(sorted[k]);
    }
  }

  /**
   The total a row is measured against: 0 for the first event of the history, the total of the event just
   before for any other, and none across a gap.
   */
  lemma PreviousTotalIs(history: seq<HistoryRow>, ctx: Context, n: Normalized)
    requires DistinctEvents(history) && n in ReconcileSeason(history, ctx).rows
    ensures SourceOf(n) in history
    ensures (forall r | r in history :: n.event <= r.event) ==> n.previousTotalPoints == Some(0)
    ensures forall p | p in history && p.event == n.event - 1 :: n.previousTotalPoints == Some(p.total)
    ensures (exists r :: r in history && r.event < n.event) && (forall p | p in history :: p.event != n.event - 1) ==> n.previousTotalPoints == None
  {
    var row, previous, applied := RowOf(history, ctx, n);
    PreviousMeans(history, row);
  }

  /**
   The semantics a row is read under: the season's or, for a hit row of an unverified season, what the whole
   history proves.
   */
  lemma SemanticsAreProven(history: seq<HistoryRow>, ctx: Context, n: Normalized)
    requires n in ReconcileSeason(history, ctx).rows
    requires forall r | r in history :: r.cost >= 0
    ensures n.pointsSemantics ==
      if n.transferCost > 0 && ctx.seasonSemantics == UNVERIFIED
      then Semantics.Verdict(ProbeCount(history, PROVES_GROSS), ProbeCount(history, PROVES_NET))
      else ctx.seasonSemantics
    ensures n.picksPoints == if n.event in ctx.picksPoints then Some(ctx.picksPoints[n.event]) else None
  {
    var row, previous, applied := RowOf(history, ctx, n);
    ProbeAgrees(history, ctx);
    SemanticsOfRow(row, previous, applied, ctx);
  }

  lemma SemanticsOfRow(row: HistoryRow, previous: Option<int>, applied: PointsSemantics, ctx: Context)
    ensures Normalize(row, previous, applied, ctx).pointsSemantics == if row.cost > 0 then applied else ctx.seasonSemantics
    ensures Normalize(row, previous, applied, ctx).picksPoints == if row.event in ctx.picksPoints then Some(ctx.picksPoints[row.event]) else None
  {
  }

  /** The delta is the change of the season total; the hypothesis says whether the reported points less the hit, the reported points, both or none explain it. */
  predicate Explained(n: Normalized) {
    var gross, net := n.delta == Some(n.reportedGwPoints - n.transferCost), n.delta == Some(n.reportedGwPoints);
    && n.delta == (if n.previousTotalPoints.Some? then Some(n.totalPoints - n.previousTotalPoints.value) else None)
    && (n.hypothesis == BOTH <==> gross && net) && (n.hypothesis == NONE <==> !gross && !net)
    && (n.hypothesis == GROSS <==> gross && !net)
  }

  lemma RowsAreExplained(history: seq<HistoryRow>, ctx: Context, n: Normalized)
    requires n in ReconcileSeason(history, ctx).rows
    ensures Explained(n)
  {
    var row, previous, applied := RowOf(history, ctx, n);
    RowIsExplained(row, previous, applied, ctx);
    assert n == Normalize(row, previous, applied, ctx);
  }

  lemma RowIsExplained(row: HistoryRow, previous: Option<int>, applied: PointsSemantics, ctx: Context)
    ensures Explained(Normalize(row, previous, applied, ctx))
  {
  }

  lemma PreviousMeans(history: seq<HistoryRow>, row: HistoryRow)
    requires DistinctEvents(history) && row in history
    ensures var previous := Previous(SortByKey(history, EventOf()), row);
      && ((forall r | r in history :: row.event <= r.event) ==> previous == Some(0))
      && (forall p | p in history && p.event == row.event - 1 :: previous == Some(p.total))
      && ((exists r :: r in history && r.event < row.event) && (forall p | p in history :: p.event != row.event - 1) ==> previous == None)
  {
    var sorted := SortByKey(history, EventOf());
    FirstIsLeast(history);
    SameMembers(sorted, history);
    LastOfMeans(sorted, row.event - 1);
    assert sorted[0] in sorted;
    forall p | p in history && p.event == row.event - 1 ensures Previous(sorted, row) == Some(p.total) {
      SameEventSameRow(history, p, LastOf(sorted, row.event - 1).value);
    }
  }

  lemma SameEventSameRow(history: seq<HistoryRow>, a: HistoryRow, b: HistoryRow)
    requires DistinctEvents(history) && a in history && b in history && a.event == b.event
    ensures a == b
  {
  }
}
