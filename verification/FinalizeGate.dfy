/**
 The finalize gate (server/src/analytics/eventState.js, evaluateFinalizeGate in
 server/src/services/resultModel.js) and the event history behind dataCheckedObservedAt
 (buildEvents in server/src/sync/normalize.js).
 */
module FinalizeGate {
  import opened Wrappers
  import opened Sorting
  import opened Points
  import opened Eligibility
  import opened Results
  import opened SyncRuns

  type Millis = nat

  /** Who last confirmed a member's data; all None when nobody did. */
  datatype Freshness = Freshness(entryId: int, syncRunId: Option<RunId>, syncRunStartedAt: Option<Millis>, syncRunStatus: Option<Status>)

  /** What loadResultInputs assembles. */
  datatype GateInputs = GateInputs(
    result: Input,
    freshness: seq<Freshness>,
    groupActive: bool,
    dataCheckedObservedAt: Option<Millis>)

  datatype EligibleRow = EligibleRow(
    entryId: int,
    reconciliationStatus: Option<ReconciliationStatus>,
    syncRunStartedAt: Option<Millis>,
    syncRunStatus: Option<Status>)

  datatype BlockReason =
    | GROUP_ARCHIVED
    | NOT_DATA_CHECKED
    | ALREADY_FINAL
    | STALE_SYNC
    | RECONCILIATION_FAILED
    | NO_ELIGIBLE_MANAGERS
    | SEMANTICS_CONFLICTED
    | SEMANTICS_UNVERIFIED
    | SEMANTICS_MISMATCH
    | FINALIZE_SYNC_NOT_SUCCESS
    | RESULT_BLOCKED

  // ---- deriveEventState ----

  datatype Fixture = Fixture(event: Option<int>, finished: bool, finishedProvisional: bool)

  function DeriveEventState(gw: int, deadline: Millis, finished: bool, dataChecked: bool, fixtures: seq<Fixture>, now: Millis): EventState {
    if dataChecked then DATA_CHECKED
    else if finished then FPL_PROCESSING
    else
      var own := Filter(fixtures, (f: Fixture) => f.event == Some(gw));
      if own != [] && (forall f | f in own :: f.finishedProvisional || f.finished) then MATCHES_FINISHED
      else if now >= deadline then LIVE
      else UPCOMING
  }

  /** The state of an event: what FPL says of it first, then its own fixtures, then the deadline. */
  lemma EventStateIs(gw: int, deadline: Millis, finished: bool, dataChecked: bool, fixtures: seq<Fixture>, now: Millis)
    ensures var s := DeriveEventState(gw, deadline, finished, dataChecked, fixtures, now);
      var played := (exists f :: f in fixtures && f.event == Some(gw)) && forall f | f in fixtures && f.event == Some(gw) :: f.finished || f.finishedProvisional;
      && (s == DATA_CHECKED <==> dataChecked)
      && (s == FPL_PROCESSING <==> finished && !dataChecked)
      && (s == MATCHES_FINISHED <==> played && !finished && !dataChecked)
      && (s == LIVE <==> deadline <= now && !played && !finished && !dataChecked)
      && (s == UPCOMING <==> now < deadline && !played && !finished && !dataChecked)
  {
    var own := Filter(fixtures, (f: Fixture) => f.event == Some(gw));
    assert own != [] ==> own[0] in own;
  }

  function Stage(s: EventState): nat {
    match s case UPCOMING => 0 case LIVE => 1 case MATCHES_FINISHED => 2 case FPL_PROCESSING => 3 case DATA_CHECKED => 4
  }

  /** Time alone never takes a state back, and a fixture moved to another gameweek does not count. */
  lemma EventStateFacts(gw: int, deadline: Millis, finished: bool, dataChecked: bool, fixtures: seq<Fixture>, now: Millis, later: Millis, moved: Fixture)
    requires now <= later && moved.event != Some(gw)
    ensures Stage(DeriveEventState(gw, deadline, finished, dataChecked, fixtures, now))
         <= Stage(DeriveEventState(gw, deadline, finished, dataChecked, fixtures, later))
    ensures DeriveEventState(gw, deadline, finished, dataChecked, fixtures + [moved], now)
         == DeriveEventState(gw, deadline, finished, dataChecked, fixtures, now)
  {
    FilterOfAppend(fixtures, moved, (f: Fixture) => f.event == Some(gw));
  }

  // ---- canFinalize ----

  predicate Stale(r: EligibleRow, observed: Option<Millis>) {
    || r.syncRunStatus != Some(SUCCESS)
    || r.syncRunStartedAt.None?
    || observed.None?
    || r.syncRunStartedAt.value <= observed.value
  }

  predicate Unreconciled(r: EligibleRow) {
    r.reconciliationStatus.None? || !IsReconciled(r.reconciliationStatus.value)
  }

  /** What canFinalize asks for. */
  predicate CanFinalizeHolds(groupActive: bool, eventState: Option<EventState>, resultStatus: Option<ResultStatus>, observed: Option<Millis>, rows: seq<EligibleRow>) {
    && groupActive && eventState == Some(DATA_CHECKED) && resultStatus != Some(FINAL) && resultStatus != Some(OVERRIDDEN)
    && rows != [] && (forall r | r in rows :: !Stale(r, observed) && !Unreconciled(r))
  }

  predicate AnyStale(rows: seq<EligibleRow>, observed: Option<Millis>) {
    exists r | r in rows :: Stale(r, observed)
  }

  predicate AnyUnreconciled(rows: seq<EligibleRow>) {
    exists r | r in rows :: Unreconciled(r)
  }

  /** When canFinalize gives a reason. */
  predicate Fails(b: BlockReason, groupActive: bool, eventState: Option<EventState>, resultStatus: Option<ResultStatus>, observed: Option<Millis>, rows: seq<EligibleRow>) {
    match b
    case GROUP_ARCHIVED => !groupActive
    case NOT_DATA_CHECKED => eventState != Some(DATA_CHECKED)
    case ALREADY_FINAL => resultStatus == Some(FINAL) || resultStatus == Some(OVERRIDDEN)
    case STALE_SYNC => AnyStale(rows, observed)
    case RECONCILIATION_FAILED => AnyUnreconciled(rows)
    case NO_ELIGIBLE_MANAGERS => rows == []
    case _ => false
  }

  /** The first three pushes of canFinalize, and its last three. */
  function FirstReasons(archived: bool, unchecked: bool, decided: bool): (reasons: seq<BlockReason>)
    ensures forall b :: b in reasons <==> (b == GROUP_ARCHIVED && archived) || (b == NOT_DATA_CHECKED && unchecked) || (b == ALREADY_FINAL && decided)
  {
    PushIf(PushIf(PushIf([], archived, GROUP_ARCHIVED), unchecked, NOT_DATA_CHECKED), decided, ALREADY_FINAL)
  }

  function LastReasons(stale: bool, unreconciled: bool, nobody: bool): (reasons: seq<BlockReason>)
    ensures forall b :: b in reasons <==> (b == STALE_SYNC && stale) || (b == RECONCILIATION_FAILED && unreconciled) || (b == NO_ELIGIBLE_MANAGERS && nobody)
  {
    PushIf(PushIf(PushIf([], stale, STALE_SYNC), unreconciled, RECONCILIATION_FAILED), nobody, NO_ELIGIBLE_MANAGERS)
  }

  /** canFinalize: every failing reason, not just the first. */
  method CanFinalize(groupActive: bool, eventState: Option<EventState>, resultStatus: Option<ResultStatus>, observed: Option<Millis>, rows: seq<EligibleRow>)
    returns (reasons: seq<BlockReason>)
    ensures forall b :: b in reasons <==> Fails(b, groupActive, eventState, resultStatus, observed, rows)
    ensures reasons == [] <==> CanFinalizeHolds(groupActive, eventState, resultStatus, observed, rows)
  {
    reasons := FirstReasons(!groupActive, eventState != Some(DATA_CHECKED), resultStatus == Some(FINAL) || resultStatus == Some(OVERRIDDEN))
             + LastReasons(AnyStale(rows, observed), AnyUnreconciled(rows), rows == []);
    NoReasonIff(reasons, groupActive, eventState, resultStatus, observed, rows);
  }

  lemma NoReasonIff(reasons: seq<BlockReason>, groupActive: bool, eventState: Option<EventState>, resultStatus: Option<ResultStatus>, observed: Option<Millis>, rows: seq<EligibleRow>)
    requires forall b :: b in reasons <==> Fails(b, groupActive, eventState, resultStatus, observed, rows)
    ensures reasons == [] <==> CanFinalizeHolds(groupActive, eventState, resultStatus, observed, rows)
  {
    if reasons != [] {
      assert Fails(reasons[0], groupActive, eventState, resultStatus, observed, rows);
    } else {
      assert !Fails(GROUP_ARCHIVED, groupActive, eventState, resultStatus, observed, rows);
      assert !Fails(NOT_DATA_CHECKED, groupActive, eventState, resultStatus, observed, rows);
      assert !Fails(ALREADY_FINAL, groupActive, eventState, resultStatus, observed, rows);
      assert !Fails(STALE_SYNC, groupActive, eventState, resultStatus, observed, rows);
      assert !Fails(RECONCILIATION_FAILED, groupActive, eventState, resultStatus, observed, rows);
      assert !Fails(NO_ELIGIBLE_MANAGERS, groupActive, eventState, resultStatus, observed, rows);
    }
  }

  // ---- evaluateFinalizeGate ----

  /** new Map(inputs.gwRows.map(r => [r.entryId, r])) */
  function AllRowsByEntry(gwRows: seq<GwRow>): map<int, GwRow> {
    if gwRows == [] then map[]
    else
      var n := |gwRows| - 1;
      AllRowsByEntry(gwRows[..n])[gwRows[n].entryId := gwRows[n]]
  }

  function FreshnessOf(list: seq<Freshness>, id: int): Freshness {
    if list == [] then Freshness(id, None, None, None)
    else if list[|list| - 1].entryId == id then list[|list| - 1]
    else FreshnessOf(list[..|list| - 1], id)
  }

  /** Without a finalize run every confirmation counts. */
  predicate Confirmed(f: Freshness, finalizeRunId: Option<RunId>) {
    finalizeRunId.None? || f.syncRunId == finalizeRunId
  }

  function EligibleRowOf(id: int, inputs: GateInputs, finalizeRunId: Option<RunId>): EligibleRow {
    var rows, f := AllRowsByEntry(inputs.result.gwRows), FreshnessOf(inputs.freshness, id);
    EligibleRow(
      id,
      if id in rows then Some(rows[id].reconciliationStatus) else None,
      if Confirmed(f, finalizeRunId) then f.syncRunStartedAt else None,
      if Confirmed(f, finalizeRunId) then f.syncRunStatus else None)
  }

  function GateEligible(inputs: GateInputs): seq<int> {
    EligibleIds(SortByKey(inputs.result.members, MemberId()), AllRowsByEntry(inputs.result.gwRows), inputs.result.event)
  }

  /** A reconciled row that paid for transfers, so that its status depends on the points semantics. */
  predicate IsHit(rows: map<int, GwRow>, id: int) {
    id in rows && rows[id].transferCost > 0 && IsReconciled(rows[id].reconciliationStatus)
  }

  function HitRows(ids: seq<int>, rows: map<int, GwRow>): (r: seq<GwRow>)
    ensures forall x :: x in r <==> exists id | id in ids :: IsHit(rows, id) && x == rows[id]
  {
    if ids == [] then []
    else
      assert forall id :: id in ids <==> id == ids[0] || id in ids[1..];
      (if IsHit(rows, ids[0]) then [rows[ids[0]]] else []) + HitRows(ids[1..], rows)
  }

  predicate SemanticsBlocks(b: BlockReason, hits: seq<GwRow>, season: PointsSemantics) {
    && hits != []
    && match season
       case CONFLICTED => b == SEMANTICS_CONFLICTED
       case UNVERIFIED => b == SEMANTICS_UNVERIFIED
       case _ => b == SEMANTICS_MISMATCH && exists r | r in hits :: r.pointsSemantics != season
  }

  ghost predicate AnySemanticsReason(hits: seq<GwRow>, season: PointsSemantics) {
    exists b :: SemanticsBlocks(b, hits, season)
  }

  method SemanticsReasons(hits: seq<GwRow>, season: PointsSemantics) returns (reasons: seq<BlockReason>)
    ensures forall b :: b in reasons <==> SemanticsBlocks(b, hits, season)
    ensures reasons == [] <==> !AnySemanticsReason(hits, season)
  {
    reasons := [];
    if hits != [] {
      if season == CONFLICTED {
        reasons := [SEMANTICS_CONFLICTED];
      } else if season == UNVERIFIED {
        reasons := [SEMANTICS_UNVERIFIED];
      } else if exists r | r in hits :: r.pointsSemantics != season {
        reasons := [SEMANTICS_MISMATCH];
      }
    }
    assert reasons != [] ==> SemanticsBlocks(reasons[0], hits, season);
  }

  /** An eligible member whose row is reconciled and confirmed, by the finalize run if there is one, after `observed`. */
  predicate ReadyMember(id: int, inputs: GateInputs, finalizeRunId: Option<RunId>) {
    var rows, f := AllRowsByEntry(inputs.result.gwRows), FreshnessOf(inputs.freshness, id);
    && id in rows && IsReconciled(rows[id].reconciliationStatus)
    && Confirmed(f, finalizeRunId)
    && f.syncRunStatus == Some(SUCCESS)
    && f.syncRunStartedAt.Some? && inputs.dataCheckedObservedAt.Some?
    && f.syncRunStartedAt.value > inputs.dataCheckedObservedAt.value
  }

  /** The season's verdict fits an eligible member's row. */
  predicate SemanticsFit(id: int, inputs: GateInputs, season: PointsSemantics) {
    var rows := AllRowsByEntry(inputs.result.gwRows);
    IsHit(rows, id) ==> season != CONFLICTED && season != UNVERIFIED && rows[id].pointsSemantics == season
  }

  /** The whole gate, said of the members rather than of the reasons. */
  ghost predicate GateHolds(inputs: GateInputs, resultStatus: Option<ResultStatus>, finalizeRunId: Option<RunId>, season: PointsSemantics) {
    && inputs.groupActive
    && inputs.result.eventState == Some(DATA_CHECKED)
    && resultStatus != Some(FINAL) && resultStatus != Some(OVERRIDDEN)
    && GateEligible(inputs) != []
    && (forall id | id in GateEligible(inputs) :: ReadyMember(id, inputs, finalizeRunId) && SemanticsFit(id, inputs, season))
  }

  function EligibleRows(ids: seq<int>, inputs: GateInputs, finalizeRunId: Option<RunId>): seq<EligibleRow> {
    Map(ids, (id: int) => EligibleRowOf(id, inputs, finalizeRunId))
  }

  lemma ReadyRow(id: int, inputs: GateInputs, finalizeRunId: Option<RunId>)
    ensures var r := EligibleRowOf(id, inputs, finalizeRunId);
      !Stale(r, inputs.dataCheckedObservedAt) && !Unreconciled(r) <==> ReadyMember(id, inputs, finalizeRunId)
  {
  }

  lemma AllReady(ids: seq<int>, inputs: GateInputs, finalizeRunId: Option<RunId>)
    ensures (forall r | r in EligibleRows(ids, inputs, finalizeRunId) :: !Stale(r, inputs.dataCheckedObservedAt) && !Unreconciled(r))
       <==> forall id | id in ids :: ReadyMember(id, inputs, finalizeRunId)
  {
    var rows := EligibleRows(ids, inputs, finalizeRunId);
    forall id | id in ids && !ReadyMember(id, inputs, finalizeRunId)
      ensures exists r | r in rows :: Stale(r, inputs.dataCheckedObservedAt) || Unreconciled(r)
    {
      var k :| 0 <= k < |ids| && ids[k] == id;
      ReadyRow(id, inputs, finalizeRunId);
      assert rows[k] in rows;
    }
    forall r | r in rows && (Stale(r, inputs.dataCheckedObservedAt) || Unreconciled(r))
      ensures exists id | id in ids :: !ReadyMember(id, inputs, finalizeRunId)
    {
      var k :| 0 <= k < |rows| && rows[k] == r;
      ReadyRow(ids[k], inputs, finalizeRunId);
      assert ids[k] in ids;
    }
  }

  /** Some reason follows from the hit rows exactly when an eligible member's row does not fit. */
  lemma AllFit(ids: seq<int>, inputs: GateInputs, season: PointsSemantics)
    ensures AnySemanticsReason(HitRows(ids, AllRowsByEntry(inputs.result.gwRows)), season)
       <==> exists id | id in ids :: !SemanticsFit(id, inputs, season)
  {
    var rows := AllRowsByEntry(inputs.result.gwRows);
    var hits := HitRows(ids, rows);
    if id :| id in ids && !SemanticsFit(id, inputs, season) {
      assert IsHit(rows, id) && rows[id] in hits;
      var b := if season == CONFLICTED then SEMANTICS_CONFLICTED else if season == UNVERIFIED then SEMANTICS_UNVERIFIED else SEMANTICS_MISMATCH;
      assert hits != [];
      assert SemanticsBlocks(b, hits, season);
    }
    if b :| SemanticsBlocks(b, hits, season) {
      if season == CONFLICTED || season == UNVERIFIED {
        HitDoesNotFit(ids, inputs, season, hits[0]);
      } else {
        var r :| r in hits && r.pointsSemantics != season;
        HitDoesNotFit(ids, inputs, season, r);
      }
    }
  }

  lemma HitDoesNotFit(ids: seq<int>, inputs: GateInputs, season: PointsSemantics, r: GwRow)
    requires r in HitRows(ids, AllRowsByEntry(inputs.result.gwRows))
    requires season == CONFLICTED || season == UNVERIFIED || r.pointsSemantics != season
    ensures exists id | id in ids :: !SemanticsFit(id, inputs, season)
  {
  }

  /** The two halves of the gate hold exactly when it holds of every eligible member. */
  lemma GateInTwoHalves(inputs: GateInputs, resultStatus: Option<ResultStatus>, finalizeRunId: Option<RunId>, season: PointsSemantics)
    ensures GateHolds(inputs, resultStatus, finalizeRunId, season) <==>
        && CanFinalizeHolds(inputs.groupActive, inputs.result.eventState, resultStatus, inputs.dataCheckedObservedAt,
                            EligibleRows(GateEligible(inputs), inputs, finalizeRunId))
        && !AnySemanticsReason(HitRows(GateEligible(inputs), AllRowsByEntry(inputs.result.gwRows)), season)
  {
    var ids := GateEligible(inputs);
    assert |EligibleRows(ids, inputs, finalizeRunId)| == |ids|;
    AllReady(ids, inputs, finalizeRunId);
    AllFit(ids, inputs, season);
  }

  /** An eligible member's reconciled row paid for transfers. */
  predicate IsHitRow(inputs: GateInputs, id: int) {
    var rows := AllRowsByEntry(inputs.result.gwRows);
    && id in GateEligible(inputs) && id in rows && rows[id].transferCost > 0
    && (rows[id].reconciliationStatus == RECONCILED || rows[id].reconciliationStatus == RECONCILED_NO_COST)
  }

  ghost predicate HasHit(inputs: GateInputs) {
    exists id :: IsHitRow(inputs, id)
  }

  /** One that was read under other semantics than the season's. */
  ghost predicate HasOtherHit(inputs: GateInputs, season: PointsSemantics) {
    exists id :: IsHitRow(inputs, id) && AllRowsByEntry(inputs.result.gwRows)[id].pointsSemantics != season
  }

  /** A member's data was confirmed by a successful run, the finalize run if there is one, started after `observed`. */
  predicate IsFresh(inputs: GateInputs, finalizeRunId: Option<RunId>, id: int) {
    var f := FreshnessOf(inputs.freshness, id);
    && (finalizeRunId.Some? ==> f.syncRunId == finalizeRunId)
    && f.syncRunStatus == Some(SUCCESS)
    && f.syncRunStartedAt.Some? && inputs.dataCheckedObservedAt.Some?
    && inputs.dataCheckedObservedAt.value < f.syncRunStartedAt.value
  }

  /** No row, or one that is not reconciled. */
  predicate LacksPoints(inputs: GateInputs, id: int) {
    var rows := AllRowsByEntry(inputs.result.gwRows);
    id in rows ==> rows[id].reconciliationStatus != RECONCILED && rows[id].reconciliationStatus != RECONCILED_NO_COST
  }

  /** When the gate gives a reason, said of the members. */
  ghost predicate Applies(b: BlockReason, inputs: GateInputs, resultStatus: Option<ResultStatus>, finalizeRunId: Option<RunId>, season: PointsSemantics) {
    var rows, ids := AllRowsByEntry(inputs.result.gwRows), GateEligible(inputs);
    match b
    case GROUP_ARCHIVED => !inputs.groupActive
    case NOT_DATA_CHECKED => inputs.result.eventState != Some(DATA_CHECKED)
    case ALREADY_FINAL => resultStatus == Some(FINAL) || resultStatus == Some(OVERRIDDEN)
    case STALE_SYNC => exists id | id in ids :: !IsFresh(inputs, finalizeRunId, id)
    case RECONCILIATION_FAILED => exists id | id in ids :: LacksPoints(inputs, id)
    case NO_ELIGIBLE_MANAGERS => ids == []
    case SEMANTICS_CONFLICTED => season == CONFLICTED && HasHit(inputs)
    case SEMANTICS_UNVERIFIED => season == UNVERIFIED && HasHit(inputs)
    case SEMANTICS_MISMATCH => season != CONFLICTED && season != UNVERIFIED && HasOtherHit(inputs, season)
    case FINALIZE_SYNC_NOT_SUCCESS => false
    case RESULT_BLOCKED => false
  }

  lemma HitsAre(inputs: GateInputs, id: int)
    requires id in GateEligible(inputs)
    ensures IsHit(AllRowsByEntry(inputs.result.gwRows), id) <==> IsHitRow(inputs, id)
  {
  }

  lemma HitRowsMean(inputs: GateInputs)
    ensures HitRows(GateEligible(inputs), AllRowsByEntry(inputs.result.gwRows)) != [] <==> HasHit(inputs)
  {
    var rows, ids := AllRowsByEntry(inputs.result.gwRows), GateEligible(inputs);
    var hits := HitRows(ids, rows);
    if hits != [] {
      assert hits[0] in hits;
      var id :| id in ids && IsHit(rows, id) && hits[0] == rows[id];
      HitsAre(inputs, id);
    }
    if id :| IsHitRow(inputs, id) {
      HitsAre(inputs, id);
      assert rows[id] in hits;
    }
  }

  lemma OtherHitsMean(inputs: GateInputs, season: PointsSemantics)
    ensures (exists r | r in HitRows(GateEligible(inputs), AllRowsByEntry(inputs.result.gwRows)) :: r.pointsSemantics != season) <==> HasOtherHit(inputs, season)
  {
    var rows, ids := AllRowsByEntry(inputs.result.gwRows), GateEligible(inputs);
    var hits := HitRows(ids, rows);
    if r :| r in hits && r.pointsSemantics != season {
      var id :| id in ids && IsHit(rows, id) && r == rows[id];
      HitsAre(inputs, id);
    }
    if id :| IsHitRow(inputs, id) && rows[id].pointsSemantics != season {
      HitsAre(inputs, id);
      assert rows[id] in hits;
    }
  }

  lemma BlocksIff(b: BlockReason, hits: seq<GwRow>, season: PointsSemantics)
    ensures SemanticsBlocks(b, hits, season) <==>
      || (b == SEMANTICS_CONFLICTED && season == CONFLICTED && hits != [])
      || (b == SEMANTICS_UNVERIFIED && season == UNVERIFIED && hits != [])
      || (b == SEMANTICS_MISMATCH && season != CONFLICTED && season != UNVERIFIED && exists r | r in hits :: r.pointsSemantics != season)
  {
  }

  lemma StaleMeans(inputs: GateInputs, finalizeRunId: Option<RunId>)
    ensures AnyStale(EligibleRows(GateEligible(inputs), inputs, finalizeRunId), inputs.dataCheckedObservedAt)
       <==> exists id | id in GateEligible(inputs) :: !IsFresh(inputs, finalizeRunId, id)
  {
    var ids := GateEligible(inputs);
    var rows := EligibleRows(ids, inputs, finalizeRunId);
    if id :| id in ids && !IsFresh(inputs, finalizeRunId, id) {
      var k :| 0 <= k < |ids| && ids[k] == id;
      assert rows[k] in rows && Stale(rows[k], inputs.dataCheckedObservedAt);
    }
    if r :| r in rows && Stale(r, inputs.dataCheckedObservedAt) {
      var k :| 0 <= k < |rows| && rows[k] == r;
      assert ids[k] in ids && !IsFresh(inputs, finalizeRunId, ids[k]);
    }
  }

  lemma UnreconciledMeans(inputs: GateInputs, finalizeRunId: Option<RunId>)
    ensures AnyUnreconciled(EligibleRows(GateEligible(inputs), inputs, finalizeRunId))
       <==> exists id | id in GateEligible(inputs) :: LacksPoints(inputs, id)
  {
    var ids := GateEligible(inputs);
    var rows := EligibleRows(ids, inputs, finalizeRunId);
    if id :| id in ids && LacksPoints(inputs, id) {
      var k :| 0 <= k < |ids| && ids[k] == id;
      assert rows[k] in rows && Unreconciled(rows[k]);
    }
    if r :| r in rows && Unreconciled(r) {
      var k :| 0 <= k < |rows| && rows[k] == r;
      assert ids[k] in ids && LacksPoints(inputs, ids[k]);
    }
  }

  /** The reasons of the two halves are those that apply. */
  lemma ReasonApplies(b: BlockReason, inputs: GateInputs, resultStatus: Option<ResultStatus>, finalizeRunId: Option<RunId>, season: PointsSemantics)
    ensures Fails(b, inputs.groupActive, inputs.result.eventState, resultStatus, inputs.dataCheckedObservedAt, EligibleRows(GateEligible(inputs), inputs, finalizeRunId))
         || SemanticsBlocks(b, HitRows(GateEligible(inputs), AllRowsByEntry(inputs.result.gwRows)), season)
       <==> Applies(b, inputs, resultStatus, finalizeRunId, season)
  {
    BlocksIff(b, HitRows(GateEligible(inputs), AllRowsByEntry(inputs.result.gwRows)), season);
    HitRowsMean(inputs);
    OtherHitsMean(inputs, season);
    StaleMeans(inputs, finalizeRunId);
    UnreconciledMeans(inputs, finalizeRunId);
  }

  /** evaluateFinalizeGate: each reason exactly when it applies; none exactly when the gate holds. */
  method EvaluateFinalizeGate(inputs: GateInputs, resultStatus: Option<ResultStatus>, finalizeRunId: Option<RunId>, season: PointsSemantics)
    returns (reasons: seq<BlockReason>)
    ensures reasons == [] <==> GateHolds(inputs, resultStatus, finalizeRunId, season)
    ensures forall b :: b in reasons <==> Applies(b, inputs, resultStatus, finalizeRunId, season)
  {
    var rowByEntry := AllRowsByEntry(inputs.result.gwRows);
    var eligible, ineligible := SelectEligible(inputs.result.members, rowByEntry, inputs.result.event);
    var eligibleRows := EligibleRows(eligible, inputs, finalizeRunId);
    var gate := CanFinalize(inputs.groupActive, inputs.result.eventState, resultStatus, inputs.dataCheckedObservedAt, eligibleRows);
    var semantics := SemanticsReasons(HitRows(eligible, rowByEntry), season);
    reasons := gate + semantics;
    assert |reasons| == |gate| + |semantics|;
    GateInTwoHalves(inputs, resultStatus, finalizeRunId, season);
    forall b ensures b in reasons <==> Applies(b, inputs, resultStatus, finalizeRunId, season) {
      ReasonApplies(b, inputs, resultStatus, finalizeRunId, season);
    }
  }

  // ---- an allowed gate has a result ----

  /** loadResultInputs queries the rows by event, so the two ways of indexing them agree. */
  predicate RowsOfEvent(inputs: GateInputs) {
    forall r | r in inputs.result.gwRows :: r.event == inputs.result.event
  }

  lemma {:induction false} SameIndex(gwRows: seq<GwRow>, event: int)
    requires forall r | r in gwRows :: r.event == event
    ensures AllRowsByEntry(gwRows) == RowsByEntry(gwRows, event)
  {
    if gwRows != [] {
      var n := |gwRows| - 1;
      assert gwRows[n] in gwRows && forall r | r in gwRows[..n] :: r in gwRows;
      SameIndex(gwRows[..n], event);
    }
  }

  /**
   An allowed gate always finds a PROVISIONAL result with at least one winner, so finalize's own
   RESULT_BLOCKED reason is never reached.
   */
  lemma AllowedGateHasWinners(inputs: GateInputs, resultStatus: Option<ResultStatus>, finalizeRunId: Option<RunId>, season: PointsSemantics, nameKey: string -> real)
    requires WellFormedInput(inputs.result) && RowsOfEvent(inputs)
    requires GateHolds(inputs, resultStatus, finalizeRunId, season)
    ensures !Computed(inputs.result, nameKey).IsBlocked()
    ensures Computed(inputs.result, nameKey).outcome.winners != []
  {
    SameIndex(inputs.result.gwRows, inputs.result.event);
    var rows, ids := RowsByEntry(inputs.result.gwRows, inputs.result.event), GateEligible(inputs);
    assert forall k | 0 <= k < |ids| :: ids[k] in ids && ReadyMember(ids[k], inputs, finalizeRunId);
    NotBlocked(ids, rows);
    WinnersExistIff(inputs.result);
  }

  // ---- dataCheckedObservedAt over a history of event syncs ----

  /** One T1 transaction, as far as one event is concerned: what FPL said, and when it was stored. */
  datatype Observation = Observation(dataChecked: bool, at: Millis)

  /** `e.data_checked ? (prev ?? observedAt) : null` */
  function Observe(prev: Option<Millis>, o: Observation): Option<Millis> {
    if o.dataChecked then Some(prev.GetOr(o.at)) else None
  }

  function ObservedAfter(history: seq<Observation>): Option<Millis> {
    if history == [] then None
    else Observe(ObservedAfter(history[..|history| - 1]), history[|history| - 1])
  }

  /** Observation k begins the unbroken block of data_checked answers at the end of the history. */
  predicate BeginsLastBlock(history: seq<Observation>, k: int) {
    && 0 <= k < |history|
    && (forall i | k <= i < |history| :: history[i].dataChecked)
    && (k > 0 ==> !history[k - 1].dataChecked)
  }

  /** The stored time is that of the first observation of the last unbroken block. */
  lemma {:induction false} ObservedIsBlockStart(history: seq<Observation>)
    ensures ObservedAfter(history).Some? <==> history != [] && history[|history| - 1].dataChecked
    ensures ObservedAfter(history).Some? ==>
      exists k :: BeginsLastBlock(history, k) && ObservedAfter(history).value == history[k].at
  {
    if history != [] {
      var n := |history| - 1;
      var before := history[..n];
      ObservedIsBlockStart(before);
      if history[n].dataChecked {
        if ObservedAfter(before).Some? {
          var k :| BeginsLastBlock(before, k) && ObservedAfter(before).value == before[k].at;
          assert BeginsLastBlock(history, k);
        } else {
          assert BeginsLastBlock(history, n);
        }
      }
    }
  }

  /**
   Finalize never trusts data_checked on first sight. When the gate holds for a run, the sync that began the
   unbroken block of data_checked answers did so strictly before that run started; so it is not one of the
   run's own, and no sync since has seen otherwise.
   */
  lemma CheckedStrictlyBeforeRun(history: seq<Observation>, inputs: GateInputs, resultStatus: Option<ResultStatus>, run: RunId, season: PointsSemantics, startedAt: Millis)
    requires inputs.dataCheckedObservedAt == ObservedAfter(history)
    requires forall f | f in inputs.freshness && f.syncRunId == Some(run) :: f.syncRunStartedAt == Some(startedAt)
    requires GateHolds(inputs, resultStatus, Some(run), season)
    ensures exists k :: BeginsLastBlock(history, k) && history[k].at < startedAt
  {
    ObservedIsBlockStart(history);
    var ids := GateEligible(inputs);
    var id := ids[0];
    assert ReadyMember(id, inputs, Some(run));
    FreshnessIsListed(inputs.freshness, id);
    var k :| BeginsLastBlock(history, k) && ObservedAfter(history).value == history[k].at;
  }

  lemma {:induction false} FreshnessIsListed(list: seq<Freshness>, id: int)
    requires FreshnessOf(list, id).syncRunId.Some?
    ensures FreshnessOf(list, id) in list
  {
    if list != [] && list[|list| - 1].entryId != id {
      FreshnessIsListed(list[..|list| - 1], id);
    }
  }
}
