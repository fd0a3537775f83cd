/**
 What the stored trace and standings of a result say (server/src/services/resultModel.js and
 server/src/analytics/results.js). Their canonical forms are read back cell by cell: no column of a
 decision can change without its stored form changing.
 */
module Readback {
  import opened Wrappers
  import opened Sorting
  import opened Points
  import opened TieBreakers
  import opened Ranking
  import opened Winner
  import opened Eligibility
  import opened Results
  import opened Traces
  import opened Encoding
  import C = Canonical

  // ---- the trace ----

  function ReasonOf(s: string): IneligibleReason {
    if s == "EXCLUDED" then EXCLUDED else if s == "JOINED_LATER" then JOINED_LATER else NO_TEAM
  }

  function IneligibleFrom(j: Json): Ineligible {
    var c := Columns(j, ["entryId", "reason"]);
    Ineligible(IntOf(c[0]), ReasonOf(TextOf(c[1])))
  }

  function BlockedFrom(j: Json): Blocked {
    var c := Columns(j, ["entryId", "reconciliationStatus"]);
    Blocked(IntOf(c[0]), if TextOf(c[1]) == "NOT_SYNCED" then None else Some(ReconciliationOf(TextOf(c[1]))))
  }

  function StepFrom(j: Json): TraceStep {
    var c := Columns(j, ["rule", "remaining", "note"]);
    TraceStep(RuleOf(TextOf(c[0])), ListFrom(c[1], IntFrom), c[2].Some?)
  }

  lemma IneligibleReads(i: Ineligible)
    ensures Reads(i, IneligibleValue, IneligibleFrom)
  {
    NamesAreStorable();
    NumReads(i.entryId);
    ObjectReads(INELIGIBLE, [Num(i.entryId), C.Text(ReasonName(i.reason))]);
  }

  lemma BlockedShown(b: Blocked)
    ensures C.Canonicalizable(BlockedValue(b))
    ensures var c := Columns(C.MeaningOf(BlockedValue(b), false), BLOCKED);
      |c| == 2 && IntOf(c[0]) == b.entryId
      && TextOf(c[1]) == match b.reconciliationStatus case Some(s) => StatusName(s) case None => "NOT_SYNCED"
  {
    NamesAreStorable();
    NumReads(b.entryId);
    ObjectReads(BLOCKED, [Num(b.entryId), C.Text(match b.reconciliationStatus case Some(s) => StatusName(s) case None => "NOT_SYNCED")]);
  }

  lemma NotSyncedIsNoStatus(s: ReconciliationStatus)
    ensures StatusName(s) != "NOT_SYNCED" && ReconciliationOf(StatusName(s)) == s
  {
  }

  lemma BlockedReads(b: Blocked)
    ensures Reads(b, BlockedValue, BlockedFrom)
  {
    BlockedShown(b);
    if b.reconciliationStatus.Some? {
      NotSyncedIsNoStatus(b.reconciliationStatus.value);
    }
  }

  lemma StepShown(s: TraceStep)
    ensures C.Canonicalizable(StepValue(s))
    ensures var c := Columns(C.MeaningOf(StepValue(s), false), STEP);
      |c| == 3 && TextOf(c[0]) == RuleName(s.rule) && c[1] == Shown(ListValue(s.remaining, Num)) && (c[2].Some? <==> s.missing)
  {
    NamesAreStorable();
    ListIsPlain(s.remaining, Num);
    ObjectReads(STEP, [RuleValue(s.rule), ListValue(s.remaining, Num), if s.missing then C.Text("TIE_BREAK_DATA_MISSING") else C.Undefined]);
  }

  lemma StepReads(s: TraceStep)
    ensures Reads(s, StepValue, StepFrom)
  {
    StepShown(s);
    RuleReads(s.rule);
    IntsRead(s.remaining);
  }

  lemma TraceListsRead(t: DecisionTrace)
    ensures Plain(ListValue(t.ineligible, IneligibleValue)) && ListFrom(Shown(ListValue(t.ineligible, IneligibleValue)), IneligibleFrom) == t.ineligible
    ensures Plain(ListValue(t.blockedBy, BlockedValue)) && ListFrom(Shown(ListValue(t.blockedBy, BlockedValue)), BlockedFrom) == t.blockedBy
    ensures Plain(ListValue(t.steps, StepValue)) && ListFrom(Shown(ListValue(t.steps, StepValue)), StepFrom) == t.steps
  {
    forall k | 0 <= k < |t.ineligible| ensures Reads(t.ineligible[k], IneligibleValue, IneligibleFrom) {
      IneligibleReads(t.ineligible[k]);
    }
    ListReads(t.ineligible, IneligibleValue, IneligibleFrom);
    forall k | 0 <= k < |t.blockedBy| ensures Reads(t.blockedBy[k], BlockedValue, BlockedFrom) {
      BlockedReads(t.blockedBy[k]);
    }
    ListReads(t.blockedBy, BlockedValue, BlockedFrom);
    forall k | 0 <= k < |t.steps| ensures Reads(t.steps[k], StepValue, StepFrom) {
      StepReads(t.steps[k]);
    }
    ListReads(t.steps, StepValue, StepFrom);
  }

  function OutcomeOf(s: string): Traces.Verdict {
    if s == "NONE" then NONE else if s == "SINGLE" then SINGLE else SHARED
  }

  function TraceFrom(j: Json): DecisionTrace {
    var c := Columns(j, ["status", "eligible", "ineligible", "blockedBy", "winningScore", "topScoreTied", "steps", "decidedBy", "outcome", "winners"]);
    DecisionTrace(
      TextOf(c[0]) == "BLOCKED", ListFrom(c[1], IntFrom), ListFrom(c[2], IneligibleFrom), ListFrom(c[3], BlockedFrom), IntOrNullOf(c[4]),
      ListFrom(c[5], IntFrom), ListFrom(c[6], StepFrom), match TextOrNullOf(c[7]) case Some(s) => Some(RuleOf(s)) case None => None,
      OutcomeOf(TextOf(c[8])), ListFrom(c[9], IntFrom))
  }

  ghost predicate TraceFieldsArePlain(t: DecisionTrace) {
    |TraceFields(t)| == 10 && forall k | 0 <= k < 10 :: Plain(TraceFields(t)[k])
  }

  lemma TraceFieldsAre(t: DecisionTrace)
    ensures TraceFieldsArePlain(t)
  {
    IntsRead(t.eligible);
    IntsRead(t.topScoreTied);
    IntsRead(t.winners);
    TraceListsRead(t);
  }

  lemma TraceTexts(t: DecisionTrace, c: seq<Option<Json>>)
    requires TraceFieldsArePlain(t) && c == AllShown(TraceFields(t))
    ensures (TextOf(c[0]) == "BLOCKED") == t.blocked && IntOrNullOf(c[4]) == t.winningScore && OutcomeOf(TextOf(c[8])) == t.outcome
    ensures (match TextOrNullOf(c[7]) case Some(s) => Some(RuleOf(s)) case None => None) == t.decidedBy
  {
    NumOrNullReads(t.winningScore);
    if t.decidedBy.Some? {
      RuleReads(t.decidedBy.value);
    }
  }

  lemma TraceIds(t: DecisionTrace, c: seq<Option<Json>>)
    requires TraceFieldsArePlain(t) && c == AllShown(TraceFields(t))
    ensures ListFrom(c[1], IntFrom) == t.eligible && ListFrom(c[5], IntFrom) == t.topScoreTied && ListFrom(c[9], IntFrom) == t.winners
  {
    IntsRead(t.eligible);
    IntsRead(t.topScoreTied);
    IntsRead(t.winners);
  }

  lemma TraceLists(t: DecisionTrace, c: seq<Option<Json>>)
    requires TraceFieldsArePlain(t) && c == AllShown(TraceFields(t))
    ensures ListFrom(c[2], IneligibleFrom) == t.ineligible && ListFrom(c[3], BlockedFrom) == t.blockedBy && ListFrom(c[6], StepFrom) == t.steps
  {
    TraceListsRead(t);
  }

  function TraceIn(f: Form): DecisionTrace {
    TraceFrom(C.Read(f))
  }

  /** The stored trace is read back exactly. */
  lemma TraceReadsBack(t: DecisionTrace)
    ensures TraceIn(TraceForm(t)) == t
  {
    var c := AllShownTrace(t);
    TraceIsPlain(t);
    C.FormReadsAsShown(TraceValue(t));
    TraceTexts(t, c);
    TraceIds(t, c);
    TraceLists(t, c);
  }

  /** The columns of the stored object. */
  lemma AllShownTrace(t: DecisionTrace) returns (c: seq<Option<Json>>)
    ensures TraceFieldsArePlain(t) && c == AllShown(TraceFields(t))
    ensures C.Canonicalizable(TraceValue(t)) && Columns(C.MeaningOf(TraceValue(t), false), TRACE) == c
  {
    TraceFieldsAre(t);
    TraceNames();
    ObjectReads(TRACE, TraceFields(t));
    c := AllShown(TraceFields(t));
  }

  // ---- the standings ----

  /** A row of the stored table; the texts are the names the program gives its constants. */
  datatype Cells = Cells(
    entryId: int,
    playerName: Option<string>,
    teamName: Option<string>,
    reportedGwPoints: Option<int>,
    grossGwPoints: Option<int>,
    netGwPoints: Option<int>,
    transferCost: Option<int>,
    score: Option<int>,
    reconciliationStatus: Option<string>,
    competitionRank: Option<int>,
    resolvedPosition: Option<int>,
    positionDecidedBy: Option<string>,
    tiedWith: seq<int>,
    ineligibleReason: Option<string>,
    isWinner: bool,
    isMe: bool)

  /** What the cells of a row show. */
  predicate Shows(c: Cells, s: Standing) {
    && c.entryId == s.entryId && c.playerName == s.names.playerName && c.teamName == s.names.teamName
    && ShowsRow(c, s) && ShowsPlace(c, s)
    && c.tiedWith == s.tiedWith && c.isWinner == s.isWinner && c.isMe == s.isMe
    && (c.ineligibleReason == None <==> s.ineligibleReason == None)
    && (s.ineligibleReason.Some? ==> ReasonOf(c.ineligibleReason.value) == s.ineligibleReason.value)
  }

  /** The gameweek row, if there is one; a missing one of an eligible member is not synced. */
  predicate ShowsRow(c: Cells, s: Standing) {
    match s.row
    case Some(r) =>
      && c.reportedGwPoints == Some(r.reportedGwPoints) && c.grossGwPoints == r.grossGwPoints && c.netGwPoints == r.netGwPoints
      && c.transferCost == Some(r.transferCost)
      && c.reconciliationStatus.Some? && ReconciliationOf(c.reconciliationStatus.value) == r.reconciliationStatus
    case None =>
      && c.reportedGwPoints == None && c.grossGwPoints == None && c.netGwPoints == None && c.transferCost == None
      && c.reconciliationStatus == if s.ineligibleReason.Some? then None else Some("NOT_SYNCED")
  }

  predicate ShowsPlace(c: Cells, s: Standing) {
    && c.score == s.score && c.competitionRank == s.competitionRank
    && (s.position.None? ==> c.resolvedPosition == None && c.positionDecidedBy == None)
    && (s.position.Some? ==>
          && c.resolvedPosition == Some(s.position.value.resolvedPosition)
          && match s.position.value.positionDecidedBy
             case Nothing => c.positionDecidedBy == None
             case ByRule(rule) => c.positionDecidedBy.Some? && RuleOf(c.positionDecidedBy.value) == rule
             case EntryIdFallback => c.positionDecidedBy == Some("ENTRY_ID_FALLBACK"))
  }

  function CellsOf(c: seq<Option<Json>>): Cells
    requires |c| == 16
  {
    Cells(IntOf(c[0]), TextOrNullOf(c[1]), TextOrNullOf(c[2]), IntOrNullOf(c[3]), IntOrNullOf(c[4]), IntOrNullOf(c[5]), IntOrNullOf(c[6]),
          IntOrNullOf(c[7]), TextOrNullOf(c[8]), IntOrNullOf(c[9]), IntOrNullOf(c[10]), TextOrNullOf(c[11]),
          ListFrom(c[12], IntFrom), TextOrNullOf(c[13]), BoolOf(c[14]), BoolOf(c[15]))
  }

  function CellsFrom(j: Json): Cells {
    CellsOf(Columns(j, [
      "entryId", "playerName", "teamName", "reportedGwPoints", "grossGwPoints", "netGwPoints", "transferCost", "score",
      "reconciliationStatus", "competitionRank", "resolvedPosition", "positionDecidedBy", "tiedWith", "ineligibleReason", "isWinner", "isMe"]))
  }

  ghost predicate StandingIsPlain(s: Standing) {
    |StandingFields(s)| == 16 && forall k | 0 <= k < 16 :: Plain(StandingFields(s)[k])
  }

  /** The columns of a stored row. */
  lemma AllShownStanding(s: Standing) returns (c: seq<Option<Json>>)
    ensures StandingIsPlain(s) && c == AllShown(StandingFields(s))
    ensures C.Canonicalizable(StandingValue(s)) && CellsFrom(C.MeaningOf(StandingValue(s), false)) == CellsOf(c)
  {
    StandingFieldsArePlain(s);
    StandingNames();
    ObjectReads(STANDING, StandingFields(s));
    c := AllShown(StandingFields(s));
  }

  lemma HeadCells(s: Standing, c: seq<Option<Json>>)
    requires StandingIsPlain(s) && c == AllShown(StandingFields(s))
    ensures IntOf(c[0]) == s.entryId && TextOrNullOf(c[1]) == s.names.playerName && TextOrNullOf(c[2]) == s.names.teamName
  {
    StandingHeadIsPlain(s);
    NumReads(s.entryId);
    TextOrNullReads(s.names.playerName);
    TextOrNullReads(s.names.teamName);
    assert StandingFields(s)[0] == StandingHead(s)[0] && StandingFields(s)[1] == StandingHead(s)[1] && StandingFields(s)[2] == StandingHead(s)[2];
  }

  lemma PointCells(s: Standing, c: seq<Option<Json>>, k: nat)
    requires StandingIsPlain(s) && c == AllShown(StandingFields(s)) && k < 4
    ensures |RowInts(s.row)| == 4 && IntOrNullOf(c[3 + k]) == RowInts(s.row)[k]
  {
    StandingHeadIsPlain(s);
    NumOrNullReads(RowInts(s.row)[k]);
    assert StandingFields(s)[3 + k] == StandingHead(s)[3 + k] == NumOrNull(RowInts(s.row)[k]);
  }

  lemma PlaceCells(s: Standing, c: seq<Option<Json>>)
    requires StandingIsPlain(s) && c == AllShown(StandingFields(s))
    ensures IntOrNullOf(c[7]) == s.score && IntOrNullOf(c[9]) == s.competitionRank
    ensures IntOrNullOf(c[10]) == match s.position case Some(p) => Some(p.resolvedPosition) case None => None
  {
    StandingHeadIsPlain(s);
    StandingPlaceIsPlain(s);
    assert StandingFields(s)[7] == StandingPlace(s)[0] && StandingFields(s)[9] == StandingPlace(s)[2] && StandingFields(s)[10] == StandingPlace(s)[3];
    NumOrNullReads(s.score);
    NumOrNullReads(s.competitionRank);
    NumOrNullReads(match s.position case Some(p) => Some(p.resolvedPosition) case None => None);
  }

  lemma StatusCells(s: Standing, c: seq<Option<Json>>)
    requires StandingIsPlain(s) && c == AllShown(StandingFields(s))
    ensures TextOrNullOf(c[8]) == RowStatus(s) && TextOrNullOf(c[11]) == DecidedByText(s.position)
  {
    StandingHeadIsPlain(s);
    StandingPlaceIsPlain(s);
    assert StandingFields(s)[8] == StandingPlace(s)[1] && StandingFields(s)[11] == StandingPlace(s)[4];
    TextOrNullReads(RowStatus(s));
    TextOrNullReads(DecidedByText(s.position));
  }

  lemma TailCells(s: Standing, c: seq<Option<Json>>)
    requires StandingIsPlain(s) && c == AllShown(StandingFields(s))
    ensures ListFrom(c[12], IntFrom) == s.tiedWith && BoolOf(c[14]) == s.isWinner && BoolOf(c[15]) == s.isMe
    ensures TextOrNullOf(c[13]) == match s.ineligibleReason case Some(r) => Some(ReasonName(r)) case None => None
  {
    StandingHeadIsPlain(s);
    StandingPlaceIsPlain(s);
    StandingTailIsPlain(s);
    assert StandingFields(s)[12] == StandingTail(s)[0] && StandingFields(s)[13] == StandingTail(s)[1];
    assert StandingFields(s)[14] == StandingTail(s)[2] && StandingFields(s)[15] == StandingTail(s)[3];
    IntsRead(s.tiedWith);
    TextOrNullReads(match s.ineligibleReason case Some(r) => Some(ReasonName(r)) case None => None);
  }

  lemma RowCellsShow(s: Standing, c: Cells)
    requires RowInts(s.row) == [c.reportedGwPoints, c.grossGwPoints, c.netGwPoints, c.transferCost] && c.reconciliationStatus == RowStatus(s)
    ensures ShowsRow(c, s)
  {
    var ints := RowInts(s.row);
    assert ints[0] == c.reportedGwPoints && ints[1] == c.grossGwPoints && ints[2] == c.netGwPoints && ints[3] == c.transferCost;
    if s.row.Some? {
      StatusReads(s.row.value.reconciliationStatus);
    }
  }

  lemma PlaceCellsShow(s: Standing, c: Cells)
    requires c.score == s.score && c.competitionRank == s.competitionRank
    requires c.resolvedPosition == match s.position case Some(p) => Some(p.resolvedPosition) case None => None
    requires c.positionDecidedBy == DecidedByText(s.position)
    ensures ShowsPlace(c, s)
  {
    if s.position.Some? && s.position.value.positionDecidedBy.ByRule? {
      RuleReads(s.position.value.positionDecidedBy.rule);
    }
  }

  lemma FourPointCells(s: Standing, c: seq<Option<Json>>)
    requires StandingIsPlain(s) && c == AllShown(StandingFields(s))
    ensures RowInts(s.row) == [IntOrNullOf(c[3]), IntOrNullOf(c[4]), IntOrNullOf(c[5]), IntOrNullOf(c[6])]
  {
    PointCells(s, c, 0);
    PointCells(s, c, 1);
    PointCells(s, c, 2);
    PointCells(s, c, 3);
  }

  lemma RowCells(s: Standing, c: seq<Option<Json>>)
    requires StandingIsPlain(s) && c == AllShown(StandingFields(s))
    ensures ShowsRow(CellsOf(c), s)
  {
    FourPointCells(s, c);
    StatusCells(s, c);
    RowCellsShow(s, CellsOf(c));
  }

  lemma PlacesShow(s: Standing, c: seq<Option<Json>>)
    requires StandingIsPlain(s) && c == AllShown(StandingFields(s))
    ensures ShowsPlace(CellsOf(c), s)
  {
    PlaceCells(s, c);
    StatusCells(s, c);
    PlaceCellsShow(s, CellsOf(c));
  }

  lemma TailShows(s: Standing, c: Cells)
    requires c.ineligibleReason == match s.ineligibleReason case Some(r) => Some(ReasonName(r)) case None => None
    ensures c.ineligibleReason == None <==> s.ineligibleReason == None
    ensures s.ineligibleReason.Some? ==> ReasonOf(c.ineligibleReason.value) == s.ineligibleReason.value
  {
  }

  lemma AllCellsShow(s: Standing, c: seq<Option<Json>>)
    requires StandingIsPlain(s) && c == AllShown(StandingFields(s))
    ensures Shows(CellsOf(c), s)
  {
    RowCells(s, c);
    PlacesShow(s, c);
    HeadCells(s, c);
    TailCells(s, c);
    TailShows(s, CellsOf(c));
  }

  lemma StandingReads(s: Standing)
    ensures C.Canonicalizable(StandingValue(s)) && Shows(CellsFrom(C.MeaningOf(StandingValue(s), false)), s)
  {
    var c := AllShownStanding(s);
    AllCellsShow(s, c);
  }

  function StandingsIn(f: Form): seq<Cells> {
    ListFrom(Some(C.Read(f)), CellsFrom)
  }

  /** The stored table has a row for each of the result's, in its order, and every cell shows the result's value. */
  lemma StandingsReadBack(rows: seq<Standing>)
    ensures |StandingsIn(StandingsForm(rows))| == |rows|
    ensures forall k | 0 <= k < |rows| :: Shows(StandingsIn(StandingsForm(rows))[k], rows[k])
  {
    var v := ListValue(rows, StandingValue);
    StandingsArePlain(rows);
    C.FormReadsAsShown(v);
    var cells := StandingsIn(StandingsForm(rows));
    assert |cells| == |rows|;
    forall k | 0 <= k < |rows| ensures Shows(cells[k], rows[k]) {
      StandingReads(rows[k]);
      assert v.items[k] == StandingValue(rows[k]);
    }
  }
}
