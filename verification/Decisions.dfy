/**
 The decisions of server/src/services/resultService.js: the plans of finalize, override and
 recompute, and runT4, the transaction that commits one.
 */
module Decisions {
  import opened Wrappers
  import opened Sorting
  import opened Points
  import opened SyncRuns
  import opened Eligibility
  import opened Results
  import opened FinalizeGate
  import opened Traces
  import Encoding
  import opened HashChain
  import opened ResultRepo
  import Snapshots

  datatype Request =
    | Finalize(runId: RunId, runStatus: Status)
    | Override(winners: seq<int>, overrideNote: string)
    | Recompute(note: Option<string>)

  /** What a plan loads on the transaction's snapshot; `rest` is the text of sources, dates and versions. */
  datatype Loaded = Loaded(gate: GateInputs, season: PointsSemantics, rest: string)

  datatype Refusal =
    | FINALIZE_BLOCKED
    | VALIDATION_FAILED
    | GROUP_IS_ARCHIVED
    | OVERRIDE_NOT_ALLOWED
    | WINNERS_NOT_MEMBERS
    | NOT_FINAL
    | RECOMPUTE_BLOCKED
    | NOTE_REQUIRED

  datatype Plan = Replay | Write(snapshot: Snapshot, newStatus: ResultStatus) | Refuse(refusal: Refusal)

  /** What stays fixed over a deployment: the hash, the collation of names and the plan callback of runT4. */
  datatype World = World(
    hash: Doc -> Hash,
    nameKey: string -> real,
    plan: (Request, Option<Pointer>, Option<Snapshot>, Loaded) -> Plan)

  datatype T4Error = LOCK_LOST | CHAIN_INVALID | Refused(refusal: Refusal) | Repo(error: RepoError)

  predicate WellFormedLoad(load: Loaded) {
    WellFormedInput(load.gate.result) && RowsOfEvent(load.gate)
  }

  /** contentHash of a canonical form of engine inputs. */
  function InputsHash(w: World): Encoding.Form -> string {
    (f: Encoding.Form) => w.hash(InputsDoc(f))
  }

  function StatusOf(head: Option<Pointer>): Option<ResultStatus> {
    match head case Some(p) => Some(p.status) case None => None
  }

  function Build(w: World, load: Loaded, r: GwResult, kind: Snapshots.Kind, declared: seq<int>): Snapshot {
    Snapshots.BuildSnapshot(load.gate.result, r, kind, declared, InputsHash(w), load.rest)
  }

  predicate IsMember(members: seq<Member>, id: int) {
    exists m | m in members :: m.entryId == id
  }

  // ---- plans ----

  /** A repeated finalize: the current FINAL result already rests on these inputs and these winners. */
  predicate Replays(w: World, head: Option<Pointer>, prev: Option<Snapshot>, r: GwResult) {
    && StatusOf(head) == Some(FINAL)
    && prev.Some? && prev.value.kind == Snapshots.RULE_BASED
    && prev.value.inputsHash == InputsHash(w)(Encoding.InputsForm(r.inputs))
    && prev.value.declaredWinnerEntryIds == r.outcome.winners
  }

  ghost function FinalizePlan(w: World, runId: RunId, runStatus: Status, head: Option<Pointer>, prev: Option<Snapshot>, load: Loaded, r: GwResult): Plan {
    if Replays(w, head, prev, r) then Replay
    else if GateHolds(load.gate, StatusOf(head), Some(runId), load.season) && runStatus == SUCCESS
    then Write(Build(w, load, r, Snapshots.RULE_BASED, r.outcome.winners), FINAL)
    else Refuse(FINALIZE_BLOCKED)
  }

  /** Every reason that applies is given and no other; RESULT_BLOCKED never is. */
  ghost predicate ReasonsAre(reasons: seq<BlockReason>, runId: RunId, runStatus: Status, head: Option<Pointer>, load: Loaded) {
    && RESULT_BLOCKED !in reasons
    && (FINALIZE_SYNC_NOT_SUCCESS in reasons <==> runStatus != SUCCESS)
    && forall b | b != FINALIZE_SYNC_NOT_SUCCESS :: b in reasons <==> Applies(b, load.gate, StatusOf(head), Some(runId), load.season)
  }

  /** The reasons of finalize: the gate's, and one of its own when the sync did not succeed; RESULT_BLOCKED never occurs. */
  method FinalizeReasons(runId: RunId, runStatus: Status, head: Option<Pointer>, load: Loaded, result: GwResult, nameKey: string -> real)
    returns (reasons: seq<BlockReason>)
    requires WellFormedLoad(load) && result == Computed(load.gate.result, nameKey)
    ensures reasons == [] <==> GateHolds(load.gate, StatusOf(head), Some(runId), load.season) && runStatus == SUCCESS
    ensures ReasonsAre(reasons, runId, runStatus, head, load)
  {
    var gate := EvaluateFinalizeGate(load.gate, StatusOf(head), Some(runId), load.season);
    reasons := gate;
    if runStatus != SUCCESS {
      reasons := [FINALIZE_SYNC_NOT_SUCCESS] + reasons;
    }
    if gate == [] {
      AllowedGateHasWinners(load.gate, StatusOf(head), Some(runId), load.season, nameKey);
    }
    if gate == [] && result.IsBlocked() {
      reasons := reasons + [RESULT_BLOCKED];
    }
    GateReasonsAre(gate, reasons, runId, runStatus, head, load);
  }

  lemma GateReasonsAre(gate: seq<BlockReason>, reasons: seq<BlockReason>, runId: RunId, runStatus: Status, head: Option<Pointer>, load: Loaded)
    requires forall b :: b in gate <==> Applies(b, load.gate, StatusOf(head), Some(runId), load.season)
    requires reasons == (if runStatus != SUCCESS then [FINALIZE_SYNC_NOT_SUCCESS] else []) + gate
    ensures ReasonsAre(reasons, runId, runStatus, head, load)
  {
    forall b ensures b in reasons <==> b in gate || (b == FINALIZE_SYNC_NOT_SUCCESS && runStatus != SUCCESS) {
    }
  }

  /** The finalize plan. */
  method PlanFinalize(w: World, runId: RunId, runStatus: Status, head: Option<Pointer>, prev: Option<Snapshot>, load: Loaded)
    returns (plan: Plan, reasons: seq<BlockReason>)
    requires WellFormedLoad(load)
    ensures plan == FinalizePlan(w, runId, runStatus, head, prev, load, Computed(load.gate.result, w.nameKey))
    ensures plan.Refuse? <==> reasons != []
    ensures plan.Refuse? ==> plan.refusal == FINALIZE_BLOCKED
    ensures RESULT_BLOCKED !in reasons
    ensures plan.Refuse? ==> ReasonsAre(reasons, runId, runStatus, head, load)
  {
    var result := ComputeGwResult(load.gate.result, w.nameKey);
    if Replays(w, head, prev, result) {
      return Replay, [];
    }
    reasons := FinalizeReasons(runId, runStatus, head, load, result, w.nameKey);
    if reasons != [] {
      return Refuse(FINALIZE_BLOCKED), reasons;
    }
    plan := Write(Build(w, load, result, Snapshots.RULE_BASED, result.outcome.winners), FINAL);
  }

  ghost function OverridePlan(w: World, winners: seq<int>, head: Option<Pointer>, load: Loaded, r: GwResult): Plan {
    if !NoRepeats(winners) then Refuse(VALIDATION_FAILED)
    else if !load.gate.groupActive then Refuse(GROUP_IS_ARCHIVED)
    else if head.None? && load.gate.result.eventState != Some(DATA_CHECKED) then Refuse(OVERRIDE_NOT_ALLOWED)
    else if exists id | id in winners :: !IsMember(load.gate.result.members, id) then Refuse(WINNERS_NOT_MEMBERS)
    else Write(Build(w, load, r, Snapshots.OVERRIDE, SortedIds(winners)), OVERRIDDEN)
  }

  /** The ids, each once, in ascending order. */
  predicate Ascending(ids: seq<int>) {
    forall i, j | 0 <= i < j < |ids| :: ids[i] < ids[j]
  }

  /** The snapshot holds what the engine computes from the loaded inputs, and recomputes to itself. */
  ghost predicate RecordsEngine(w: World, load: Loaded, s: Snapshot) {
    && s.computedWinnerEntryIds == Computed(load.gate.result, w.nameKey).outcome.winners
    && WellFormedInput(Snapshots.StoredInput(s))
    && Snapshots.Reproduces(s, w.nameKey, InputsHash(w))
  }

  lemma BuildRecords(w: World, load: Loaded, kind: Snapshots.Kind, declared: seq<int>)
    requires WellFormedLoad(load)
    ensures RecordsEngine(w, load, Build(w, load, Computed(load.gate.result, w.nameKey), kind, declared))
  {
    Snapshots.SnapshotReproduces(load.gate.result, w.nameKey, kind, declared, InputsHash(w), load.rest);
  }

  lemma SortedIdsAscend(ids: seq<int>)
    requires NoRepeats(ids)
    ensures Ascending(SortedIds(ids)) && multiset(SortedIds(ids)) == multiset(ids)
  {
    SortByKeyIsStrict(ids, (id: int) => id);
  }

  /** When an override may be written at all. */
  predicate MayOverride(winners: seq<int>, head: Option<Pointer>, load: Loaded) {
    && NoRepeats(winners)
    && load.gate.groupActive
    && (head.Some? || load.gate.result.eventState == Some(DATA_CHECKED))
    && (forall id | id in winners :: IsMember(load.gate.result.members, id))
  }

  lemma OverridePlanIff(w: World, winners: seq<int>, head: Option<Pointer>, load: Loaded, r: GwResult)
    ensures MayOverride(winners, head, load) ==>
      OverridePlan(w, winners, head, load, r) == Write(Build(w, load, r, Snapshots.OVERRIDE, SortedIds(winners)), OVERRIDDEN)
    ensures !MayOverride(winners, head, load) ==> OverridePlan(w, winners, head, load, r).Refuse?
  {
  }

  /** An override writes exactly when it may; what it writes declares the given ids, each once, ascending. */
  lemma OverrideWritesIff(w: World, winners: seq<int>, head: Option<Pointer>, load: Loaded)
    requires WellFormedLoad(load)
    ensures var plan := OverridePlan(w, winners, head, load, Computed(load.gate.result, w.nameKey));
      && !plan.Replay? && (plan.Write? <==> MayOverride(winners, head, load))
      && (plan.Write? ==> OverrideWrites(w, load, plan, winners))
  {
    OverridePlanIff(w, winners, head, load, Computed(load.gate.result, w.nameKey));
    if MayOverride(winners, head, load) {
      SortedIdsAscend(winners);
      BuildRecords(w, load, Snapshots.OVERRIDE, SortedIds(winners));
    }
  }

  ghost predicate OverrideWrites(w: World, load: Loaded, plan: Plan, winners: seq<int>)
    requires plan.Write?
  {
    && plan.newStatus == OVERRIDDEN && plan.snapshot.kind == Snapshots.OVERRIDE
    && Ascending(plan.snapshot.declaredWinnerEntryIds) && multiset(plan.snapshot.declaredWinnerEntryIds) == multiset(winners)
    && RecordsEngine(w, load, plan.snapshot)
  }

  /** When an override is refused with which answer: the first that applies. */
  predicate RefusesOverride(e: Refusal, winners: seq<int>, head: Option<Pointer>, load: Loaded) {
    var again := exists i, j :: 0 <= i < j < |winners| && winners[i] == winners[j];
    var early := head.None? && load.gate.result.eventState != Some(DATA_CHECKED);
    match e
    case VALIDATION_FAILED => again
    case GROUP_IS_ARCHIVED => !again && !load.gate.groupActive
    case OVERRIDE_NOT_ALLOWED => !again && load.gate.groupActive && early
    case WINNERS_NOT_MEMBERS => !again && load.gate.groupActive && !early && exists id | id in winners :: !IsMember(load.gate.result.members, id)
    case _ => false
  }

  /** The override plan. It never replays, and what it writes declares the given ids and nothing else. */
  method PlanOverride(w: World, winners: seq<int>, head: Option<Pointer>, load: Loaded) returns (plan: Plan)
    requires WellFormedLoad(load)
    ensures plan == OverridePlan(w, winners, head, load, Computed(load.gate.result, w.nameKey))
    ensures plan.Write? <==> MayOverride(winners, head, load)
    ensures !plan.Replay?
    ensures plan.Refuse? ==> RefusesOverride(plan.refusal, winners, head, load)
    ensures plan.Write? ==> OverrideWrites(w, load, plan, winners)
  {
    OverrideWritesIff(w, winners, head, load);
    if !NoRepeats(winners) {
      return Refuse(VALIDATION_FAILED);
    }
    if !load.gate.groupActive {
      return Refuse(GROUP_IS_ARCHIVED);
    }
    if head.None? && load.gate.result.eventState != Some(DATA_CHECKED) {
      return Refuse(OVERRIDE_NOT_ALLOWED);
    }
    if exists id | id in winners :: !IsMember(load.gate.result.members, id) {
      return Refuse(WINNERS_NOT_MEMBERS);
    }
    var result := ComputeGwResult(load.gate.result, w.nameKey);
    plan := Write(Build(w, load, result, Snapshots.OVERRIDE, SortedIds(winners)), OVERRIDDEN);
  }

  function DeclaredOf(prev: Option<Snapshot>): seq<int> {
    match prev case Some(s) => s.declaredWinnerEntryIds case None => []
  }

  /** diffResults(prev, result).winnersChanged */
  predicate WinnersChanged(prev: Option<Snapshot>, r: GwResult) {
    SortedIds(DeclaredOf(prev)) != r.outcome.winners
  }

  /** A JavaScript truthiness test: null and the empty note both count as missing. */
  predicate HasNote(note: Option<string>) {
    note.Some? && note.value != ""
  }

  ghost function RecomputePlan(w: World, note: Option<string>, head: Option<Pointer>, prev: Option<Snapshot>, load: Loaded, r: GwResult): Plan {
    if head.None? then Refuse(NOT_FINAL)
    else if !load.gate.groupActive || load.gate.result.eventState != Some(DATA_CHECKED) || r.IsBlocked() then Refuse(RECOMPUTE_BLOCKED)
    else if WinnersChanged(prev, r) && !HasNote(note) then Refuse(NOTE_REQUIRED)
    else Write(Build(w, load, r, Snapshots.RULE_BASED, r.outcome.winners), FINAL)
  }

  /** The winners are other people than before. */
  lemma WinnersChangedMeans(prev: Option<Snapshot>, input: Input, nameKey: string -> real)
    requires WellFormedInput(input)
    ensures WinnersChanged(prev, Computed(input, nameKey)) <==>
      multiset(DeclaredOf(prev)) != multiset(Computed(input, nameKey).outcome.winners)
  {
    var winners := Computed(input, nameKey).outcome.winners;
    WinnersAscend(input);
    if multiset(DeclaredOf(prev)) == multiset(winners) {
      SortByKeyOfSorted(DeclaredOf(prev), winners, (id: int) => id);
    }
  }

  /** When a recompute may be written: nobody eligible blocks it, and changed winners carry a note. */
  ghost predicate MayRecompute(w: World, note: Option<string>, head: Option<Pointer>, prev: Option<Snapshot>, load: Loaded) {
    && head.Some?
    && load.gate.groupActive
    && load.gate.result.eventState == Some(DATA_CHECKED)
    && (forall id | id in GateEligible(load.gate) :: IsReconciledRow(load, id))
    && (multiset(DeclaredOf(prev)) != multiset(Computed(load.gate.result, w.nameKey).outcome.winners) ==> note.Some? && note.value != "")
  }

  /** When a recompute is refused with which answer: no decision yet, not recomputable, or else a missing note. */
  predicate RefusesRecompute(e: Refusal, head: Option<Pointer>, load: Loaded) {
    var ready := load.gate.groupActive && load.gate.result.eventState == Some(DATA_CHECKED)
      && forall id | id in GateEligible(load.gate) :: IsReconciledRow(load, id);
    match e
    case NOT_FINAL => head.None?
    case RECOMPUTE_BLOCKED => head.Some? && !ready
    case NOTE_REQUIRED => head.Some? && ready
    case _ => false
  }

  predicate IsReconciledRow(load: Loaded, id: int) {
    var rows := AllRowsByEntry(load.gate.result.gwRows);
    id in rows && IsReconciled(rows[id].reconciliationStatus)
  }

  lemma BlockedMeans(load: Loaded, nameKey: string -> real)
    requires WellFormedLoad(load)
    ensures Computed(load.gate.result, nameKey).IsBlocked() <==> exists id | id in GateEligible(load.gate) :: !IsReconciledRow(load, id)
  {
    SameIndex(load.gate.result.gwRows, load.gate.result.event);
    BlockersMean(GateEligible(load.gate), AllRowsByEntry(load.gate.result.gwRows));
  }

  lemma {:induction false} BlockersMean(ids: seq<int>, rows: map<int, GwRow>)
    ensures BlockedBy(ids, rows) != [] <==> exists id | id in ids :: !(id in rows && IsReconciled(rows[id].reconciliationStatus))
  {
    NotBlocked(ids, rows);
    if forall id | id in ids :: id in rows && IsReconciled(rows[id].reconciliationStatus) {
      assert forall k | 0 <= k < |ids| :: ids[k] in ids;
    }
  }

  predicate NothingStopsRecompute(note: Option<string>, head: Option<Pointer>, prev: Option<Snapshot>, load: Loaded, r: GwResult) {
    && head.Some? && load.gate.groupActive && load.gate.result.eventState == Some(DATA_CHECKED) && !r.IsBlocked()
    && (WinnersChanged(prev, r) ==> HasNote(note))
  }

  lemma RecomputePlanIff(w: World, note: Option<string>, head: Option<Pointer>, prev: Option<Snapshot>, load: Loaded, r: GwResult)
    ensures NothingStopsRecompute(note, head, prev, load, r) ==>
      RecomputePlan(w, note, head, prev, load, r) == Write(Build(w, load, r, Snapshots.RULE_BASED, r.outcome.winners), FINAL)
    ensures !NothingStopsRecompute(note, head, prev, load, r) ==> RecomputePlan(w, note, head, prev, load, r).Refuse?
  {
  }

  lemma MayRecomputeIff(w: World, note: Option<string>, head: Option<Pointer>, prev: Option<Snapshot>, load: Loaded)
    requires WellFormedLoad(load)
    ensures MayRecompute(w, note, head, prev, load) <==> NothingStopsRecompute(note, head, prev, load, Computed(load.gate.result, w.nameKey))
  {
    BlockedMeans(load, w.nameKey);
    WinnersChangedMeans(prev, load.gate.result, w.nameKey);
  }

  lemma RecomputeContent(w: World, load: Loaded)
    requires WellFormedLoad(load) && !Computed(load.gate.result, w.nameKey).IsBlocked()
    ensures var r := Computed(load.gate.result, w.nameKey);
      RecomputeWrites(w, load, Write(Build(w, load, r, Snapshots.RULE_BASED, r.outcome.winners), FINAL))
  {
    UnblockedWinners(load, w.nameKey);
    BuildRecords(w, load, Snapshots.RULE_BASED, Computed(load.gate.result, w.nameKey).outcome.winners);
  }

  /** A recompute writes exactly when it may; what it writes declares what the rules compute. */
  lemma RecomputeWritesIff(w: World, note: Option<string>, head: Option<Pointer>, prev: Option<Snapshot>, load: Loaded)
    requires WellFormedLoad(load)
    ensures var plan := RecomputePlan(w, note, head, prev, load, Computed(load.gate.result, w.nameKey));
      && !plan.Replay? && (plan.Write? <==> MayRecompute(w, note, head, prev, load))
      && (plan.Write? ==> RecomputeWrites(w, load, plan))
  {
    var r := Computed(load.gate.result, w.nameKey);
    MayRecomputeIff(w, note, head, prev, load);
    RecomputePlanIff(w, note, head, prev, load, r);
    if NothingStopsRecompute(note, head, prev, load, r) {
      RecomputeContent(w, load);
    }
  }

  ghost predicate RecomputeWrites(w: World, load: Loaded, plan: Plan)
    requires plan.Write?
  {
    && plan.newStatus == FINAL && plan.snapshot.kind == Snapshots.RULE_BASED
    && plan.snapshot.declaredWinnerEntryIds == plan.snapshot.computedWinnerEntryIds
    && (plan.snapshot.declaredWinnerEntryIds == [] <==> GateEligible(load.gate) == [])
    && RecordsEngine(w, load, plan.snapshot)
  }

  /** The recompute plan. It never replays, and what it writes declares what the rules compute. */
  method PlanRecompute(w: World, note: Option<string>, head: Option<Pointer>, prev: Option<Snapshot>, load: Loaded) returns (plan: Plan)
    requires WellFormedLoad(load)
    ensures plan == RecomputePlan(w, note, head, prev, load, Computed(load.gate.result, w.nameKey))
    ensures plan.Write? <==> MayRecompute(w, note, head, prev, load)
    ensures !plan.Replay?
    ensures plan.Refuse? ==> RefusesRecompute(plan.refusal, head, load)
    ensures plan.Write? ==> RecomputeWrites(w, load, plan)
  {
    RecomputeWritesIff(w, note, head, prev, load);
    BlockedMeans(load, w.nameKey);
    var result := ComputeGwResult(load.gate.result, w.nameKey);
    if head.None? {
      return Refuse(NOT_FINAL);
    }
    if !load.gate.groupActive || load.gate.result.eventState != Some(DATA_CHECKED) || result.IsBlocked() {
      return Refuse(RECOMPUTE_BLOCKED);
    }
    if WinnersChanged(prev, result) && !HasNote(note) {
      return Refuse(NOTE_REQUIRED);
    }
    plan := Write(Build(w, load, result, Snapshots.RULE_BASED, result.outcome.winners), FINAL);
  }

  lemma UnblockedWinners(load: Loaded, nameKey: string -> real)
    requires WellFormedLoad(load) && !Computed(load.gate.result, nameKey).IsBlocked()
    ensures Computed(load.gate.result, nameKey).outcome.winners == [] <==> GateEligible(load.gate) == []
  {
    SameIndex(load.gate.result.gwRows, load.gate.result.event);
    WinnersExistIff(load.gate.result);
  }

  ghost function PlanOf(w: World, req: Request, head: Option<Pointer>, prev: Option<Snapshot>, load: Loaded, r: GwResult): Plan {
    match req
    case Finalize(runId, runStatus) => FinalizePlan(w, runId, runStatus, head, prev, load, r)
    case Override(winners, _) => OverridePlan(w, winners, head, load, r)
    case Recompute(note) => RecomputePlan(w, note, head, prev, load, r)
  }

  method MakePlan(w: World, req: Request, head: Option<Pointer>, prev: Option<Snapshot>, load: Loaded) returns (plan: Plan)
    requires WellFormedLoad(load)
    ensures plan == PlanOf(w, req, head, prev, load, Computed(load.gate.result, w.nameKey))
  {
    match req
    case Finalize(runId, runStatus) =>
      var reasons;
      plan, reasons := PlanFinalize(w, runId, runStatus, head, prev, load);
    case Override(winners, _) =>
      plan := PlanOverride(w, winners, head, load);
    case Recompute(note) =>
      plan := PlanRecompute(w, note, head, prev, load);
  }

  // ---- the T4 transaction ----

  function KindOf(req: Request): ActionKind {
    match req
    case Finalize(_, _) => FINALIZE
    case Override(_, _) => ActionKind.OVERRIDE
    case Recompute(_) => RECOMPUTE
  }

  function NoteOf(req: Request): Option<string> {
    match req
    case Finalize(_, _) => None
    case Override(_, note) => Some(note)
    case Recompute(note) => note
  }

  /** resultRepo.getSnapshot(head.currentSnapshotId) */
  function PrevSnapshot(db: Db): Option<Snapshot> {
    if db.pointer.Some? && db.pointer.value.currentSnapshotId in db.snapshots
    then Some(db.snapshots[db.pointer.value.currentSnapshotId].content) else None
  }

  function ActionFields(w: World, req: Request, seen: Db, snapshot: Snapshot, newStatus: ResultStatus, newId: SnapshotId, rest: string): Fields {
    Fields(
      KindOf(req),
      StatusOf(seen.pointer).GetOr(PROVISIONAL),
      newStatus,
      DeclaredOf(PrevSnapshot(seen)),
      snapshot.declaredWinnerEntryIds,
      HeadSnapshot(seen.pointer),
      newId,
      w.hash(SnapshotDoc(snapshot)),
      NoteOf(req),
      rest)
  }

  function Planned(w: World, req: Request, seen: Db, load: Loaded): Plan {
    w.plan(req, seen.pointer, PrevSnapshot(seen), load)
  }

  /** The callback is the service's: the plan of each request on what the engine computes. */
  ghost predicate IsService(w: World) {
    forall req, head, prev, load {:trigger PlanOf(w, req, head, prev, load, Computed(load.gate.result, w.nameKey))} ::
      w.plan(req, head, prev, load) == PlanOf(w, req, head, prev, load, Computed(load.gate.result, w.nameKey))
  }

  lemma PlannedIsPlan(w: World, req: Request, seen: Db, load: Loaded)
    requires IsService(w)
    ensures Planned(w, req, seen, load) == PlanOf(w, req, seen.pointer, PrevSnapshot(seen), load, Computed(load.gate.result, w.nameKey))
  {
  }

  datatype Outcome4 = Committed(action: Action) | Replayed | Failed(error: T4Error)

  datatype Effect = Effect(db: Db, outcome: Outcome4)

  /** The three writes of a planned decision, or none of them. */
  function Commit(w: World, cur: Db, seen: Db, snapshot: Snapshot, fields: Fields): Effect {
    var next := WithSnapshot(w.hash, cur, fields.newSnapshotId, snapshot);
    match AppendError(next, seen.pointer, fields)
    case Some(e) => Effect(cur, Failed(Repo(e)))
    case None =>
      var action := NextAction(w.hash, seen.pointer, fields);
      match MoveError(next, seen.pointer, action)
      case Some(e) => Effect(cur, Failed(Repo(e)))
      case None => Effect(Db(next.snapshots, next.actions + [action], Some(PointerFor(action))), Committed(action))
  }

  /**
   One T4: reads see the database as it was at `seen`, writes meet the guards of the database `cur`.
   `fenced` says whether the lease was still held.
   */
  ghost function T4(w: World, seen: Db, cur: Db, req: Request, fenced: bool, load: Loaded, newId: SnapshotId, rest: string): Effect {
    if !fenced then Effect(cur, Failed(LOCK_LOST))
    else if seen.pointer.Some? && !Accepted(w.hash, seen) then Effect(cur, Failed(CHAIN_INVALID))
    else
      match Planned(w, req, seen, load)
      case Replay => Effect(cur, Replayed)
      case Refuse(e) => Effect(cur, Failed(Refused(e)))
      case Write(snapshot, newStatus) => Commit(w, cur, seen, snapshot, ActionFields(w, req, seen, snapshot, newStatus, newId, rest))
  }

  /** The ordered writes; the transaction rolls back on the first error. */
  method CommitDecision(w: World, store: ResultStore, seen: Db, snapshot: Snapshot, fields: Fields) returns (outcome: Outcome4)
    requires fields.newSnapshotId !in store.db.snapshots
    modifies store
    ensures Effect(store.db, outcome) == Commit(w, old(store.db), seen, snapshot, fields)
  {
    var before := store.db;
    store.InsertSnapshot(w.hash, fields.newSnapshotId, snapshot);
    var appended := store.AppendAction(w.hash, seen.pointer, fields);
    if appended.Err? {
      store.db := before;
      return Failed(Repo(appended.error));
    }
    var error := store.MovePointer(seen.pointer, appended.value);
    if error.Some? {
      store.db := before;
      return Failed(Repo(error.value));
    }
    outcome := Committed(appended.value);
  }

  /** runT4. */
  method RunT4(w: World, store: ResultStore, seen: Db, req: Request, fenced: bool, load: Loaded, newId: SnapshotId, rest: string)
    returns (outcome: Outcome4)
    requires IsService(w) && WellFormedLoad(load) && newId !in store.db.snapshots
    modifies store
    ensures Effect(store.db, outcome) == T4(w, seen, old(store.db), req, fenced, load, newId, rest)
  {
    if !fenced {
      return Failed(LOCK_LOST);
    }
    if seen.pointer.Some? {
      var chain := VerifyStoredChain(w.hash, seen);
      if !chain.Valid? {
        return Failed(CHAIN_INVALID);
      }
    }
    var plan := MakePlan(w, req, seen.pointer, PrevSnapshot(seen), load);
    PlannedIsPlan(w, req, seen, load);
    match plan
    case Replay => outcome := Replayed;
    case Refuse(e) => outcome := Failed(Refused(e));
    case Write(snapshot, newStatus) =>
      outcome := CommitDecision(w, store, seen, snapshot, ActionFields(w, req, seen, snapshot, newStatus, newId, rest));
  }
}
