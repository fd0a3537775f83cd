/**
 Everything a finalize rests on, in one transition system over one (group, season, event): the run
 lifecycle of the group's lock (server/src/sync/syncService.js), event syncs, member writes, edits of the
 group, and the T4 transactions. What a plan loads is a function of the state its transaction reads
 (loadResultInputs in server/src/repositories/resultRepo.js), which may be long gone when it commits.
 */
module Finalization {
  import opened Wrappers
  import opened Sorting
  import opened Points
  import opened SyncRuns
  import opened Eligibility
  import opened Results
  import opened FinalizeGate
  import opened HashChain
  import opened Decisions
  import RunLifecycle
  import TieBreakers
  import DecisionRuns

  type RunId = SyncRuns.RunId

  /** A member as the group document has it. */
  datatype GroupMember = GroupMember(entryId: int, isExcluded: bool, joinedEvent: Option<int>)

  datatype GroupDoc = GroupDoc(active: bool, rules: Group, members: seq<GroupMember>)

  /** A managerGameweeks document of this event, and the run that last confirmed it. */
  datatype StoredRow = StoredRow(row: GwRow, confirmedBy: RunId)

  /** A run of another lock, which shares events and managers with this group. */
  datatype ForeignRun = ForeignRun(startedAt: Millis, status: Status)

  /** One T1 transaction: who ran it, what FPL said of the event, and the state stored for it. */
  datatype EventSync = EventSync(who: RunId, seen: Observation, state: EventState)

  /** A T4 transaction in progress: what it has read. */
  datatype Opened = Opened(seen: nat, req: Request, load: Loaded)

  /** `seasons` holds who last confirmed each managerSeasons document; `startedAt` belongs to the stored runs. */
  datatype State = State(
    now: Millis,
    sync: RunLifecycle.State,
    startedAt: map<RunId, Millis>,
    foreign: map<RunId, ForeignRun>,
    events: seq<EventSync>,
    rows: map<int, StoredRow>,
    seasons: map<int, RunId>,
    group: GroupDoc,
    season: PointsSemantics,
    squads: map<int, Option<int>>,
    managers: map<int, Names>,
    open: map<RunId, Opened>,
    decisions: DecisionRuns.State)

  datatype Step =
    | Tick(now: Millis)
    | Sync(step: RunLifecycle.Step, startedAt: Millis)
    | Foreign(id: RunId, run: ForeignRun)
    | SyncEvent(who: RunId, at: Millis, deadline: Millis, finished: bool, dataChecked: bool, fixtures: seq<Fixture>)
    | WriteMember(who: RunId, entryId: int, row: Option<GwRow>)
    | Edit(group: GroupDoc, season: PointsSemantics, squads: map<int, Option<int>>, managers: map<int, Names>)
    | OpenT4(id: RunId, req: Request, rest: string)
    | CommitT4(id: RunId, fenced: bool, newId: SnapshotId, rest: string)

  /** A deployment and the event this is about. */
  datatype Target = Target(w: World, event: int)

  // ---- loadResultInputs ----

  function MemberId(): GroupMember -> int {
    (m: GroupMember) => m.entryId
  }

  predicate IsMemberOf(g: GroupDoc, id: int) {
    exists k | 0 <= k < |g.members| :: g.members[k].entryId == id
  }

  /** synced: the member has a managerSeasons document. */
  function EngineMember(s: State): GroupMember -> Member {
    (m: GroupMember) => Member(m.entryId, m.isExcluded, m.joinedEvent, m.entryId in s.seasons)
  }

  /** The rows of the group's members. */
  function MemberRows(s: State): map<int, GwRow> {
    map id | id in s.rows && IsMemberOf(s.group, id) :: s.rows[id].row
  }

  /** `(rowByEntry.get(entryId) ?? msByEntry.get(entryId))?.provenance.lastConfirmedByRunId` */
  function ConfirmedBy(s: State, id: int): Option<RunId> {
    if id in s.rows then Some(s.rows[id].confirmedBy) else if id in s.seasons then Some(s.seasons[id]) else None
  }

  /** A run as loadRuns finds it, of this lock or of another. */
  function FreshnessOfMember(s: State, m: GroupMember): (f: Freshness)
    ensures f.entryId == m.entryId && f.syncRunId == ConfirmedBy(s, m.entryId)
  {
    var run := ConfirmedBy(s, m.entryId);
    if run.Some? && run.value in s.sync.runs && run.value in s.startedAt then
      Freshness(m.entryId, run, Some(s.startedAt[run.value]), Some(s.sync.runs[run.value].status))
    else if run.Some? && run.value in s.foreign then
      Freshness(m.entryId, run, Some(s.foreign[run.value].startedAt), Some(s.foreign[run.value].status))
    else
      Freshness(m.entryId, run, None, None)
  }

  function FreshnessFor(s: State): GroupMember -> Freshness {
    (m: GroupMember) => FreshnessOfMember(s, m)
  }

  function Observations(events: seq<EventSync>): (r: seq<Observation>)
    ensures |r| == |events| && forall k | 0 <= k < |r| :: r[k] == events[k].seen
  {
    Map(events, (e: EventSync) => e.seen)
  }

  function FreshnessId(): Freshness -> int {
    (f: Freshness) => f.entryId
  }

  function LoadInputs(t: Target, s: State): GateInputs {
    GateInputs(
      Input(
        s.group.rules, t.event,
        if s.events == [] then None else Some(s.events[|s.events| - 1].state),
        Map(s.group.members, EngineMember(s)),
        RowValues(MemberRows(s)),
        s.squads, s.managers),
      SortByKey(Map(s.group.members, FreshnessFor(s)), FreshnessId()),
      s.group.active,
      ObservedAfter(Observations(s.events)))
  }

  // ---- steps ----

  predicate WellFormedGroup(g: GroupDoc) {
    DistinctKeys(g.members, MemberId())
  }

  /** A run that is writing: a logged job of this lock in its body, or a run of another lock. */
  predicate Writes(s: State, who: RunId) {
    (RunLifecycle.At(s.sync, who, RunLifecycle.Working) && s.sync.jobs[who].logged) || who in s.foreign
  }

  /** When the run started; its own clock readings come later. */
  function StartOf(s: State, who: RunId): Millis {
    if who in s.startedAt then s.startedAt[who] else 0
  }

  /** `after` of a finished run finalizes; the body of a lease without a run decides on stored data. */
  predicate MayDecide(s: State, id: RunId, req: Request) {
    match req
    case Finalize(runId, status) => runId == id && RunLifecycle.At(s.sync, id, RunLifecycle.Deciding(status))
    case _ => RunLifecycle.At(s.sync, id, RunLifecycle.Working) && !s.sync.jobs[id].logged
  }

  function DecisionOf(s: State, id: RunId, fenced: bool, newId: SnapshotId, rest: string): DecisionRuns.Step
    requires id in s.open
  {
    DecisionRuns.Step(s.open[id].seen, s.open[id].req, fenced, s.open[id].load, newId, rest)
  }

  ghost predicate Enabled(t: Target, s: State, step: Step) {
    match step
    case Tick(now) => now >= s.now
    case Sync(sync, startedAt) =>
      && RunLifecycle.Enabled(s.sync, sync) && startedAt <= s.now
      && (sync.Grant? ==> sync.id !in s.foreign)
    case Foreign(id, _) => id !in s.sync.jobs
    case SyncEvent(who, at, _, _, _, _) => Writes(s, who) && StartOf(s, who) <= at <= s.now
    case WriteMember(who, id, row) =>
      Writes(s, who) && (row.Some? ==> WellFormed(row.value) && row.value.entryId == id && row.value.event == t.event)
    case Edit(group, _, _, _) => WellFormedGroup(group)
    case OpenT4(id, req, _) => MayDecide(s, id, req) && s.decisions.history != []
    case CommitT4(id, fenced, newId, rest) =>
      id in s.open && DecisionRuns.Enabled(s.decisions, DecisionOf(s, id, fenced, newId, rest))
  }

  function WithRow(rows: map<int, StoredRow>, who: RunId, id: int, row: Option<GwRow>): map<int, StoredRow> {
    match row case Some(r) => rows[id := StoredRow(r, who)] case None => rows
  }

  ghost function After(t: Target, s: State, step: Step): State
    requires Enabled(t, s, step)
  {
    match step
    case Tick(now) => s.(now := now)
    case Sync(sync, startedAt) =>
      s.(sync := RunLifecycle.After(s.sync, sync),
         startedAt := if sync.Insert? then s.startedAt[sync.id := startedAt] else s.startedAt)
    case Foreign(id, run) => s.(foreign := s.foreign[id := run])
    case SyncEvent(who, at, deadline, finished, dataChecked, fixtures) =>
      s.(events := s.events + [EventSync(who, Observation(dataChecked, at), DeriveEventState(t.event, deadline, finished, dataChecked, fixtures, at))])
    case WriteMember(who, id, row) => s.(rows := WithRow(s.rows, who, id, row), seasons := s.seasons[id := who])
    case Edit(group, season, squads, managers) => s.(group := group, season := season, squads := squads, managers := managers)
    case OpenT4(id, req, rest) =>
      s.(open := s.open[id := Opened(|s.decisions.history| - 1, req, Loaded(LoadInputs(t, s), s.season, rest))])
    case CommitT4(id, fenced, newId, rest) =>
      s.(decisions := DecisionRuns.After(t.w, s.decisions, DecisionOf(s, id, fenced, newId, rest)))
  }

  const Start: State := State(
    0, RunLifecycle.Start, map[], map[], [], map[], map[], GroupDoc(false, Group(NET_POINTS, [], None), []),
    UNVERIFIED, map[], map[], map[], DecisionRuns.Start)

  ghost predicate IsRun(t: Target, states: seq<State>, steps: seq<Step>) {
    && |states| == |steps| + 1
    && states[0] == Start
    && forall i {:trigger steps[i]} | 0 <= i < |steps| :: Enabled(t, states[i], steps[i]) && states[i + 1] == After(t, states[i], steps[i])
  }

  // ---- what every state is like ----

  predicate RowOk(t: Target, id: int, r: StoredRow) {
    WellFormed(r.row) && r.row.entryId == id && r.row.event == t.event
  }

  /** A run of this lock read its clock after it started. */
  predicate EventOk(s: State, e: EventSync) {
    && (e.who in s.startedAt ==> s.startedAt[e.who] <= e.seen.at)
    && (e.who in s.startedAt || e.who in s.foreign)
    && (e.state == DATA_CHECKED <==> e.seen.dataChecked)
  }

  /** Stored rows of runs, and whose ids they are. */
  ghost predicate RunsOk(s: State) {
    && RunLifecycle.Inv(s.sync)
    && s.startedAt.Keys == s.sync.runs.Keys
    && (forall id | id in s.foreign :: id !in s.sync.jobs)
  }

  ghost predicate RowsOk(t: Target, s: State) {
    forall id | id in s.rows :: RowOk(t, id, s.rows[id])
  }

  ghost predicate EventsOk(s: State) {
    forall k | 0 <= k < |s.events| :: EventOk(s, s.events[k])
  }

  ghost predicate Inv(t: Target, s: State) {
    && RunsOk(s) && RowsOk(t, s) && EventsOk(s)
    && WellFormedGroup(s.group)
    && DecisionRuns.Reachable(t.w, s.decisions)
  }

  lemma RunsStayOk(t: Target, s: State, step: Step)
    requires RunsOk(s) && Enabled(t, s, step)
    ensures RunsOk(After(t, s, step))
  {
    match step
    case Sync(sync, _) =>
      RunLifecycle.StepKeepsInv(s.sync, sync);
      RunKeys(s.sync, sync);
    case _ =>
  }

  lemma RunKeys(s: RunLifecycle.State, step: RunLifecycle.Step)
    requires RunLifecycle.Inv(s) && RunLifecycle.Enabled(s, step)
    ensures RunLifecycle.After(s, step).runs.Keys == if step.Insert? then s.runs.Keys + {step.id} else s.runs.Keys
    ensures forall id | id in RunLifecycle.After(s, step).jobs :: id in s.jobs || (step.Grant? && step.id == id)
  {
  }

  lemma RowsStayOk(t: Target, s: State, step: Step)
    requires RowsOk(t, s) && Enabled(t, s, step)
    ensures RowsOk(t, After(t, s, step))
  {
  }

  /** A run whose row is being inserted has stored no event yet. */
  lemma InsertedHasNoEvent(s: State, id: RunId, e: EventSync)
    requires RunsOk(s) && EventOk(s, e) && RunLifecycle.At(s.sync, id, RunLifecycle.Inserting)
    ensures e.who != id
  {
    assert RunLifecycle.JobOk(s.sync, id);
    assert id !in s.startedAt.Keys;
  }

  /** The clocks of known runs do not change. */
  lemma ClocksAfter(t: Target, s: State, step: Step)
    requires Enabled(t, s, step)
    ensures var next := After(t, s, step);
      && next.startedAt == (if step.Sync? && step.step.Insert? then s.startedAt[step.step.id := step.startedAt] else s.startedAt)
      && s.foreign.Keys <= next.foreign.Keys
  {
  }

  lemma OldEventsStayOk(t: Target, s: State, step: Step, e: EventSync)
    requires RunsOk(s) && EventOk(s, e) && Enabled(t, s, step)
    ensures EventOk(After(t, s, step), e)
  {
    ClocksAfter(t, s, step);
    assert e.who in s.foreign ==> e.who in s.foreign.Keys;
    if step.Sync? && step.step.Insert? {
      InsertedHasNoEvent(s, step.step.id, e);
    }
  }

  lemma NewEventIsOk(t: Target, s: State, step: Step)
    requires RunsOk(s) && Enabled(t, s, step) && step.SyncEvent?
    ensures EventOk(s, After(t, s, step).events[|s.events|])
  {
    if step.who !in s.foreign {
      assert RunLifecycle.JobOk(s.sync, step.who);
    }
  }

  lemma EventsStayOk(t: Target, s: State, step: Step)
    requires RunsOk(s) && EventsOk(s) && Enabled(t, s, step)
    ensures EventsOk(After(t, s, step))
  {
    var next := After(t, s, step);
    forall k | 0 <= k < |next.events| ensures EventOk(next, next.events[k]) {
      if k < |s.events| {
        OldEventsStayOk(t, s, step, s.events[k]);
      } else {
        NewEventIsOk(t, s, step);
      }
    }
  }

  lemma DecisionsStayReachable(t: Target, s: State, step: Step)
    requires DecisionRuns.Reachable(t.w, s.decisions) && Enabled(t, s, step)
    ensures DecisionRuns.Reachable(t.w, After(t, s, step).decisions)
  {
    if step.CommitT4? {
      DecisionRuns.ReachableStep(t.w, s.decisions, DecisionOf(s, step.id, step.fenced, step.newId, step.rest));
    }
  }

  lemma StepKeepsInv(t: Target, s: State, step: Step)
    requires Inv(t, s) && Enabled(t, s, step)
    ensures Inv(t, After(t, s, step))
  {
    RunsStayOk(t, s, step);
    RowsStayOk(t, s, step);
    EventsStayOk(t, s, step);
    DecisionsStayReachable(t, s, step);
  }

  lemma {:induction false} RunKeepsInv(t: Target, states: seq<State>, steps: seq<Step>, i: nat)
    requires IsRun(t, states, steps) && i < |states|
    ensures Inv(t, states[i])
  {
    if i > 0 {
      RunKeepsInv(t, states, steps, i - 1);
      StepKeepsInv(t, states[i - 1], steps[i - 1]);
    } else {
      DecisionRuns.StartIsReachable(t.w);
    }
  }

  // ---- what a load says of its state ----

  /** The rows of a load are the stored ones. */
  lemma LoadedRows(t: Target, s: State)
    requires RowsOk(t, s)
    ensures AllRowsByEntry(LoadInputs(t, s).result.gwRows) == MemberRows(s)
    ensures RowsOfEvent(LoadInputs(t, s))
    ensures forall r | r in LoadInputs(t, s).result.gwRows :: WellFormed(r)
  {
    var m := MemberRows(s);
    var entries := Entries(m);
    forall k | 0 <= k < |entries| ensures entries[k].1.entryId == entries[k].0 && entries[k].1.event == t.event && WellFormed(entries[k].1) {
      assert RowOk(t, entries[k].0, s.rows[entries[k].0]);
    }
    RowsFromEntries(entries, t.event);
    EntriesRoundTrip(m);
    SameIndex(RowValues(m), t.event);
  }

  /** A plan can always load: the rows are well formed, of this event, and members are distinct. */
  lemma LoadIsWellFormed(t: Target, s: State, rest: string)
    requires Inv(t, s)
    ensures WellFormedLoad(Loaded(LoadInputs(t, s), s.season, rest))
  {
    LoadedRows(t, s);
    LoadedMembers(t, s);
  }

  lemma LoadedMembers(t: Target, s: State)
    requires WellFormedGroup(s.group)
    ensures DistinctKeys(LoadInputs(t, s).result.members, Eligibility.MemberId())
  {
    var members := LoadInputs(t, s).result.members;
    forall i, j | 0 <= i < j < |members| ensures Eligibility.MemberId()(members[i]) != Eligibility.MemberId()(members[j]) {
      assert MemberId()(s.group.members[i]) != MemberId()(s.group.members[j]);
    }
  }

  lemma {:induction false} FreshnessIsOf(list: seq<Freshness>, k: nat)
    requires k < |list| && DistinctKeys(list, FreshnessId())
    ensures FreshnessOf(list, list[k].entryId) == list[k]
  {
    var n := |list| - 1;
    if k < n {
      assert FreshnessId()(list[k]) != FreshnessId()(list[n]);
      assert forall i, j | 0 <= i < j < n :: FreshnessId()(list[i]) != FreshnessId()(list[j]);
      FreshnessIsOf(list[..n], k);
    }
  }

  /** The freshness of a member is that of the run that last confirmed it. */
  lemma LoadedFreshness(t: Target, s: State, k: nat)
    requires WellFormedGroup(s.group) && k < |s.group.members|
    ensures FreshnessOf(LoadInputs(t, s).freshness, s.group.members[k].entryId) == FreshnessFor(s)(s.group.members[k])
  {
    var listed := Map(s.group.members, FreshnessFor(s));
    forall i, j | 0 <= i < j < |listed| ensures FreshnessId()(listed[i]) != FreshnessId()(listed[j]) {
      assert MemberId()(s.group.members[i]) != MemberId()(s.group.members[j]);
    }
    SortByKeyIsStrict(listed, FreshnessId());
    var sorted := SortByKey(listed, FreshnessId());
    SameMembers(sorted, listed);
    assert listed[k] in sorted;
    var j :| 0 <= j < |sorted| && sorted[j] == listed[k];
    FreshnessIsOf(sorted, j);
  }

  // ---- what an open gate says of its state ----

  /** A member nothing excuses: not excluded, joined in time, and not synced without a row. */
  predicate Counts(t: Target, s: State, m: GroupMember) {
    && !m.isExcluded
    && (m.joinedEvent.Some? ==> m.joinedEvent.value <= t.event)
    && (m.entryId in s.seasons ==> m.entryId in s.rows)
  }

  /** The member's stored row is reconciled under the season's verdict and was last confirmed by this run. */
  predicate Ready(s: State, id: int, run: RunId) {
    && id in s.rows
    && s.rows[id].confirmedBy == run
    && IsReconciled(s.rows[id].row.reconciliationStatus)
    && (s.rows[id].row.transferCost > 0 ==>
          s.season != CONFLICTED && s.season != UNVERIFIED && s.rows[id].row.pointsSemantics == s.season)
  }

  /** Another run began the unbroken block of data_checked answers, strictly before this run started. */
  ghost predicate CheckedBefore(s: State, run: RunId) {
    && run in s.startedAt
    && exists k :: BeginsLastBlock(Observations(s.events), k) && s.events[k].who != run && s.events[k].seen.at < s.startedAt[run]
  }

  /** Everything finalize asks of the stored data. */
  ghost predicate Sound(t: Target, s: State, run: RunId) {
    && s.group.active
    && (exists k :: 0 <= k < |s.group.members| && Counts(t, s, s.group.members[k]))
    && (forall k | 0 <= k < |s.group.members| && Counts(t, s, s.group.members[k]) :: Ready(s, s.group.members[k].entryId, run))
    && CheckedBefore(s, run)
  }

  /** The engine's reasons are the excuses. */
  lemma CountsMeansNoReason(t: Target, s: State, k: nat)
    requires k < |s.group.members|
    ensures Counts(t, s, s.group.members[k]) <==> ReasonFor(EngineMember(s)(s.group.members[k]), MemberRows(s), t.event).None?
  {
    assert IsMemberOf(s.group, s.group.members[k].entryId);
  }

  lemma EligibleMembers(t: Target, s: State)
    requires RowsOk(t, s) && WellFormedGroup(s.group)
    ensures var ids := GateEligible(LoadInputs(t, s));
      && (forall k | 0 <= k < |s.group.members| :: s.group.members[k].entryId in ids <==> Counts(t, s, s.group.members[k]))
      && (forall id | id in ids :: exists k :: 0 <= k < |s.group.members| && s.group.members[k].entryId == id)
  {
    LoadedRows(t, s);
    LoadedMembers(t, s);
    var members := LoadInputs(t, s).result.members;
    EligibleFacts(members, MemberRows(s), t.event);
    var ids := GateEligible(LoadInputs(t, s));
    forall k | 0 <= k < |s.group.members| ensures s.group.members[k].entryId in ids <==> Counts(t, s, s.group.members[k]) {
      CountsMeansNoReason(t, s, k);
      assert members[k] in members;
    }
    forall id | id in ids ensures exists k :: 0 <= k < |s.group.members| && s.group.members[k].entryId == id {
      var m :| m in members && m.entryId == id;
      var k :| 0 <= k < |members| && members[k] == m;
      assert s.group.members[k].entryId == id;
    }
  }

  lemma ReadyInState(t: Target, s: State, k: nat, run: RunId)
    requires RowsOk(t, s) && WellFormedGroup(s.group) && k < |s.group.members|
    requires ReadyMember(s.group.members[k].entryId, LoadInputs(t, s), Some(run))
    requires SemanticsFit(s.group.members[k].entryId, LoadInputs(t, s), s.season)
    ensures Ready(s, s.group.members[k].entryId, run)
  {
    LoadedRows(t, s);
    LoadedFreshness(t, s, k);
  }

  lemma FreshnessOfRun(t: Target, s: State, run: RunId, f: Freshness)
    requires s.startedAt.Keys == s.sync.runs.Keys && run in s.sync.runs && f in LoadInputs(t, s).freshness && f.syncRunId == Some(run)
    ensures run in s.startedAt && f.syncRunStartedAt == Some(s.startedAt[run])
  {
    var k := FreshnessIsListedFor(s, f);
    StartIsKnown(s, s.group.members[k], run);
  }

  lemma StartIsKnown(s: State, m: GroupMember, run: RunId)
    requires s.startedAt.Keys == s.sync.runs.Keys && run in s.sync.runs && ConfirmedBy(s, m.entryId) == Some(run)
    ensures run in s.startedAt && FreshnessOfMember(s, m).syncRunStartedAt == Some(s.startedAt[run])
  {
    assert run in s.startedAt.Keys;
  }

  lemma FreshnessIsListedFor(s: State, f: Freshness) returns (k: nat)
    requires f in SortByKey(Map(s.group.members, FreshnessFor(s)), FreshnessId())
    ensures k < |s.group.members| && f == FreshnessOfMember(s, s.group.members[k])
  {
    var listed := Map(s.group.members, FreshnessFor(s));
    SameMembers(SortByKey(listed, FreshnessId()), listed);
    k :| 0 <= k < |listed| && listed[k] == f;
  }

  lemma GateMeansChecked(t: Target, s: State, run: RunId)
    requires RunsOk(s) && EventsOk(s) && run in s.sync.runs
    requires GateHolds(LoadInputs(t, s), None, Some(run), s.season)
    ensures CheckedBefore(s, run)
  {
    var inputs := LoadInputs(t, s);
    forall f | f in inputs.freshness && f.syncRunId == Some(run) ensures f.syncRunStartedAt == Some(s.startedAt[run]) {
      FreshnessOfRun(t, s, run, f);
    }
    CheckedStrictlyBeforeRun(Observations(s.events), inputs, None, run, s.season, s.startedAt[run]);
    var k :| BeginsLastBlock(Observations(s.events), k) && Observations(s.events)[k].at < s.startedAt[run];
    assert EventOk(s, s.events[k]);
  }

  lemma GateIsSound(t: Target, s: State, run: RunId)
    requires Inv(t, s) && run in s.sync.runs
    requires GateHolds(LoadInputs(t, s), None, Some(run), s.season)
    ensures Sound(t, s, run)
  {
    var ids := GateEligible(LoadInputs(t, s));
    EligibleMembers(t, s);
    assert ids[0] in ids;
    var first :| 0 <= first < |s.group.members| && s.group.members[first].entryId == ids[0];
    assert Counts(t, s, s.group.members[first]);
    forall k | 0 <= k < |s.group.members| && Counts(t, s, s.group.members[k]) ensures Ready(s, s.group.members[k].entryId, run) {
      assert s.group.members[k].entryId in ids;
      ReadyInState(t, s, k, run);
    }
    GateMeansChecked(t, s, run);
  }

  lemma StateIsReady(t: Target, s: State, k: nat, run: RunId, observed: Millis)
    requires RowsOk(t, s) && RunsOk(s) && WellFormedGroup(s.group) && k < |s.group.members|
    requires run in s.sync.runs && s.sync.runs[run].status == SUCCESS && run in s.startedAt
    requires ObservedAfter(Observations(s.events)) == Some(observed) && observed < s.startedAt[run]
    requires Ready(s, s.group.members[k].entryId, run)
    ensures ReadyMember(s.group.members[k].entryId, LoadInputs(t, s), Some(run))
    ensures SemanticsFit(s.group.members[k].entryId, LoadInputs(t, s), s.season)
  {
    LoadedRows(t, s);
    LoadedFreshness(t, s, k);
    assert IsMemberOf(s.group, s.group.members[k].entryId);
  }

  /** The stored time is that of the one observation that begins the last block. */
  lemma BlockStartIsObserved(history: seq<Observation>, k: nat)
    requires BeginsLastBlock(history, k)
    ensures ObservedAfter(history) == Some(history[k].at)
  {
    ObservedIsBlockStart(history);
    var j :| BeginsLastBlock(history, j) && ObservedAfter(history).value == history[j].at;
    assert j == k;
  }

  lemma SoundOpensGate(t: Target, s: State, run: RunId)
    requires Inv(t, s) && run in s.sync.runs && s.sync.runs[run].status == SUCCESS && Sound(t, s, run)
    ensures GateHolds(LoadInputs(t, s), None, Some(run), s.season)
  {
    var inputs := LoadInputs(t, s);
    var ids := GateEligible(inputs);
    var b :| BeginsLastBlock(Observations(s.events), b) && s.events[b].seen.at < s.startedAt[run];
    BlockStartIsObserved(Observations(s.events), b);
    assert EventOk(s, s.events[|s.events| - 1]) && Observations(s.events)[|s.events| - 1].dataChecked;
    EligibleMembers(t, s);
    var first :| 0 <= first < |s.group.members| && Counts(t, s, s.group.members[first]);
    assert s.group.members[first].entryId in ids;
    forall id | id in ids ensures ReadyMember(id, inputs, Some(run)) && SemanticsFit(id, inputs, s.season) {
      var k :| 0 <= k < |s.group.members| && s.group.members[k].entryId == id;
      assert Counts(t, s, s.group.members[k]);
      StateIsReady(t, s, k, run, s.events[b].seen.at);
    }
  }

  /** For a run stored SUCCESS, the gate evaluated on what is loaded opens exactly when the stored data is sound. */
  lemma GateOpensIffSound(t: Target, s: State, run: RunId)
    requires Inv(t, s) && run in s.sync.runs && s.sync.runs[run].status == SUCCESS
    ensures GateHolds(LoadInputs(t, s), None, Some(run), s.season) <==> Sound(t, s, run)
  {
    if GateHolds(LoadInputs(t, s), None, Some(run), s.season) {
      GateIsSound(t, s, run);
    }
    if Sound(t, s, run) {
      SoundOpensGate(t, s, run);
    }
  }

  // ---- where a committed decision comes from ----

  /** Step j opened this transaction on the state before it. */
  ghost predicate OpenedAt(t: Target, states: seq<State>, steps: seq<Step>, j: int, id: RunId, o: Opened) {
    && 0 <= j < |steps| < |states| && steps[j].OpenT4? && steps[j].id == id && states[j].decisions.history != []
    && o == Opened(|states[j].decisions.history| - 1, steps[j].req, Loaded(LoadInputs(t, states[j]), states[j].season, steps[j].rest))
  }

  lemma OpenGrowsBy(t: Target, s: State, step: Step)
    requires Enabled(t, s, step)
    ensures var next := After(t, s, step).open;
      || next == s.open
      || (step.OpenT4? && s.decisions.history != []
          && next == s.open[step.id := Opened(|s.decisions.history| - 1, step.req, Loaded(LoadInputs(t, s), s.season, step.rest))])
  {
  }

  lemma {:induction false} OpenWasOpened(t: Target, states: seq<State>, steps: seq<Step>, i: nat, id: RunId) returns (j: nat)
    requires IsRun(t, states, steps) && i < |states| && id in states[i].open
    ensures j < i && OpenedAt(t, states, steps, j, id, states[i].open[id])
  {
    OpenGrowsBy(t, states[i - 1], steps[i - 1]);
    if id in states[i - 1].open && states[i].open[id] == states[i - 1].open[id] {
      j := OpenWasOpened(t, states, steps, i - 1, id);
    } else {
      j := i - 1;
    }
  }

  function ReadBy(d: DecisionRuns.Step): Opened {
    Opened(d.seen, d.req, d.load)
  }

  /** The log grows only when a transaction commits. */
  lemma LogGrowsBy(t: Target, s: State, step: Step)
    requires Enabled(t, s, step)
    ensures var next := After(t, s, step).decisions.log;
      || next == s.decisions.log
      || (step.CommitT4? && next == s.decisions.log + [DecisionOf(s, step.id, step.fenced, step.newId, step.rest)])
  {
  }

  lemma {:induction false} LoggedWasOpened(t: Target, states: seq<State>, steps: seq<Step>, i: nat, k: nat) returns (j: nat, id: RunId)
    requires IsRun(t, states, steps) && i < |states| && k < |states[i].decisions.log|
    ensures j < i && OpenedAt(t, states, steps, j, id, ReadBy(states[i].decisions.log[k]))
  {
    LogGrowsBy(t, states[i - 1], steps[i - 1]);
    if k < |states[i - 1].decisions.log| {
      j, id := LoggedWasOpened(t, states, steps, i - 1, k);
    } else {
      id := steps[i - 1].id;
      j := OpenWasOpened(t, states, steps, i - 1, id);
    }
  }

  lemma SuccessStays(t: Target, s: State, step: Step, run: RunId)
    requires RunLifecycle.Inv(s.sync) && Enabled(t, s, step) && run in s.sync.runs && s.sync.runs[run].status == SUCCESS
    ensures run in After(t, s, step).sync.runs && After(t, s, step).sync.runs[run].status == SUCCESS
  {
    if step.Sync? {
      RunLifecycle.StepKeepsFinalStatus(s.sync, step.step, run);
    }
  }

  lemma {:induction false} SuccessIsForGood(t: Target, states: seq<State>, steps: seq<Step>, j: nat, l: nat, run: RunId)
    requires IsRun(t, states, steps) && j <= l < |states|
    requires run in states[j].sync.runs && states[j].sync.runs[run].status == SUCCESS
    ensures run in states[l].sync.runs && states[l].sync.runs[run].status == SUCCESS
  {
    if j < l {
      SuccessIsForGood(t, states, steps, j, l - 1, run);
      RunKeepsInv(t, states, steps, l - 1);
      SuccessStays(t, states[l - 1], steps[l - 1], run);
    }
  }

  /** The decision transaction of a run that finished with this status; the status is the stored one. */
  lemma DeciderIsStored(t: Target, s: State, id: RunId, req: Request)
    requires Inv(t, s) && MayDecide(s, id, req) && req.Finalize?
    ensures req.runId == id && id in s.sync.runs && s.sync.runs[id].status == req.runStatus
  {
    assert RunLifecycle.JobOk(s.sync, id);
  }

  /**
   Finalize safety, over every interleaving of syncs, member writes, edits, shutdowns and decisions. A
   FINALIZE in the history is its first action. Its transaction read a state of the run in which the group
   was active, somebody counted, and of everybody who counted the stored row was reconciled and last
   confirmed by the finalize run; another run had begun the unbroken block of data_checked answers strictly
   before that run started; the run is stored SUCCESS from then on; and the declared winners are what the
   engine computes from that state, at least one.
   */
  lemma FinalizeIsSafe(t: Target, states: seq<State>, steps: seq<Step>, i: nat, k: nat) returns (j: nat, run: RunId)
    requires IsService(t.w) && IsRun(t, states, steps) && i < |states| && states[i].decisions.history != []
    requires var actions := DecisionRuns.Current(states[i].decisions).actions; k < |actions| && actions[k].body.fields.action == FINALIZE
    ensures k == 0
    ensures j < i && steps[j].OpenT4? && steps[j].id == run && steps[j].req == Finalize(run, SUCCESS)
    ensures Sound(t, states[j], run)
    ensures forall l | j <= l < |states| :: run in states[l].sync.runs && states[l].sync.runs[run].status == SUCCESS
    ensures DecisionRuns.Current(states[i].decisions).actions[0].body.fields.newWinners
         == Computed(LoadInputs(t, states[j]).result, t.w.nameKey).outcome.winners != []
  {
    RunKeepsInv(t, states, steps, i);
    DecisionRuns.FinalizeIsGated(t.w, states[i].decisions, k);
    j, run := LoggedWasOpened(t, states, steps, i, 0);
    RunKeepsInv(t, states, steps, j);
    assert Enabled(t, states[j], steps[j]);
    DeciderIsStored(t, states[j], run, steps[j].req);
    GateIsSound(t, states[j], run);
    forall l | j <= l < |states| ensures run in states[l].sync.runs && states[l].sync.runs[run].status == SUCCESS {
      SuccessIsForGood(t, states, steps, j, l, run);
    }
  }

  // ---- who wrote the rows ----

  /** Step m stored the row, while the run was working, and nothing has touched it up to state i. */
  ghost predicate WrittenAt(states: seq<State>, steps: seq<Step>, m: int, i: int, id: int, run: RunId) {
    && 0 <= m < i < |states| && m < |steps|
    && steps[m].WriteMember? && steps[m].who == run && steps[m].entryId == id && Writes(states[m], run)
    && forall l | m < l <= i :: id in states[l].rows && steps[m].row == Some(states[l].rows[id].row)
  }

  /** A row says truly who confirmed it: that run wrote it, while it was working, and nobody has since. */
  lemma {:induction false} RowWasWritten(t: Target, states: seq<State>, steps: seq<Step>, i: nat, id: int) returns (m: nat)
    requires IsRun(t, states, steps) && i < |states| && id in states[i].rows
    ensures WrittenAt(states, steps, m, i, id, states[i].rows[id].confirmedBy)
  {
    assert Enabled(t, states[i - 1], steps[i - 1]);
    if steps[i - 1].WriteMember? && steps[i - 1].entryId == id && steps[i - 1].row.Some? {
      m := i - 1;
    } else {
      m := RowWasWritten(t, states, steps, i - 1, id);
    }
  }

  lemma {:induction false} ForeignStays(t: Target, states: seq<State>, steps: seq<Step>, i: nat, j: nat, id: RunId)
    requires IsRun(t, states, steps) && i <= j < |states| && id in states[i].foreign
    ensures id in states[j].foreign
  {
    if i < j {
      ForeignStays(t, states, steps, i, j - 1, id);
      assert Enabled(t, states[j - 1], steps[j - 1]);
    }
  }

  /** In a sound state everybody who counts has a row that the run wrote from its own body. */
  lemma RunWroteRows(t: Target, states: seq<State>, steps: seq<Step>, i: nat, run: RunId, k: nat) returns (m: nat)
    requires IsRun(t, states, steps) && i < |states| && Sound(t, states[i], run) && run in states[i].sync.runs
    requires k < |states[i].group.members| && Counts(t, states[i], states[i].group.members[k])
    ensures WrittenAt(states, steps, m, i, states[i].group.members[k].entryId, run)
    ensures RunLifecycle.At(states[m].sync, run, RunLifecycle.Working)
  {
    m := RowWasWritten(t, states, steps, i, states[i].group.members[k].entryId);
    RunKeepsInv(t, states, steps, i);
    assert run in states[i].sync.jobs;
    if run in states[m].foreign {
      ForeignStays(t, states, steps, m, i, run);
    }
  }

  // ---- a run that finalizes ----

  ghost predicate Reachable(t: Target, s: State) {
    exists states, steps :: IsRun(t, states, steps) && s == states[|steps|]
  }

  lemma ReachableStep(t: Target, s: State, step: Step)
    requires Reachable(t, s) && Enabled(t, s, step)
    ensures Reachable(t, After(t, s, step)) && Inv(t, s)
  {
    var states, steps :| IsRun(t, states, steps) && s == states[|steps|];
    var longer, more := states + [After(t, s, step)], steps + [step];
    assert IsRun(t, longer, more) && longer[|more|] == After(t, s, step);
    RunKeepsInv(t, states, steps, |steps|);
  }

  const OneMember: GroupDoc := GroupDoc(true, Group(NET_POINTS, [TieBreakers.Shared], None), [GroupMember(7, false, None)])

  function OneRow(t: Target): GwRow {
    GwRow(7, t.event, 50, 0, Some(50), Some(50), Some(50), Some(3), TieBreakers.NoChip, Some(1000), UNVERIFIED, RECONCILED_NO_COST)
  }

  /** Run 2, of another lock, saw data_checked at 10. */
  function Checked(t: Target): State {
    Start.(group := OneMember, foreign := map[2 := ForeignRun(0, SUCCESS)], now := 20,
           events := [EventSync(2, Observation(true, 10), DATA_CHECKED)])
  }

  lemma CheckedIsReachable(t: Target)
    ensures Reachable(t, Checked(t))
  {
    var states, steps: seq<Step> := [Start], [];
    assert IsRun(t, states, steps) && states[|steps|] == Start;
    var a := Edit(OneMember, UNVERIFIED, map[], map[]);
    ReachableStep(t, Start, a);
    var s := After(t, Start, a);
    var b := Foreign(2, ForeignRun(0, SUCCESS));
    ReachableStep(t, s, b);
    s := After(t, s, b);
    ReachableStep(t, s, Tick(20));
    s := After(t, s, Tick(20));
    var c := SyncEvent(2, 10, 0, true, true, []);
    ReachableStep(t, s, c);
    assert After(t, s, c) == Checked(t);
  }

  /** Run 1 started at 20 and is at this point of its program. */
  function RunAt(t: Target, runs: Runs, pc: RunLifecycle.Pc, startedAt: map<RunId, Millis>): State {
    Checked(t).(sync := RunLifecycle.State({}, runs, map[1 := RunLifecycle.Job(0, 1, true, pc)], 1, {}), startedAt := startedAt)
  }

  lemma SyncStep(t: Target, s: State, step: RunLifecycle.Step, next: RunLifecycle.State)
    requires Reachable(t, s) && s.now == 20 && (step.Grant? ==> step.id !in s.foreign)
    requires RunLifecycle.Enabled(s.sync, step) && RunLifecycle.After(s.sync, step) == next
    ensures Reachable(t, s.(sync := next, startedAt := if step.Insert? then s.startedAt[step.id := 20] else s.startedAt))
  {
    ReachableStep(t, s, Sync(step, 20));
  }

  lemma InsertingIsReachable(t: Target)
    ensures Reachable(t, RunAt(t, map[], RunLifecycle.Inserting, map[]))
  {
    CheckedIsReachable(t);
    SyncStep(t, Checked(t), RunLifecycle.Grant(1, 0, 1, true), RunAt(t, map[], RunLifecycle.Waiting, map[]).sync);
    SyncStep(t, RunAt(t, map[], RunLifecycle.Waiting, map[]), RunLifecycle.Resume(1), RunAt(t, map[], RunLifecycle.Sweeping, map[]).sync);
    SyncStep(t, RunAt(t, map[], RunLifecycle.Sweeping, map[]), RunLifecycle.Sweep(1), RunAt(t, map[], RunLifecycle.Inserting, map[]).sync);
  }

  lemma WorkingIsReachable(t: Target)
    ensures Reachable(t, RunAt(t, map[1 := Run(1, RUNNING)], RunLifecycle.Working, map[1 := 20]))
  {
    InsertingIsReachable(t);
    var runs := map[1 := Run(1, RUNNING)];
    SyncStep(t, RunAt(t, map[], RunLifecycle.Inserting, map[]), RunLifecycle.Insert(1), RunAt(t, runs, RunLifecycle.Inserted, map[]).sync);
    assert RunAt(t, map[], RunLifecycle.Inserting, map[]).(sync := RunAt(t, runs, RunLifecycle.Inserted, map[]).sync, startedAt := map[1 := 20])
        == RunAt(t, runs, RunLifecycle.Inserted, map[1 := 20]);
    SyncStep(t, RunAt(t, runs, RunLifecycle.Inserted, map[1 := 20]), RunLifecycle.Begin(1), RunAt(t, runs, RunLifecycle.Working, map[1 := 20]).sync);
  }

  /** It has written the member's row. */
  function WrittenRun(t: Target, runs: Runs, pc: RunLifecycle.Pc): State {
    RunAt(t, runs, pc, map[1 := 20]).(rows := map[7 := StoredRow(OneRow(t), 1)], seasons := map[7 := 1])
  }

  lemma WrittenIsReachable(t: Target)
    ensures Reachable(t, WrittenRun(t, map[1 := Run(1, RUNNING)], RunLifecycle.Working))
  {
    var s := RunAt(t, map[1 := Run(1, RUNNING)], RunLifecycle.Working, map[1 := 20]);
    WorkingIsReachable(t);
    var write := WriteMember(1, 7, Some(OneRow(t)));
    ReachableStep(t, s, write);
    assert After(t, s, write) == WrittenRun(t, map[1 := Run(1, RUNNING)], RunLifecycle.Working);
  }

  /** The finished run is about to finalize. */
  function FinishedRun(t: Target): State {
    WrittenRun(t, map[1 := Run(1, SUCCESS)], RunLifecycle.Deciding(SUCCESS))
  }

  lemma FinishedIsReachable(t: Target)
    ensures Reachable(t, FinishedRun(t))
  {
    var runs := map[1 := Run(1, RUNNING)];
    var s, ending := WrittenRun(t, runs, RunLifecycle.Working), WrittenRun(t, runs, RunLifecycle.Finishing(SUCCESS));
    WrittenIsReachable(t);
    SyncStep(t, s, RunLifecycle.End(1, SUCCESS), ending.sync);
    assert s.(sync := ending.sync) == ending;
    SyncStep(t, ending, RunLifecycle.Finish(1), FinishedRun(t).sync);
    assert ending.(sync := FinishedRun(t).sync) == FinishedRun(t);
  }

  lemma FinishedIsSound(t: Target)
    ensures Sound(t, FinishedRun(t), 1)
  {
    var s := FinishedRun(t);
    assert Counts(t, s, s.group.members[0]);
    assert BeginsLastBlock(Observations(s.events), 0);
  }

  /** It has opened its transaction. */
  function OpenedRun(t: Target, before: State): State {
    before.(open := map[1 := Opened(0, Finalize(1, SUCCESS), Loaded(LoadInputs(t, before), before.season, ""))])
  }

  lemma OpenedIsReachable(t: Target)
    ensures var before := FinishedRun(t);
      && Reachable(t, OpenedRun(t, before)) && Inv(t, before)
      && GateHolds(LoadInputs(t, before), None, Some(1), before.season)
      && WellFormedLoad(Loaded(LoadInputs(t, before), before.season, ""))
  {
    var before := FinishedRun(t);
    FinishedIsReachable(t);
    FinishedIsSound(t);
    var opening := OpenT4(1, Finalize(1, SUCCESS), "");
    ReachableStep(t, before, opening);
    assert After(t, before, opening) == OpenedRun(t, before);
    SoundOpensGate(t, before, 1);
    LoadIsWellFormed(t, before, "");
  }

  /** A finalize opened on the empty history, with a gate that holds, commits. */
  lemma OpenedCommits(t: Target, s: State, load: Loaded)
    requires IsService(t.w) && Reachable(t, s) && s.decisions == DecisionRuns.Start
    requires s.open == map[1 := Opened(0, Finalize(1, SUCCESS), load)]
    requires WellFormedLoad(load) && GateHolds(load.gate, None, Some(1), load.season)
    ensures var next := DecisionRuns.After(t.w, DecisionRuns.Start, DecisionOf(s, 1, true, 1, ""));
      && Reachable(t, s.(decisions := next)) && next.history != []
      && var actions := DecisionRuns.Current(next).actions; |actions| == 1 && actions[0].body.fields.action == FINALIZE
  {
    var d := DecisionOf(s, 1, true, 1, "");
    DecisionRuns.FirstFinalizeCommits(t.w, d);
    DecisionRuns.CommitShape(t.w, DecisionRuns.Start, d);
    ReachableStep(t, s, CommitT4(1, true, 1, ""));
  }

  /** The safety theorem is not empty: some run of the whole system commits a FINALIZE. */
  lemma FinalizeCanHappen(t: Target) returns (s: State)
    requires IsService(t.w)
    ensures Reachable(t, s) && s.decisions.history != []
    ensures var actions := DecisionRuns.Current(s.decisions).actions; |actions| == 1 && actions[0].body.fields.action == FINALIZE
  {
    var pending := OpenedRun(t, FinishedRun(t));
    OpenedIsReachable(t);
    OpenedCommits(t, pending, pending.open[1].load);
    s := pending.(decisions := DecisionRuns.After(t.w, DecisionRuns.Start, DecisionOf(pending, 1, true, 1, "")));
  }
}
