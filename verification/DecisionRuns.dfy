/**
 Every run of finalize, override and recompute over one (group, season, event), without the help of
 the lease: each transaction reads the database as it was after any earlier transaction, so readers
 may be arbitrarily stale, and only the seq and headSeq guards order the commits.
 */
module DecisionRuns {
  import opened Wrappers
  import opened Sorting
  import opened Points
  import opened SyncRuns
  import opened Results
  import opened FinalizeGate
  import opened Traces
  import opened HashChain
  import opened ResultRepo
  import opened Decisions
  import Encoding
  import Snapshots

  /** One transaction; `seen` indexes the history it reads from. */
  datatype Step = Step(seen: nat, req: Request, fenced: bool, load: Loaded, newId: SnapshotId, rest: string)

  /** `history` holds the database after each transaction, `log` the steps that committed. */
  datatype State = State(history: seq<Db>, log: seq<Step>)

  function Current(s: State): Db
    requires s.history != []
  {
    s.history[|s.history| - 1]
  }

  ghost predicate Enabled(s: State, step: Step) {
    && step.seen < |s.history|
    && WellFormedLoad(step.load)
    && step.newId !in Current(s).snapshots
  }

  ghost function EffectOf(w: World, s: State, step: Step): Effect
    requires Enabled(s, step)
  {
    T4(w, s.history[step.seen], Current(s), step.req, step.fenced, step.load, step.newId, step.rest)
  }

  ghost function After(w: World, s: State, step: Step): State
    requires Enabled(s, step)
  {
    var e := EffectOf(w, s, step);
    State(s.history + [e.db], if e.outcome.Committed? then s.log + [step] else s.log)
  }

  // ---- what every stored database looks like ----

  /** What the head of the first i actions says. */
  function HeadAt(actions: seq<Action>, i: nat): Option<Pointer>
    requires i <= |actions|
  {
    if i == 0 then None else Some(PointerFor(actions[i - 1]))
  }

  /** The declared winners before action i. */
  function WinnersBefore(actions: seq<Action>, i: nat): seq<int>
    requires i <= |actions|
  {
    if i == 0 then [] else actions[i - 1].body.fields.newWinners
  }

  /** Action i continues its predecessor and cites a stored snapshot of the right kind. */
  predicate ActionOk(hash: Doc -> Hash, actions: seq<Action>, i: nat, snapshots: map<SnapshotId, StoredSnapshot>)
    requires i < |actions|
  {
    var a, f := actions[i], actions[i].body.fields;
    && a == NextAction(hash, HeadAt(actions, i), f)
    && a.body.seqNo == i + 1
    && f.prevStatus == StatusOf(HeadAt(actions, i)).GetOr(PROVISIONAL)
    && f.prevSnapshotId == HeadSnapshot(HeadAt(actions, i))
    && f.prevWinners == WinnersBefore(actions, i)
    && f.newSnapshotId in snapshots
    && CitesOk(hash, f, snapshots[f.newSnapshotId])
    && (f.action == FINALIZE ==> i == 0)
    && (f.action == RECOMPUTE ==> i > 0)
  }

  predicate CitesOk(hash: Doc -> Hash, f: Fields, stored: StoredSnapshot) {
    && stored.contentHash == hash(SnapshotDoc(stored.content)) == f.newSnapshotHash
    && f.newWinners == stored.content.declaredWinnerEntryIds
    && f.newStatus == (if f.action == ActionKind.OVERRIDE then OVERRIDDEN else FINAL)
    && (stored.content.kind == Snapshots.RULE_BASED <==> f.action != ActionKind.OVERRIDE)
    && (f.action != ActionKind.OVERRIDE ==> stored.content.declaredWinnerEntryIds == stored.content.computedWinnerEntryIds)
    && NoteOk(f)
  }

  /** A recompute that changes the winners carries a note. */
  predicate NoteOk(f: Fields) {
    f.action == RECOMPUTE && SortedIds(f.prevWinners) != f.newWinners ==> HasNote(f.note)
  }

  ghost predicate DbOk(hash: Doc -> Hash, db: Db) {
    && (forall i | 0 <= i < |db.actions| :: ActionOk(hash, db.actions, i, db.snapshots))
    && db.pointer == HeadAt(db.actions, |db.actions|)
  }

  /** Append only: actions and snapshots are never changed or removed. */
  ghost predicate Extends(old_: Db, new_: Db) {
    && old_.actions <= new_.actions
    && (forall id | id in old_.snapshots :: id in new_.snapshots && new_.snapshots[id] == old_.snapshots[id])
  }

  ghost predicate Inv(hash: Doc -> Hash, s: State) {
    && s.history != []
    && (forall i | 0 <= i < |s.history| :: DbOk(hash, s.history[i]) && Extends(s.history[i], Current(s)))
  }

  lemma ActionOkExtends(hash: Doc -> Hash, db: Db, snapshots: map<SnapshotId, StoredSnapshot>, i: nat, more: seq<Action>)
    requires i < |db.actions| && ActionOk(hash, db.actions, i, db.snapshots)
    requires forall id | id in db.snapshots :: id in snapshots && snapshots[id] == db.snapshots[id]
    ensures ActionOk(hash, db.actions + more, i, snapshots)
  {
  }

  /** The commit guards pass only for a reader that saw the current head. */
  lemma GuardsMeanCurrent(w: World, seen: Db, cur: Db, snapshot: Snapshot, fields: Fields)
    requires DbOk(w.hash, seen) && DbOk(w.hash, cur) && Extends(seen, cur)
    requires fields.prevSnapshotId == HeadSnapshot(seen.pointer)
    ensures Commit(w, cur, seen, snapshot, fields).outcome.Committed? <==> |seen.actions| == |cur.actions|
    ensures |seen.actions| == |cur.actions| ==> seen.actions == cur.actions && seen.pointer == cur.pointer
    ensures !Commit(w, cur, seen, snapshot, fields).outcome.Committed? ==>
      Commit(w, cur, seen, snapshot, fields) == Effect(cur, Failed(Repo(CONCURRENT_DECISION)))
  {
    var n := |seen.actions|;
    HeadSeqCounts(w.hash, seen);
    if n < |cur.actions| {
      assert ActionOk(w.hash, cur.actions, n, cur.snapshots);
      assert cur.actions[n] in cur.actions && cur.actions[n].body.seqNo == n + 1;
    } else {
      assert seen.actions == cur.actions;
      forall a | a in cur.actions ensures a.body.seqNo != n + 1 {
        var i :| 0 <= i < n && cur.actions[i] == a;
        assert ActionOk(w.hash, cur.actions, i, cur.snapshots);
      }
    }
  }

  /** What a decision to write must be like for the chain to stay sound, whatever it decides. */
  predicate Fits(p: Plan, req: Request, head: Option<Pointer>, prev: Option<Snapshot>)
    requires p.Write?
  {
    && p.newStatus == (if req.Override? then OVERRIDDEN else FINAL)
    && (p.snapshot.kind == Snapshots.RULE_BASED <==> !req.Override?)
    && (!req.Override? ==> p.snapshot.declaredWinnerEntryIds == p.snapshot.computedWinnerEntryIds)
    && (req.Finalize? ==> StatusOf(head) != Some(FINAL) && StatusOf(head) != Some(OVERRIDDEN))
    && (req.Recompute? ==> head.Some? && (SortedIds(DeclaredOf(prev)) != p.snapshot.declaredWinnerEntryIds ==> HasNote(req.note)))
  }

  ghost predicate PlansFit(w: World) {
    forall req, head, prev, load :: w.plan(req, head, prev, load).Write? ==> Fits(w.plan(req, head, prev, load), req, head, prev)
  }

  /** The service's plans fit, so everything proved below from PlansFit alone holds of it. */
  lemma ServicePlansFit(w: World)
    requires IsService(w)
    ensures PlansFit(w)
  {
    forall req, head, prev, load | w.plan(req, head, prev, load).Write?
      ensures Fits(w.plan(req, head, prev, load), req, head, prev)
    {
      PlanFits(w, req, head, prev, load, Computed(load.gate.result, w.nameKey));
    }
  }

  lemma PlanFits(w: World, req: Request, head: Option<Pointer>, prev: Option<Snapshot>, load: Loaded, r: GwResult)
    requires PlanOf(w, req, head, prev, load, r).Write?
    ensures Fits(PlanOf(w, req, head, prev, load, r), req, head, prev)
  {
  }

  lemma WritesFit(w: World, seen: Db, req: Request, load: Loaded, rest: string, newId: SnapshotId)
    requires PlansFit(w) && DbOk(w.hash, seen) && Planned(w, req, seen, load).Write?
    ensures var p := Planned(w, req, seen, load);
      var f := ActionFields(w, req, seen, p.snapshot, p.newStatus, newId, rest);
      && CitesOk(w.hash, f, StoredSnapshot(p.snapshot, w.hash(SnapshotDoc(p.snapshot))))
      && (f.action == FINALIZE ==> seen.actions == [])
      && (f.action == RECOMPUTE ==> seen.actions != [])
  {
    assert Fits(Planned(w, req, seen, load), req, seen.pointer, PrevSnapshot(seen));
    if seen.actions != [] {
      assert ActionOk(w.hash, seen.actions, |seen.actions| - 1, seen.snapshots);
    }
  }

  lemma PreviousWinners(hash: Doc -> Hash, db: Db)
    requires DbOk(hash, db)
    ensures DeclaredOf(PrevSnapshot(db)) == WinnersBefore(db.actions, |db.actions|)
  {
    if db.actions != [] {
      assert ActionOk(hash, db.actions, |db.actions| - 1, db.snapshots);
    }
  }

  lemma CommitKeepsDbOk(w: World, seen: Db, cur: Db, snapshot: Snapshot, newStatus: ResultStatus, req: Request, load: Loaded, newId: SnapshotId, rest: string)
    requires PlansFit(w) && DbOk(w.hash, seen) && DbOk(w.hash, cur) && Extends(seen, cur)
    requires Planned(w, req, seen, load) == Write(snapshot, newStatus)
    requires newId !in cur.snapshots
    ensures var e := Commit(w, cur, seen, snapshot, ActionFields(w, req, seen, snapshot, newStatus, newId, rest));
      DbOk(w.hash, e.db) && Extends(cur, e.db)
  {
    var f := ActionFields(w, req, seen, snapshot, newStatus, newId, rest);
    var e := Commit(w, cur, seen, snapshot, f);
    GuardsMeanCurrent(w, seen, cur, snapshot, f);
    if e.outcome.Committed? {
      WritesFit(w, seen, req, load, rest, newId);
      PreviousWinners(w.hash, seen);
      PreviousWinners(w.hash, cur);
      AppendKeepsDbOk(w, cur, e, f, snapshot);
    }
  }

  /** The action and snapshot of a decision taken on the current head. */
  ghost predicate Follows(w: World, cur: Db, f: Fields, snapshot: Snapshot) {
    && f.prevStatus == StatusOf(cur.pointer).GetOr(PROVISIONAL)
    && f.prevSnapshotId == HeadSnapshot(cur.pointer)
    && f.prevWinners == WinnersBefore(cur.actions, |cur.actions|)
    && CitesOk(w.hash, f, StoredSnapshot(snapshot, w.hash(SnapshotDoc(snapshot))))
    && (f.action == FINALIZE ==> cur.actions == []) && (f.action == RECOMPUTE ==> cur.actions != [])
    && f.newSnapshotId !in cur.snapshots
  }

  predicate Appends(w: World, cur: Db, e: Effect, f: Fields, snapshot: Snapshot) {
    && e.outcome == Committed(NextAction(w.hash, cur.pointer, f))
    && e.db == Db(WithSnapshot(w.hash, cur, f.newSnapshotId, snapshot).snapshots,
                  cur.actions + [e.outcome.action], Some(PointerFor(e.outcome.action)))
  }

  lemma NewActionOk(w: World, cur: Db, e: Effect, f: Fields, snapshot: Snapshot)
    requires DbOk(w.hash, cur) && Follows(w, cur, f, snapshot) && Appends(w, cur, e, f, snapshot)
    ensures ActionOk(w.hash, e.db.actions, |cur.actions|, e.db.snapshots)
  {
    var n := |cur.actions|;
    assert e.db.actions[n] == e.outcome.action && (n > 0 ==> e.db.actions[n - 1] == cur.actions[n - 1]);
    assert HeadAt(e.db.actions, n) == cur.pointer;
    if n > 0 {
      assert ActionOk(w.hash, cur.actions, n - 1, cur.snapshots);
    }
  }

  lemma AppendKeepsDbOk(w: World, cur: Db, e: Effect, f: Fields, snapshot: Snapshot)
    requires DbOk(w.hash, cur) && Follows(w, cur, f, snapshot) && Appends(w, cur, e, f, snapshot)
    ensures DbOk(w.hash, e.db) && Extends(cur, e.db)
  {
    NewActionOk(w, cur, e, f, snapshot);
    forall i | 0 <= i < |cur.actions| ensures ActionOk(w.hash, e.db.actions, i, e.db.snapshots) {
      ActionOkExtends(w.hash, cur, e.db.snapshots, i, [e.outcome.action]);
    }
  }

  lemma EffectKeepsDbOk(w: World, s: State, step: Step)
    requires PlansFit(w) && Inv(w.hash, s) && Enabled(s, step)
    ensures DbOk(w.hash, EffectOf(w, s, step).db) && Extends(Current(s), EffectOf(w, s, step).db)
  {
    var seen, cur := s.history[step.seen], Current(s);
    if step.fenced && !(seen.pointer.Some? && !Accepted(w.hash, seen)) {
      match Planned(w, step.req, seen, step.load)
      case Write(snapshot, newStatus) =>
        CommitKeepsDbOk(w, seen, cur, snapshot, newStatus, step.req, step.load, step.newId, step.rest);
      case _ =>
    }
  }

  lemma StepKeepsInv(w: World, s: State, step: Step)
    requires PlansFit(w) && Inv(w.hash, s) && Enabled(s, step)
    ensures Inv(w.hash, After(w, s, step))
  {
    EffectKeepsDbOk(w, s, step);
    var t := After(w, s, step);
    assert Current(t) == EffectOf(w, s, step).db;
    forall i | 0 <= i < |t.history| ensures DbOk(w.hash, t.history[i]) && Extends(t.history[i], Current(t)) {
      if i < |s.history| {
        assert t.history[i] == s.history[i];
        assert Extends(s.history[i], Current(s));
      }
    }
  }

  // ---- the chain verifies in every reachable database ----

  lemma DbOkIsAccepted(hash: Doc -> Hash, db: Db)
    requires DbOk(hash, db)
    ensures Accepted(hash, db)
  {
    assert SortByKey(db.actions, SeqOf()) == db.actions by {
      SeqsRise(hash, db);
      SortByKeyOfSorted(db.actions, db.actions, SeqOf());
    }
    forall i | 0 <= i < |db.actions| ensures StoredLinkOk(hash, db.actions, i, db.snapshots) {
      assert ActionOk(hash, db.actions, i, db.snapshots);
    }
    if db.actions != [] {
      assert ActionOk(hash, db.actions, |db.actions| - 1, db.snapshots);
    }
  }

  lemma SeqsRise(hash: Doc -> Hash, db: Db)
    requires DbOk(hash, db)
    ensures forall i, j | 0 <= i < j < |db.actions| :: SeqOf()(db.actions[i]) < SeqOf()(db.actions[j])
  {
    forall i | 0 <= i < |db.actions| ensures SeqOf()(db.actions[i]) == i + 1 {
      assert ActionOk(hash, db.actions, i, db.snapshots);
    }
  }

  lemma NeverChainInvalid(w: World, s: State, step: Step)
    requires Enabled(s, step) && Accepted(w.hash, s.history[step.seen])
    ensures EffectOf(w, s, step).outcome != Failed(CHAIN_INVALID)
  {
  }

  /** Action a starts from what p left. */
  predicate Continues(p: Action, a: Action) {
    && a.body.prevHash == p.hash
    && a.body.fields.prevStatus == p.body.fields.newStatus
    && a.body.fields.prevSnapshotId == Some(p.body.fields.newSnapshotId)
    && a.body.fields.prevWinners == p.body.fields.newWinners
    && a.body.fields.action != FINALIZE
  }

  predicate BeginsChain(a: Action) {
    && a.body.prevHash == GENESIS
    && a.body.fields.prevStatus == PROVISIONAL
    && a.body.fields.prevSnapshotId == None
    && a.body.fields.prevWinners == []
    && a.body.fields.action != RECOMPUTE
  }

  lemma ActionContinues(hash: Doc -> Hash, actions: seq<Action>, k: nat, snapshots: map<SnapshotId, StoredSnapshot>)
    requires k < |actions| && ActionOk(hash, actions, k, snapshots)
    ensures if k == 0 then BeginsChain(actions[k]) else Continues(actions[k - 1], actions[k])
  {
  }

  /** A transaction that does not commit, a replay included, leaves the database as it was. */
  lemma OnlyCommitsWrite(w: World, s: State, step: Step)
    requires Enabled(s, step) && !EffectOf(w, s, step).outcome.Committed?
    ensures EffectOf(w, s, step).db == Current(s)
  {
  }

  // ---- what the committed decisions rest on ----

  /** The snapshot is what the engine makes of the inputs the transaction loaded. */
  ghost predicate BuiltFrom(w: World, content: Snapshot, load: Loaded) {
    && WellFormedLoad(load)
    && content == Build(w, load, Computed(load.gate.result, w.nameKey), content.kind, content.declaredWinnerEntryIds)
  }

  /** What a decision of each kind asks of the inputs it was taken on; `first` for the first of a chain. */
  ghost predicate Lawful(req: Request, load: Loaded, declared: seq<int>, first: bool) {
    && load.gate.groupActive
    && (first || !req.Override? ==> load.gate.result.eventState == Some(DATA_CHECKED))
    && match req
       case Finalize(runId, runStatus) => GateHolds(load.gate, None, Some(runId), load.season) && runStatus == SUCCESS
       case Override(winners, _) =>
         && NoRepeats(winners) && declared == SortedIds(winners)
         && (forall id | id in winners :: IsMember(load.gate.result.members, id))
       case Recompute(_) => !first
  }

  /** The action names its kind of request, and keeps the note it came with and the fields the model does not open. */
  predicate RecordsRequest(f: Fields, step: Step) {
    && (f.action == FINALIZE <==> step.req.Finalize?) && (f.action == RECOMPUTE <==> step.req.Recompute?)
    && (step.req.Finalize? ==> f.note == None)
    && (step.req.Override? ==> f.note == Some(step.req.overrideNote))
    && (step.req.Recompute? ==> f.note == step.req.note)
    && f.rest == step.rest
  }

  /** Action a was committed by `step`. */
  ghost predicate Logged(w: World, step: Step, a: Action, snapshots: map<SnapshotId, StoredSnapshot>) {
    && a.body.fields.action == KindOf(step.req)
    && RecordsRequest(a.body.fields, step)
    && a.body.fields.newSnapshotId in snapshots
    && BuiltFrom(w, snapshots[a.body.fields.newSnapshotId].content, step.load)
    && Lawful(step.req, step.load, snapshots[a.body.fields.newSnapshotId].content.declaredWinnerEntryIds, a.body.seqNo == 1)
  }

  /** The snapshot a plan writes is the built one. */
  predicate WritesBuilt(w: World, p: Plan, load: Loaded, r: GwResult) {
    p.Write? ==> p.snapshot == Build(w, load, r, p.snapshot.kind, p.snapshot.declaredWinnerEntryIds)
  }

  lemma FinalizeBuilds(w: World, runId: RunId, runStatus: Status, head: Option<Pointer>, prev: Option<Snapshot>, load: Loaded, r: GwResult)
    ensures WritesBuilt(w, FinalizePlan(w, runId, runStatus, head, prev, load, r), load, r)
  {
  }

  lemma OverrideBuilds(w: World, winners: seq<int>, head: Option<Pointer>, load: Loaded, r: GwResult)
    ensures WritesBuilt(w, OverridePlan(w, winners, head, load, r), load, r)
  {
  }

  lemma RecomputeBuilds(w: World, note: Option<string>, head: Option<Pointer>, prev: Option<Snapshot>, load: Loaded, r: GwResult)
    ensures WritesBuilt(w, RecomputePlan(w, note, head, prev, load, r), load, r)
  {
  }

  lemma WritesAreBuilt(w: World, req: Request, head: Option<Pointer>, prev: Option<Snapshot>, load: Loaded, r: GwResult)
    ensures WritesBuilt(w, PlanOf(w, req, head, prev, load, r), load, r)
  {
    match req
    case Finalize(runId, runStatus) => FinalizeBuilds(w, runId, runStatus, head, prev, load, r);
    case Override(winners, _) => OverrideBuilds(w, winners, head, load, r);
    case Recompute(note) => RecomputeBuilds(w, note, head, prev, load, r);
  }

  lemma WritesAreLawful(w: World, req: Request, head: Option<Pointer>, prev: Option<Snapshot>, load: Loaded, r: GwResult)
    requires PlanOf(w, req, head, prev, load, r).Write? && (head == None || !req.Finalize?)
    ensures Lawful(req, load, PlanOf(w, req, head, prev, load, r).snapshot.declaredWinnerEntryIds, head.None?)
  {
  }

  lemma CommitAppends(w: World, cur: Db, seen: Db, snapshot: Snapshot, f: Fields)
    requires Commit(w, cur, seen, snapshot, f).outcome.Committed?
    ensures var e := Commit(w, cur, seen, snapshot, f);
      && e.outcome.action == NextAction(w.hash, seen.pointer, f)
      && e.db.actions == cur.actions + [e.outcome.action]
      && f.newSnapshotId in e.db.snapshots && e.db.snapshots[f.newSnapshotId].content == snapshot
  {
  }

  /** A transaction that commits had a decision to write and committed that one. */
  lemma CommitsItsPlan(w: World, s: State, step: Step)
    requires Enabled(s, step) && EffectOf(w, s, step).outcome.Committed?
    ensures var seen := s.history[step.seen];
      var p := Planned(w, step.req, seen, step.load);
      && p.Write?
      && EffectOf(w, s, step) == Commit(w, Current(s), seen, p.snapshot,
           ActionFields(w, step.req, seen, p.snapshot, p.newStatus, step.newId, step.rest))
  {
  }

  /** What a commit leaves, and what it was planned from. */
  lemma CommitShape(w: World, s: State, step: Step)
    requires Enabled(s, step) && EffectOf(w, s, step).outcome.Committed?
    ensures var e, seen := EffectOf(w, s, step), s.history[step.seen];
      && Planned(w, step.req, seen, step.load).Write?
      && e.db.actions == Current(s).actions + [e.outcome.action]
      && e.outcome.action.body.fields.action == KindOf(step.req)
      && RecordsRequest(e.outcome.action.body.fields, step)
      && e.outcome.action.body.fields.newSnapshotId == step.newId
      && e.outcome.action.body.seqNo == HeadSeq(seen.pointer) + 1
      && step.newId in e.db.snapshots
      && e.db.snapshots[step.newId].content == Planned(w, step.req, seen, step.load).snapshot
  {
    var seen := s.history[step.seen];
    var p := Planned(w, step.req, seen, step.load);
    CommitsItsPlan(w, s, step);
    CommitAppends(w, Current(s), seen, p.snapshot, ActionFields(w, step.req, seen, p.snapshot, p.newStatus, step.newId, step.rest));
  }

  /** Only a decision on an empty history finalizes, so what is written is lawful. */
  lemma WritesAreLawfulHere(w: World, seen: Db, step: Step)
    requires IsService(w) && DbOk(w.hash, seen) && Planned(w, step.req, seen, step.load).Write?
    ensures Lawful(step.req, step.load, Planned(w, step.req, seen, step.load).snapshot.declaredWinnerEntryIds, seen.pointer.None?)
  {
    var r := Computed(step.load.gate.result, w.nameKey);
    ServicePlansFit(w);
    assert Fits(Planned(w, step.req, seen, step.load), step.req, seen.pointer, PrevSnapshot(seen));
    HeadSeqCounts(w.hash, seen);
    if seen.actions != [] {
      assert ActionOk(w.hash, seen.actions, |seen.actions| - 1, seen.snapshots);
    }
    WritesAreLawful(w, step.req, seen.pointer, PrevSnapshot(seen), step.load, r);
  }

  lemma CommitIsLogged(w: World, s: State, step: Step)
    requires IsService(w) && Inv(w.hash, s) && Enabled(s, step) && EffectOf(w, s, step).outcome.Committed?
    ensures Logged(w, step, EffectOf(w, s, step).outcome.action, EffectOf(w, s, step).db.snapshots)
  {
    var seen := s.history[step.seen];
    CommitShape(w, s, step);
    WritesAreBuilt(w, step.req, seen.pointer, PrevSnapshot(seen), step.load, Computed(step.load.gate.result, w.nameKey));
    WritesAreLawfulHere(w, seen, step);
    ServicePlansFit(w);
    WritesFit(w, seen, step.req, step.load, step.rest, step.newId);
    HeadSeqCounts(w.hash, seen);
  }

  lemma HeadSeqCounts(hash: Doc -> Hash, db: Db)
    requires DbOk(hash, db)
    ensures HeadSeq(db.pointer) == |db.actions| && (db.pointer.None? <==> db.actions == [])
  {
    if db.actions != [] {
      assert ActionOk(hash, db.actions, |db.actions| - 1, db.snapshots);
    }
  }

  lemma LoggedExtends(w: World, step: Step, a: Action, cur: Db, next: Db)
    requires Logged(w, step, a, cur.snapshots) && Extends(cur, next)
    ensures Logged(w, step, a, next.snapshots)
  {
  }

  ghost predicate AllLogged(w: World, log: seq<Step>, db: Db) {
    |log| == |db.actions| && forall k | 0 <= k < |log| :: Logged(w, log[k], db.actions[k], db.snapshots)
  }

  lemma LogGrows(w: World, log: seq<Step>, step: Step, cur: Db, next: Db, a: Action)
    requires AllLogged(w, log, cur) && Extends(cur, next) && next.actions == cur.actions + [a]
    requires Logged(w, step, a, next.snapshots)
    ensures AllLogged(w, log + [step], next)
  {
    forall k | 0 <= k < |log| + 1 ensures Logged(w, (log + [step])[k], next.actions[k], next.snapshots) {
      if k < |log| {
        LoggedExtends(w, log[k], cur.actions[k], cur, next);
      }
    }
  }

  lemma StepKeepsLogOk(w: World, s: State, step: Step)
    requires IsService(w) && Inv(w.hash, s) && Enabled(s, step) && AllLogged(w, s.log, Current(s))
    ensures AllLogged(w, After(w, s, step).log, Current(After(w, s, step)))
  {
    var e := EffectOf(w, s, step);
    assert Current(After(w, s, step)) == e.db;
    if e.outcome.Committed? {
      ServicePlansFit(w);
      CommitShape(w, s, step);
      CommitIsLogged(w, s, step);
      EffectKeepsDbOk(w, s, step);
      LogGrows(w, s.log, step, Current(s), e.db, e.outcome.action);
    } else {
      OnlyCommitsWrite(w, s, step);
    }
  }

  // ---- runs ----

  const Start: State := State([Empty], [])

  ghost predicate IsRun(w: World, states: seq<State>, steps: seq<Step>) {
    && |states| == |steps| + 1
    && states[0] == Start
    && forall i {:trigger steps[i]} | 0 <= i < |steps| :: Enabled(states[i], steps[i]) && states[i + 1] == After(w, states[i], steps[i])
  }

  ghost predicate Reachable(w: World, s: State) {
    exists states, steps :: IsRun(w, states, steps) && s == states[|steps|]
  }

  lemma {:induction false} RunIsOk(w: World, states: seq<State>, steps: seq<Step>, i: nat)
    requires PlansFit(w) && IsRun(w, states, steps) && i < |states|
    ensures Inv(w.hash, states[i])
  {
    if i > 0 {
      RunIsOk(w, states, steps, i - 1);
      StepKeepsInv(w, states[i - 1], steps[i - 1]);
    }
  }

  /** Every database is well linked, and the log says what its decisions rest on. */
  ghost predicate Explained(w: World, s: State) {
    Inv(w.hash, s) && AllLogged(w, s.log, Current(s))
  }

  lemma StartIsExplained(w: World)
    ensures Explained(w, Start)
  {
  }

  lemma StepKeepsExplained(w: World, s: State, step: Step)
    requires IsService(w) && Enabled(s, step) && Explained(w, s)
    ensures Explained(w, After(w, s, step))
  {
    ServicePlansFit(w);
    StepKeepsInv(w, s, step);
    StepKeepsLogOk(w, s, step);
  }

  lemma {:induction false} RunIsExplained(w: World, states: seq<State>, steps: seq<Step>, i: nat)
    requires IsService(w) && IsRun(w, states, steps) && i < |states|
    ensures Explained(w, states[i])
  {
    if i > 0 {
      RunIsExplained(w, states, steps, i - 1);
      StepKeepsExplained(w, states[i - 1], steps[i - 1]);
    } else {
      StartIsExplained(w);
    }
  }

  /** What is stored in state i is still there in state j. */
  ghost predicate Kept(states: seq<State>, i: nat, j: nat) {
    && i < |states| && j < |states| && states[i].history != [] && states[j].history != []
    && Extends(Current(states[i]), Current(states[j]))
  }

  lemma KeptTransitive(states: seq<State>, i: nat, j: nat, k: nat)
    requires Kept(states, i, j) && Kept(states, j, k)
    ensures Kept(states, i, k)
  {
  }

  lemma RunStepExtends(w: World, states: seq<State>, steps: seq<Step>, i: nat)
    requires PlansFit(w) && IsRun(w, states, steps) && i < |steps|
    ensures Kept(states, i, i + 1)
  {
    RunIsOk(w, states, steps, i);
    EffectKeepsDbOk(w, states[i], steps[i]);
  }

  /** Nothing written is ever changed or removed, over any run. */
  lemma {:induction false} HistoryOnlyGrows(w: World, states: seq<State>, steps: seq<Step>, i: nat, j: nat)
    requires PlansFit(w) && IsRun(w, states, steps) && i <= j < |states|
    ensures Kept(states, i, j)
  {
    if i < j {
      HistoryOnlyGrows(w, states, steps, i, j - 1);
      RunStepExtends(w, states, steps, j - 1);
      KeptTransitive(states, i, j - 1, j);
    } else {
      RunIsOk(w, states, steps, i);
    }
  }

  lemma ReachableIsOk(w: World, s: State)
    requires PlansFit(w) && Reachable(w, s)
    ensures Inv(w.hash, s)
  {
    var states, steps :| IsRun(w, states, steps) && s == states[|steps|];
    RunIsOk(w, states, steps, |steps|);
  }

  lemma ReachableIsLogged(w: World, s: State)
    requires IsService(w) && Reachable(w, s)
    ensures Inv(w.hash, s) && AllLogged(w, s.log, Current(s))
  {
    var states, steps :| IsRun(w, states, steps) && s == states[|steps|];
    RunIsExplained(w, states, steps, |steps|);
  }

  /** One more transaction. */
  lemma ReachableStep(w: World, s: State, step: Step)
    requires Reachable(w, s) && Enabled(s, step)
    ensures Reachable(w, After(w, s, step))
  {
    var states, steps :| IsRun(w, states, steps) && s == states[|steps|];
    var longer, more := states + [After(w, s, step)], steps + [step];
    assert IsRun(w, longer, more) && longer[|more|] == After(w, s, step);
  }

  lemma StartIsReachable(w: World)
    ensures Reachable(w, Start)
  {
    var states, steps: seq<Step> := [Start], [];
    assert IsRun(w, states, steps) && states[|steps|] == Start;
  }

  // ---- what every reachable database looks like ----

  /** verifyChain accepts every database a transaction can read, so no decision is ever refused as CHAIN_INVALID. */
  lemma ChainAlwaysVerifies(w: World, s: State, step: Step)
    requires PlansFit(w) && Reachable(w, s) && Enabled(s, step)
    ensures Accepted(w.hash, s.history[step.seen])
    ensures EffectOf(w, s, step).outcome != Failed(CHAIN_INVALID)
  {
    ReachableIsOk(w, s);
    DbOkIsAccepted(w.hash, s.history[step.seen]);
    NeverChainInvalid(w, s, step);
  }

  /** The two histories hold the same actions and the same snapshots under them. */
  ghost predicate SameHistory(a: Db, b: Db) {
    && multiset(a.actions) == multiset(b.actions)
    && forall x | x in a.actions ::
         var id := x.body.fields.newSnapshotId; id in a.snapshots && id in b.snapshots && a.snapshots[id] == b.snapshots[id]
  }

  lemma IntactHistoriesAgree(hash: Doc -> Hash, a: Db, b: Db)
    requires HashChain.CollisionFree(hash) && Accepted(hash, a) && Accepted(hash, b)
    requires a.pointer.Some? && a.pointer == b.pointer
    ensures SameHistory(a, b)
  {
    CitedChain(hash, a);
    CitedChain(hash, b);
    AcceptedChainsAreIdentical(hash, a.actions, b.actions, Cited(a), Cited(b), a.pointer.value);
    forall x | x in a.actions
      ensures var id := x.body.fields.newSnapshotId; id in a.snapshots && id in b.snapshots && a.snapshots[id] == b.snapshots[id]
    {
      CitesStored(hash, a, x);
      CitesStored(hash, b, x);
    }
  }

  lemma CitesStored(hash: Doc -> Hash, db: Db, x: Action)
    requires Accepted(hash, db) && x in db.actions
    ensures var id := x.body.fields.newSnapshotId; id in db.snapshots && id in Cited(db) && Cited(db)[id] == db.snapshots[id]
  {
    var sorted := SortByKey(db.actions, SeqOf());
    SortByKeySorts(db.actions, SeqOf());
    SameMembers(sorted, db.actions);
    var i :| 0 <= i < |sorted| && sorted[i] == x;
    assert StoredLinkOk(hash, sorted, i, db.snapshots);
  }

  /**
   Tampering blocks decisions: when any action or any cited snapshot of an intact history has been added,
   removed or altered, no request changes the database any more, whatever it asks for. And without the
   lease none does.
   */
  lemma TamperingBlocksDecisions(w: World, db: Db, tampered: Db, cur: Db, req: Request, load: Loaded, newId: SnapshotId, rest: string)
    requires HashChain.CollisionFree(w.hash) && Accepted(w.hash, db)
    requires db.pointer.Some? && tampered.pointer == db.pointer && !SameHistory(db, tampered)
    ensures T4(w, tampered, cur, req, true, load, newId, rest) == Effect(cur, Failed(CHAIN_INVALID))
    ensures forall seen :: T4(w, seen, cur, req, false, load, newId, rest) == Effect(cur, Failed(LOCK_LOST))
  {
    if Accepted(w.hash, tampered) {
      IntactHistoriesAgree(w.hash, db, tampered);
    }
  }

  /**
   The decision log of every reachable database: numbered 1..n without gaps, each action starting from
   what the previous one left, FINALIZE only first, RECOMPUTE never first.
   */
  lemma ChainIsLinear(w: World, s: State)
    requires PlansFit(w) && Reachable(w, s)
    ensures s.history != []
    ensures var actions := Current(s).actions;
      && (forall k | 0 <= k < |actions| :: actions[k].body.seqNo == k + 1)
      && (forall k | 0 < k < |actions| :: Continues(actions[k - 1], actions[k]))
      && (actions != [] ==> BeginsChain(actions[0]))
  {
    ReachableIsOk(w, s);
    OkIsLinear(w.hash, Current(s));
  }

  lemma OkIsLinear(hash: Doc -> Hash, db: Db)
    requires DbOk(hash, db)
    ensures forall k | 0 <= k < |db.actions| :: db.actions[k].body.seqNo == k + 1
    ensures forall k | 0 < k < |db.actions| :: Continues(db.actions[k - 1], db.actions[k])
    ensures db.actions != [] ==> BeginsChain(db.actions[0])
  {
    forall k | 0 <= k < |db.actions| ensures db.actions[k].body.seqNo == k + 1 {
      assert ActionOk(hash, db.actions, k, db.snapshots);
    }
    forall k | 0 < k < |db.actions| ensures Continues(db.actions[k - 1], db.actions[k]) {
      ActionContinues(hash, db.actions, k, db.snapshots);
    }
    if db.actions != [] {
      ActionContinues(hash, db.actions, 0, db.snapshots);
    }
  }

  /** FINAL says exactly that the current snapshot is rule based and declares what the rules computed. */
  lemma FinalMeansRuleBased(w: World, s: State)
    requires PlansFit(w) && Reachable(w, s) && s.history != [] && Current(s).pointer.Some?
    ensures Current(s).pointer.value.headSeq == |Current(s).actions|
    ensures Current(s).pointer.value.currentSnapshotId in Current(s).snapshots
    ensures var current := Current(s).snapshots[Current(s).pointer.value.currentSnapshotId].content;
      Current(s).pointer.value.status == FINAL <==>
        current.kind == Snapshots.RULE_BASED && current.declaredWinnerEntryIds == current.computedWinnerEntryIds
    ensures Current(s).pointer.value.status != FINAL <==> Current(s).pointer.value.status == OVERRIDDEN
  {
    ReachableIsOk(w, s);
    OkFinal(w.hash, Current(s));
  }

  lemma OkFinal(hash: Doc -> Hash, db: Db)
    requires DbOk(hash, db) && db.pointer.Some?
    ensures db.pointer.value.headSeq == |db.actions|
    ensures db.pointer.value.currentSnapshotId in db.snapshots
    ensures var current := db.snapshots[db.pointer.value.currentSnapshotId].content;
      db.pointer.value.status == FINAL <==>
        current.kind == Snapshots.RULE_BASED && current.declaredWinnerEntryIds == current.computedWinnerEntryIds
    ensures db.pointer.value.status != FINAL <==> db.pointer.value.status == OVERRIDDEN
  {
    assert ActionOk(hash, db.actions, |db.actions| - 1, db.snapshots);
  }

  /**
   Lost races: a transaction that has a decision to write commits exactly when no other decision was
   committed since it read; otherwise it fails as a concurrent decision. The lease is not needed.
   */
  lemma CommitsIffHeadUnmoved(w: World, s: State, step: Step)
    requires PlansFit(w) && Reachable(w, s) && Enabled(s, step) && step.fenced
    requires Planned(w, step.req, s.history[step.seen], step.load).Write?
    ensures var seen, e := s.history[step.seen], EffectOf(w, s, step);
      && (e.outcome.Committed? <==> seen.actions == Current(s).actions)
      && (!e.outcome.Committed? ==> e == Effect(Current(s), Failed(Repo(CONCURRENT_DECISION))))
  {
    ReachableIsOk(w, s);
    var seen := s.history[step.seen];
    DbOkIsAccepted(w.hash, seen);
    var plan := Planned(w, step.req, seen, step.load);
    GuardsMeanCurrent(w, seen, Current(s), plan.snapshot, ActionFields(w, step.req, seen, plan.snapshot, plan.newStatus, step.newId, step.rest));
  }

  // ---- finalize safety and reproducibility ----

  /**
   What a FINALIZE in a reachable history rests on: it is the first action; its request named a run of status
   SUCCESS; the gate held, for that run, of what the transaction loaded; and it declared the computed
   winners, at least one. Finalization says what loads and statuses are.
   */
  lemma FinalizeIsGated(w: World, s: State, k: nat)
    requires IsService(w) && Reachable(w, s) && s.history != []
    requires k < |Current(s).actions| && Current(s).actions[k].body.fields.action == FINALIZE
    ensures k == 0 && |s.log| > 0 && s.log[0].req.Finalize?
    ensures var step := s.log[0];
      && step.req.runStatus == SUCCESS
      && GateHolds(step.load.gate, None, Some(step.req.runId), step.load.season)
    ensures Current(s).actions[0].body.fields.newWinners == Computed(s.log[0].load.gate.result, w.nameKey).outcome.winners != []
  {
    ReachableIsLogged(w, s);
    var db, step := Current(s), s.log[k];
    assert ActionOk(w.hash, db.actions, k, db.snapshots);
    assert Logged(w, step, db.actions[k], db.snapshots);
    AllowedGateHasWinners(step.load.gate, None, Some(step.req.runId), step.load.season, w.nameKey);
  }

  /**
   What every decision of a reachable chain rests on: an active group, DATA_CHECKED unless it overrides an
   earlier decision; an override declares the sorted ids it was given, all of them members; a recompute
   that changes the winners carries a note. The action keeps the kind and the note of its request.
   */
  lemma DecisionsAreLawful(w: World, s: State, k: nat)
    requires IsService(w) && Reachable(w, s) && s.history != [] && k < |Current(s).actions|
    ensures |s.log| == |Current(s).actions|
    ensures var f, step := Current(s).actions[k].body.fields, s.log[k];
      && RecordsRequest(f, step)
      && step.load.gate.groupActive
      && (k == 0 || f.action != ActionKind.OVERRIDE ==> step.load.gate.result.eventState == Some(DATA_CHECKED))
      && (f.action == ActionKind.OVERRIDE ==>
            && step.req.Override? && NoRepeats(step.req.winners) && f.newWinners == SortedIds(step.req.winners)
            && forall id | id in step.req.winners :: IsMember(step.load.gate.result.members, id))
      && (f.action == RECOMPUTE && f.newWinners != SortedIds(f.prevWinners) ==> f.note.Some? && f.note.value != "")
  {
    ReachableIsLogged(w, s);
    LoggedIsLawful(w, s.log, Current(s), k);
  }

  lemma LoggedIsLawful(w: World, log: seq<Step>, db: Db, k: nat)
    requires DbOk(w.hash, db) && AllLogged(w, log, db) && k < |log|
    ensures var f := db.actions[k].body.fields;
      && RecordsRequest(f, log[k])
      && log[k].load.gate.groupActive
      && (k == 0 || f.action != ActionKind.OVERRIDE ==> log[k].load.gate.result.eventState == Some(DATA_CHECKED))
      && (f.action == ActionKind.OVERRIDE ==>
            && log[k].req.Override? && NoRepeats(log[k].req.winners) && f.newWinners == SortedIds(log[k].req.winners)
            && forall id | id in log[k].req.winners :: IsMember(log[k].load.gate.result.members, id))
      && (f.action == RECOMPUTE && f.newWinners != SortedIds(f.prevWinners) ==> f.note.Some? && f.note.value != "")
  {
    assert ActionOk(w.hash, db.actions, k, db.snapshots);
    assert Logged(w, log[k], db.actions[k], db.snapshots);
  }

  /** Every snapshot a reachable action cites recomputes to itself. */
  lemma EverySnapshotReproduces(w: World, s: State, k: nat)
    requires IsService(w) && Reachable(w, s) && s.history != [] && k < |Current(s).actions|
    ensures var db := Current(s);
      var id := db.actions[k].body.fields.newSnapshotId;
      && id in db.snapshots
      && WellFormedInput(Snapshots.StoredInput(db.snapshots[id].content))
      && Snapshots.Reproduces(db.snapshots[id].content, w.nameKey, InputsHash(w))
  {
    ReachableIsLogged(w, s);
    var db, step := Current(s), s.log[k];
    assert Logged(w, step, db.actions[k], db.snapshots);
    var content := db.snapshots[db.actions[k].body.fields.newSnapshotId].content;
    Snapshots.SnapshotReproduces(step.load.gate.result, w.nameKey, content.kind, content.declaredWinnerEntryIds, InputsHash(w), step.load.rest);
  }

  // ---- repeated finalizes ----

  /** The snapshot behind a FINAL head, compared with what `load` brings now. */
  lemma ReplaysIffSameInputs(w: World, db: Db, last: Loaded, load: Loaded)
    requires DbOk(w.hash, db) && db.pointer.Some?
    requires PrevSnapshot(db).Some? && BuiltFrom(w, PrevSnapshot(db).value, last) && WellFormedLoad(load)
    ensures db.pointer.value.status == FINAL && CanonicalInputs(load.gate.result) == CanonicalInputs(last.gate.result) ==>
      Replays(w, db.pointer, PrevSnapshot(db), Computed(load.gate.result, w.nameKey))
    ensures Snapshots.CollisionFree(InputsHash(w)) && Replays(w, db.pointer, PrevSnapshot(db), Computed(load.gate.result, w.nameKey)) ==>
      db.pointer.value.status == FINAL && CanonicalInputs(load.gate.result) == CanonicalInputs(last.gate.result)
  {
    assert ActionOk(w.hash, db.actions, |db.actions| - 1, db.snapshots);
    var mine, stored := CanonicalInputs(load.gate.result), CanonicalInputs(last.gate.result);
    if mine == stored {
      SameInputsSameDecision(load.gate.result, last.gate.result, w.nameKey);
    }
    BuiltHash(w, PrevSnapshot(db).value, last);
    Encoding.FormsAreInjective(mine, [], stored, []);
  }

  lemma BuiltHash(w: World, content: Snapshot, load: Loaded)
    requires BuiltFrom(w, content, load)
    ensures content.inputsHash == InputsHash(w)(Encoding.InputsForm(CanonicalInputs(load.gate.result)))
    ensures content.computedWinnerEntryIds == Computed(load.gate.result, w.nameKey).outcome.winners
  {
  }

  /** The head is FINAL and its decision was taken on the engine inputs that `load` brings again. */
  ghost predicate RestsOn(log: seq<Step>, db: Db, load: Loaded) {
    && log != []
    && db.pointer.Some? && db.pointer.value.status == FINAL
    && CanonicalInputs(load.gate.result) == CanonicalInputs(log[|log| - 1].load.gate.result)
  }

  ghost predicate IsRepeat(w: World, db: Db, load: Loaded) {
    Replays(w, db.pointer, PrevSnapshot(db), Computed(load.gate.result, w.nameKey))
  }

  lemma EmptyIsNoRepeat(w: World, db: Db, load: Loaded)
    requires DbOk(w.hash, db) && db.actions == []
    ensures !IsRepeat(w, db, load)
  {
  }

  lemma RestsOnIffRepeat(w: World, log: seq<Step>, db: Db, load: Loaded)
    requires DbOk(w.hash, db) && AllLogged(w, log, db) && WellFormedLoad(load)
    ensures RestsOn(log, db, load) ==> IsRepeat(w, db, load)
    ensures Snapshots.CollisionFree(InputsHash(w)) && IsRepeat(w, db, load) ==> RestsOn(log, db, load)
  {
    if log == [] {
      EmptyIsNoRepeat(w, db, load);
    } else {
      var k := |log| - 1;
      assert ActionOk(w.hash, db.actions, k, db.snapshots);
      assert Logged(w, log[k], db.actions[k], db.snapshots);
      ReplaysIffSameInputs(w, db, log[k].load, load);
    }
  }

  lemma FinalizeReplaysIff(w: World, runId: RunId, runStatus: Status, head: Option<Pointer>, prev: Option<Snapshot>, load: Loaded, r: GwResult)
    ensures FinalizePlan(w, runId, runStatus, head, prev, load, r).Replay? <==> Replays(w, head, prev, r)
  {
  }

  lemma ReplayedIffPlanned(w: World, s: State, step: Step)
    requires Enabled(s, step) && step.fenced && Accepted(w.hash, s.history[step.seen])
    ensures EffectOf(w, s, step).outcome == Replayed <==> Planned(w, step.req, s.history[step.seen], step.load).Replay?
    ensures EffectOf(w, s, step).outcome == Replayed ==> EffectOf(w, s, step) == Effect(Current(s), Replayed)
  {
  }

  /** A finalize answers with a replay exactly when it finds its decision made. */
  lemma ReplayedIffRepeat(w: World, s: State, step: Step)
    requires IsService(w) && Enabled(s, step) && step.fenced && step.req.Finalize? && Accepted(w.hash, s.history[step.seen])
    ensures EffectOf(w, s, step).outcome == Replayed <==> IsRepeat(w, s.history[step.seen], step.load)
  {
    var seen := s.history[step.seen];
    ReplayedIffPlanned(w, s, step);
    PlannedIsPlan(w, step.req, seen, step.load);
    FinalizeReplaysIff(w, step.req.runId, step.req.runStatus, seen.pointer, PrevSnapshot(seen), step.load, Computed(step.load.gate.result, w.nameKey));
  }

  ghost predicate IsReplayed(w: World, s: State, step: Step)
    requires Enabled(s, step)
  {
    EffectOf(w, s, step) == Effect(Current(s), Replayed)
  }

  lemma RepeatOfAccepted(w: World, s: State, step: Step)
    requires IsService(w) && Enabled(s, step) && step.fenced && step.req.Finalize? && Accepted(w.hash, s.history[step.seen])
    ensures IsReplayed(w, s, step) <==> IsRepeat(w, s.history[step.seen], step.load)
  {
    ReplayedIffRepeat(w, s, step);
    ReplayedIffPlanned(w, s, step);
  }

  lemma CurrentIsLogged(w: World, s: State)
    requires IsService(w) && Reachable(w, s)
    ensures s.history != [] && DbOk(w.hash, Current(s)) && Accepted(w.hash, Current(s)) && AllLogged(w, s.log, Current(s))
  {
    ReachableIsLogged(w, s);
    DbOkIsAccepted(w.hash, Current(s));
  }

  /**
   A finalize that reads the current database of any reachable state replays the decision and writes
   nothing, when a FINAL decision on the same engine inputs stands; under a hash without collisions of
   canonical texts, only then.
   */
  lemma RepeatedFinalizeReplays(w: World, s: State, step: Step)
    requires IsService(w) && Reachable(w, s) && Enabled(s, step) && step.seen == |s.history| - 1
    requires step.fenced && step.req.Finalize?
    ensures RestsOn(s.log, Current(s), step.load) ==> IsReplayed(w, s, step)
    ensures Snapshots.CollisionFree(InputsHash(w)) && IsReplayed(w, s, step) ==> RestsOn(s.log, Current(s), step.load)
  {
    CurrentIsLogged(w, s);
    RestsOnIffRepeat(w, s.log, Current(s), step.load);
    RepeatOfAccepted(w, s, step);
  }

  /**
   Only FINALIZE guarantees a winner: a recompute commits FINAL with no winners exactly when nobody is
   eligible any more.
   */
  lemma RecomputeWinners(w: World, note: Option<string>, head: Option<Pointer>, prev: Option<Snapshot>, load: Loaded)
    requires WellFormedLoad(load) && RecomputePlan(w, note, head, prev, load, Computed(load.gate.result, w.nameKey)).Write?
    ensures RecomputePlan(w, note, head, prev, load, Computed(load.gate.result, w.nameKey)).newStatus == FINAL
    ensures RecomputePlan(w, note, head, prev, load, Computed(load.gate.result, w.nameKey)).snapshot.declaredWinnerEntryIds == [] <==> GateEligible(load.gate) == []
  {
    SameIndex(load.gate.result.gwRows, load.gate.result.event);
    WinnersExistIff(load.gate.result);
  }

  // ---- services exist, and finalize ----

  /** Every hash and collation has its service. */
  lemma ServiceExists(hash: Doc -> Hash, nameKey: string -> real) returns (w: World)
    ensures IsService(w) && w.hash == hash && w.nameKey == nameKey
  {
    var none := World(hash, nameKey, (req, head, prev, load) => Replay);
    w := World(hash, nameKey, (req: Request, head: Option<Pointer>, prev: Option<Snapshot>, load: Loaded) =>
      PlanOf(none, req, head, prev, load, Computed(load.gate.result, nameKey)));
    forall req, head, prev, load
      ensures w.plan(req, head, prev, load) == PlanOf(w, req, head, prev, load, Computed(load.gate.result, w.nameKey))
    {
      SamePlan(none, w, req, head, prev, load, Computed(load.gate.result, nameKey));
    }
  }

  /** A plan looks at nothing of the deployment but its hash. */
  lemma SamePlan(v: World, w: World, req: Request, head: Option<Pointer>, prev: Option<Snapshot>, load: Loaded, r: GwResult)
    requires v.hash == w.hash
    ensures PlanOf(v, req, head, prev, load, r) == PlanOf(w, req, head, prev, load, r)
  {
    match req
    case Finalize(runId, runStatus) => SameFinalize(v, w, runId, runStatus, head, prev, load, r);
    case Override(winners, _) => SameOverride(v, w, winners, head, load, r);
    case Recompute(note) => SameRecompute(v, w, note, head, prev, load, r);
  }

  lemma SameOverride(v: World, w: World, winners: seq<int>, head: Option<Pointer>, load: Loaded, r: GwResult)
    requires v.hash == w.hash
    ensures OverridePlan(v, winners, head, load, r) == OverridePlan(w, winners, head, load, r)
  {
    SameBuild(v, w, load, r, Snapshots.OVERRIDE, SortedIds(winners));
  }

  lemma SameRecompute(v: World, w: World, note: Option<string>, head: Option<Pointer>, prev: Option<Snapshot>, load: Loaded, r: GwResult)
    requires v.hash == w.hash
    ensures RecomputePlan(v, note, head, prev, load, r) == RecomputePlan(w, note, head, prev, load, r)
  {
    SameBuild(v, w, load, r, Snapshots.RULE_BASED, r.outcome.winners);
  }

  lemma SameFinalize(v: World, w: World, runId: RunId, runStatus: Status, head: Option<Pointer>, prev: Option<Snapshot>, load: Loaded, r: GwResult)
    requires v.hash == w.hash
    ensures FinalizePlan(v, runId, runStatus, head, prev, load, r) == FinalizePlan(w, runId, runStatus, head, prev, load, r)
  {
    assert InputsHash(v)(Encoding.InputsForm(r.inputs)) == InputsHash(w)(Encoding.InputsForm(r.inputs));
    SameBuild(v, w, load, r, Snapshots.RULE_BASED, r.outcome.winners);
  }

  lemma SameBuild(v: World, w: World, load: Loaded, r: GwResult, kind: Snapshots.Kind, declared: seq<int>)
    requires v.hash == w.hash
    ensures Build(v, load, r, kind, declared) == Build(w, load, r, kind, declared)
  {
  }

  lemma FirstFinalizeWrites(w: World, runId: RunId, load: Loaded, r: GwResult)
    requires GateHolds(load.gate, None, Some(runId), load.season)
    ensures FinalizePlan(w, runId, SUCCESS, None, None, load, r).Write?
  {
  }

  /** A write planned on the empty database commits. */
  lemma FirstWriteCommits(w: World, step: Step)
    requires Enabled(Start, step) && step.fenced && step.seen == 0 && Planned(w, step.req, Empty, step.load).Write?
    ensures EffectOf(w, Start, step).outcome.Committed?
  {
    var p := Planned(w, step.req, Empty, step.load);
    GuardsMeanCurrent(w, Empty, Empty, p.snapshot, ActionFields(w, step.req, Empty, p.snapshot, p.newStatus, step.newId, step.rest));
  }

  lemma FirstFinalizeCommits(w: World, step: Step)
    requires IsService(w) && Enabled(Start, step) && step.fenced && step.req.Finalize? && step.req.runStatus == SUCCESS && step.seen == 0
    requires GateHolds(step.load.gate, None, Some(step.req.runId), step.load.season)
    ensures EffectOf(w, Start, step).outcome.Committed?
  {
    PlannedIsPlan(w, step.req, Empty, step.load);
    FirstFinalizeWrites(w, step.req.runId, step.load, Computed(step.load.gate.result, w.nameKey));
    FirstWriteCommits(w, step);
  }
}
