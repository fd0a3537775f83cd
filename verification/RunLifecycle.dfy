/**
 runJob, withGroupLease and shutdown (server/src/sync/syncService.js, lines 96-211) as a transition
 system over the jobs of one lock. A job holds one lease; a `logged` job is runJob's and has a run row,
 the others are withGroupLease's. A program counter stops at every await, so jobs, stale or not, and the
 shutdown of any process interleave freely.
 */
module RunLifecycle {
  import opened SyncRuns

  type Proc = nat

  datatype Pc =
    | Waiting                     // the server granted the lease, the process has not resumed
    | Sweeping                    // in `active`; markAbandoned is next
    | Inserting                   // insert of the RUNNING row is next
    | Inserted                    // the row is stored, the process has not resumed
    | Working                     // the body, or fn, runs
    | Finishing(status: Status)   // finish(status) is next
    | Rereading(status: Status)   // finish moved nothing; get is next
    | Deciding(status: Status)    // `after` runs on the finished run of this status, lease still held
    | Releasing                   // release is next
    | Done

  datatype Job = Job(proc: Proc, token: nat, logged: bool, pc: Pc)

  /** `newest` is the newest token granted; `released` is a history. */
  datatype State = State(
    closing: set<Proc>,
    runs: Runs,
    jobs: map<RunId, Job>,
    newest: nat,
    released: set<RunId>)

  datatype Step =
    | Grant(id: RunId, proc: Proc, token: nat, logged: bool)
    | Resume(id: RunId)
    | Sweep(id: RunId)
    | Insert(id: RunId)
    | Begin(id: RunId)
    | End(id: RunId, status: Status)
    | Finish(id: RunId)
    | Reread(id: RunId)
    | Decide(id: RunId)
    | Return(id: RunId)           // fn of withGroupLease returns or throws
    | Throw(id: RunId)            // the pending statement fails
    | Release(id: RunId)
    | Shutdown(proc: Proc)
    | ShutdownMark(id: RunId)
    | ShutdownRelease(id: RunId)

  predicate At(s: State, id: RunId, pc: Pc) {
    id in s.jobs && s.jobs[id].pc == pc
  }

  predicate Closing(s: State, id: RunId) {
    id in s.jobs && s.jobs[id].proc in s.closing
  }

  /** A job is in its process's `active` map from its first resumption until it is done. */
  predicate Active(s: State, id: RunId) {
    id in s.jobs && s.jobs[id].pc != Waiting && s.jobs[id].pc != Done
  }

  predicate Failing(pc: Pc) {
    pc == Sweeping || pc == Inserting || pc.Finishing? || pc.Rereading?
  }

  predicate Enabled(s: State, step: Step) {
    match step
    case Grant(id, _, token, _) => id !in s.jobs && id !in s.runs && token > s.newest
    case Resume(id) => At(s, id, Waiting)
    case Sweep(id) => At(s, id, Sweeping)
    case Insert(id) => At(s, id, Inserting)
    case Begin(id) => At(s, id, Inserted)
    case End(id, status) => At(s, id, Working) && s.jobs[id].logged && Final(status)
    case Finish(id) => id in s.jobs && s.jobs[id].pc.Finishing?
    case Reread(id) => id in s.jobs && s.jobs[id].pc.Rereading?
    case Decide(id) => id in s.jobs && s.jobs[id].pc.Deciding?
    case Return(id) => At(s, id, Working) && !s.jobs[id].logged
    case Throw(id) => id in s.jobs && Failing(s.jobs[id].pc)
    case Release(id) => At(s, id, Releasing)
    case Shutdown(_) => true
    case ShutdownMark(id) => Closing(s, id) && Active(s, id) && s.jobs[id].logged
    case ShutdownRelease(id) => Closing(s, id) && Active(s, id)
  }

  function Moved(s: State, id: RunId, pc: Pc): map<RunId, Job>
    requires id in s.jobs
  {
    s.jobs[id := s.jobs[id].(pc := pc)]
  }

  /** `(await syncRunRepo.get(runId))?.status ?? status` */
  function StoredStatus(runs: Runs, id: RunId, status: Status): Status {
    if id in runs then runs[id].status else status
  }

  predicate IsRunning(s: State, id: RunId) {
    id in s.runs && s.runs[id].status == RUNNING
  }

  function After(s: State, step: Step): State
    requires Enabled(s, step)
  {
    match step
    case Grant(id, proc, token, logged) => s.(jobs := s.jobs[id := Job(proc, token, logged, Waiting)], newest := token)
    case Resume(id) =>
      s.(jobs := Moved(s, id, if Closing(s, id) then Releasing else if s.jobs[id].logged then Sweeping else Working))
    case Sweep(id) => s.(jobs := Moved(s, id, Inserting), runs := Abandoned(s.runs, s.jobs[id].token))
    case Insert(id) => s.(jobs := Moved(s, id, Inserted), runs := s.runs[id := Run(s.jobs[id].token, RUNNING)])
    case Begin(id) => s.(jobs := Moved(s, id, if Closing(s, id) then Finishing(FAILED) else Working))
    case End(id, status) => s.(jobs := Moved(s, id, Finishing(status)))
    case Finish(id) =>
      var status := s.jobs[id].pc.status;
      s.(jobs := Moved(s, id, if IsRunning(s, id) then Deciding(status) else Rereading(status)), runs := Finished(s.runs, id, status))
    case Reread(id) => s.(jobs := Moved(s, id, Deciding(StoredStatus(s.runs, id, s.jobs[id].pc.status))))
    case Decide(id) => s.(jobs := Moved(s, id, Releasing))
    case Return(id) => s.(jobs := Moved(s, id, Releasing))
    case Throw(id) => s.(jobs := Moved(s, id, Releasing))
    case Release(id) => s.(jobs := Moved(s, id, Done), released := s.released + {id})
    case Shutdown(proc) => s.(closing := s.closing + {proc})
    case ShutdownMark(id) => s.(runs := Abandoned(s.runs, s.jobs[id].token + 1))
    case ShutdownRelease(id) => s.(released := s.released + {id})
  }

  const Start: State := State({}, map[], map[], 0, {})

  // ---- the invariant ----

  predicate BeforeInsert(pc: Pc) {
    pc == Waiting || pc == Sweeping || pc == Inserting
  }

  /** What a job's program counter says of its row. */
  predicate JobOk(s: State, id: RunId)
    requires id in s.jobs
  {
    var job := s.jobs[id];
    && job.token <= s.newest
    && (job.logged || job.pc == Waiting || job.pc == Working || job.pc == Releasing || job.pc == Done)
    && (id in s.runs ==> job.logged && !BeforeInsert(job.pc) && s.runs[id].token == job.token)
    && (job.pc == Inserted || job.pc.Finishing? || (job.pc == Working && job.logged) ==> id in s.runs)
    && (job.pc.Finishing? ==> Final(job.pc.status))
    && (job.pc.Rereading? ==> id in s.runs && !IsRunning(s, id))
    && (job.pc.Deciding? ==> id in s.runs && s.runs[id].status == job.pc.status != RUNNING)
    && (job.pc == Done ==> id in s.released)
  }

  ghost predicate Inv(s: State) {
    && (forall id | id in s.runs :: id in s.jobs)
    && (forall id | id in s.jobs :: JobOk(s, id))
    && (forall a, b | a in s.jobs && b in s.jobs && a != b :: s.jobs[a].token != s.jobs[b].token)
  }

  lemma JobStaysOk(s: State, step: Step, id: RunId)
    requires Inv(s) && Enabled(s, step) && id in After(s, step).jobs
    ensures JobOk(After(s, step), id)
  {
    if id in s.jobs {
      assert JobOk(s, id);
      if OwnStep(step, id) {
        OwnStepKeepsJobOk(s, step, id);
      } else {
        OtherStepKeepsJobOk(s, step, id);
      }
    }
  }

  lemma OwnStepKeepsJobOk(s: State, step: Step, id: RunId)
    requires Enabled(s, step) && id in s.jobs && JobOk(s, id) && OwnStep(step, id)
    ensures JobOk(After(s, step), id)
  {
  }

  lemma OtherStepKeepsJobOk(s: State, step: Step, id: RunId)
    requires Inv(s) && Enabled(s, step) && id in s.jobs && JobOk(s, id) && !OwnStep(step, id)
    ensures JobOk(After(s, step), id)
  {
    match step
    case Finish(other) => assert JobOk(s, other);
    case Sweep(other) =>
    case ShutdownMark(other) =>
    case Insert(other) => assert JobOk(s, other);
    case _ =>
  }

  lemma StepKeepsInv(s: State, step: Step)
    requires Inv(s) && Enabled(s, step)
    ensures Inv(After(s, step))
  {
    forall id | id in After(s, step).jobs ensures JobOk(After(s, step), id) {
      JobStaysOk(s, step, id);
    }
    forall a, b | a in After(s, step).jobs && b in After(s, step).jobs && a != b
      ensures After(s, step).jobs[a].token != After(s, step).jobs[b].token
    {
      assert (a in s.jobs ==> JobOk(s, a)) && (b in s.jobs ==> JobOk(s, b));
    }
  }

  lemma StepKeepsFinalStatus(s: State, step: Step, id: RunId)
    requires Inv(s) && Enabled(s, step) && id in s.runs && s.runs[id].status != RUNNING
    ensures id in After(s, step).runs && After(s, step).runs[id] == s.runs[id]
  {
    assert JobOk(s, id);
  }

  // ---- runs of the system ----

  /** A path: any interleaving of enabled steps, from any state. */
  ghost predicate IsPath(states: seq<State>, steps: seq<Step>) {
    && |states| == |steps| + 1
    && forall i {:trigger steps[i]} | 0 <= i < |steps| :: Enabled(states[i], steps[i]) && states[i + 1] == After(states[i], steps[i])
  }

  ghost predicate IsRun(states: seq<State>, steps: seq<Step>) {
    IsPath(states, steps) && states[0] == Start
  }

  lemma {:induction false} PathKeepsInv(states: seq<State>, steps: seq<Step>, i: nat)
    requires IsPath(states, steps) && Inv(states[0]) && i < |states|
    ensures Inv(states[i])
  {
    if i > 0 {
      PathKeepsInv(states, steps, i - 1);
      StepKeepsInv(states[i - 1], steps[i - 1]);
    }
  }

  lemma RunKeepsInv(states: seq<State>, steps: seq<Step>, i: nat)
    requires IsRun(states, steps) && i < |states|
    ensures Inv(states[i])
  {
    PathKeepsInv(states, steps, i);
  }

  /** SUCCESS, PARTIAL, FAILED and ABANDONED are final, over every interleaving. */
  lemma {:induction false} StatusIsFinal(states: seq<State>, steps: seq<Step>, i: nat, j: nat, id: RunId)
    requires IsRun(states, steps) && i <= j < |states|
    requires id in states[i].runs && states[i].runs[id].status != RUNNING
    ensures id in states[j].runs && states[j].runs[id] == states[i].runs[id]
  {
    if i < j {
      StatusIsFinal(states, steps, i, j - 1, id);
      RunKeepsInv(states, steps, j - 1);
      StepKeepsFinalStatus(states[j - 1], steps[j - 1], id);
    }
  }

  /** The status `after` is given is the stored one, and it is stored for good. */
  lemma DecidesOnStoredStatus(states: seq<State>, steps: seq<Step>, i: nat, j: nat, id: RunId, status: Status)
    requires IsRun(states, steps) && i <= j < |states| && At(states[i], id, Deciding(status))
    ensures status != RUNNING && id in states[j].runs && states[j].runs[id].status == status
  {
    RunKeepsInv(states, steps, i);
    assert JobOk(states[i], id);
    StatusIsFinal(states, steps, i, j, id);
  }

  /** A run that is RUNNING when shutdown marks its lease is ABANDONED from then on. */
  lemma MarkedStaysAbandoned(states: seq<State>, steps: seq<Step>, i: nat, j: nat, id: RunId)
    requires IsRun(states, steps) && i < j < |states| && i < |steps|
    requires steps[i] == ShutdownMark(id) && IsRunning(states[i], id)
    ensures id in states[j].runs && states[j].runs[id].status == ABANDONED
  {
    RunKeepsInv(states, steps, i);
    assert JobOk(states[i], id);
    StatusIsFinal(states, steps, i + 1, j, id);
  }

  // ---- what can still succeed once a process is closing ----

  /** The process is closing and the job has not begun its body, or has been failed for it. */
  predicate Doomed(s: State, id: RunId) {
    && Closing(s, id)
    && (var pc := s.jobs[id].pc; pc != Working && (pc.Finishing? ==> pc.status == FAILED))
    && (id in s.runs ==> s.runs[id].status != SUCCESS)
  }

  lemma DoomedStays(s: State, step: Step, id: RunId)
    requires Inv(s) && Enabled(s, step) && Doomed(s, id)
    ensures Doomed(After(s, step), id)
  {
    assert JobOk(s, id);
  }

  /**
   A job that had not begun its body when its process started closing never ends SUCCESS; in particular no
   run inserted after that point does.
   */
  lemma {:induction false} NotBegunNeverSucceeds(states: seq<State>, steps: seq<Step>, i: nat, j: nat, id: RunId)
    requires IsRun(states, steps) && i <= j < |states|
    requires Closing(states[i], id) && (BeforeInsert(states[i].jobs[id].pc) || At(states[i], id, Inserted))
    requires id in states[i].runs ==> states[i].runs[id].status != SUCCESS
    ensures Doomed(states[j], id)
  {
    if i < j {
      NotBegunNeverSucceeds(states, steps, i, j - 1, id);
      RunKeepsInv(states, steps, j - 1);
      DoomedStays(states[j - 1], steps[j - 1], id);
    }
  }

  /** The run is SUCCESS already, or RUNNING with a body that still runs or has already ended well. */
  predicate MaySucceed(s: State, id: RunId) {
    && id in s.runs && id in s.jobs
    && (s.runs[id].status == SUCCESS
        || (s.runs[id].status == RUNNING && (s.jobs[id].pc == Working || s.jobs[id].pc == Finishing(SUCCESS))))
  }

  lemma NeverAgain(s: State, step: Step, id: RunId)
    requires Inv(s) && Enabled(s, step) && Closing(s, id) && id in s.runs && !MaySucceed(s, id)
    ensures Closing(After(s, step), id) && id in After(s, step).runs && !MaySucceed(After(s, step), id)
  {
    assert JobOk(s, id);
  }

  lemma {:induction false} NeverSucceeds(states: seq<State>, steps: seq<Step>, i: nat, id: RunId)
    requires IsPath(states, steps) && Inv(states[0]) && i < |states|
    requires Closing(states[0], id) && id in states[0].runs && !MaySucceed(states[0], id)
    ensures Closing(states[i], id) && id in states[i].runs && !MaySucceed(states[i], id)
    ensures states[i].runs[id].status != SUCCESS
  {
    PathKeepsInv(states, steps, i);
    assert JobOk(states[i], id) by {
      if i > 0 {
        NeverSucceeds(states, steps, i - 1, id);
        PathKeepsInv(states, steps, i - 1);
        NeverAgain(states[i - 1], steps[i - 1], id);
      }
    }
    if i > 0 {
      NeverSucceeds(states, steps, i - 1, id);
      PathKeepsInv(states, steps, i - 1);
      NeverAgain(states[i - 1], steps[i - 1], id);
    }
  }

  /** Some continuation of s stores SUCCESS for the run. */
  ghost predicate CanEndSuccess(s: State, id: RunId) {
    exists states: seq<State>, steps: seq<Step> :: IsPath(states, steps) && states[0] == s
      && id in states[|steps|].runs && states[|steps|].runs[id].status == SUCCESS
  }

  lemma SucceedingPath(s: State, id: RunId) returns (states: seq<State>, steps: seq<Step>)
    requires Inv(s) && MaySucceed(s, id)
    ensures IsPath(states, steps) && states[0] == s
    ensures id in states[|steps|].runs && states[|steps|].runs[id].status == SUCCESS
  {
    assert JobOk(s, id);
    states, steps := [s], [];
    if s.runs[id].status == RUNNING {
      if s.jobs[id].pc == Working {
        states, steps := Extend(states, steps, End(id, SUCCESS));
      }
      states, steps := Extend(states, steps, Finish(id));
    }
  }

  /**
   Shutdown does not mark every run before anything can finish it. In a closing process a stored run can
   still end SUCCESS exactly when it is SUCCESS already, or RUNNING with its body running or ended well.
   */
  lemma SuccessAfterClosingIff(states: seq<State>, steps: seq<Step>, i: nat, id: RunId)
    requires IsRun(states, steps) && i < |states|
    requires Closing(states[i], id) && id in states[i].runs
    ensures CanEndSuccess(states[i], id) <==> MaySucceed(states[i], id)
  {
    RunKeepsInv(states, steps, i);
    if MaySucceed(states[i], id) {
      var more, moreSteps := SucceedingPath(states[i], id);
    }
    if CanEndSuccess(states[i], id) && !MaySucceed(states[i], id) {
      var more: seq<State>, moreSteps: seq<Step> :| IsPath(more, moreSteps) && more[0] == states[i]
        && id in more[|moreSteps|].runs && more[|moreSteps|].runs[id].status == SUCCESS;
      NeverSucceeds(more, moreSteps, |moreSteps|, id);
      assert false;
    }
  }

  // ---- every lease is released ----

  /** What is left of the job's program. */
  function Remaining(pc: Pc): nat {
    match pc
    case Waiting => 9
    case Sweeping => 8
    case Inserting => 7
    case Inserted => 6
    case Working => 5
    case Finishing(_) => 4
    case Rereading(_) => 3
    case Deciding(_) => 2
    case Releasing => 1
    case Done => 0
  }

  predicate OwnStep(step: Step, id: RunId) {
    match step
    case Resume(r) => r == id
    case Sweep(r) => r == id
    case Insert(r) => r == id
    case Begin(r) => r == id
    case End(r, _) => r == id
    case Finish(r) => r == id
    case Reread(r) => r == id
    case Decide(r) => r == id
    case Return(r) => r == id
    case Throw(r) => r == id
    case Release(r) => r == id
    case _ => false
  }

  function OwnSteps(steps: seq<Step>, id: RunId): nat {
    if steps == [] then 0
    else OwnSteps(steps[..|steps| - 1], id) + (if OwnStep(steps[|steps| - 1], id) then 1 else 0)
  }

  /** An unfinished job has a step of its own; its own steps shorten its program, nobody else's change it. */
  lemma OwnStepsShorten(s: State, id: RunId, step: Step)
    requires id in s.jobs && Enabled(s, step)
    ensures id in After(s, step).jobs
    ensures OwnStep(step, id) ==> Remaining(After(s, step).jobs[id].pc) < Remaining(s.jobs[id].pc)
    ensures !OwnStep(step, id) ==> After(s, step).jobs[id] == s.jobs[id]
  {
  }

  lemma UnfinishedHasStep(s: State, id: RunId)
    requires id in s.jobs && s.jobs[id].pc != Done
    ensures exists own :: OwnStep(own, id) && Enabled(s, own)
  {
    var own := match s.jobs[id].pc
      case Waiting => Resume(id)
      case Sweeping => Sweep(id)
      case Inserting => Insert(id)
      case Inserted => Begin(id)
      case Working => if s.jobs[id].logged then End(id, SUCCESS) else Return(id)
      case Finishing(_) => Finish(id)
      case Rereading(_) => Reread(id)
      case Deciding(_) => Decide(id)
      case Releasing => Release(id)
      case Done => Resume(id);
    assert OwnStep(own, id) && Enabled(s, own);
  }

  lemma {:induction false} OwnStepsAreCounted(states: seq<State>, steps: seq<Step>, i: nat, id: RunId)
    requires IsRun(states, steps) && i < |states|
    ensures OwnSteps(steps[..i], id) + (if id in states[i].jobs then Remaining(states[i].jobs[id].pc) else 9) <= 9
    ensures id !in states[i].jobs ==> OwnSteps(steps[..i], id) == 0
  {
    if i > 0 {
      OwnStepsAreCounted(states, steps, i - 1, id);
      assert steps[..i][..i - 1] == steps[..i - 1] && steps[..i][i - 1] == steps[i - 1];
      if id in states[i - 1].jobs {
        OwnStepsShorten(states[i - 1], id, steps[i - 1]);
      }
    }
  }

  /**
   Every acquired lease, of a sync run, an override or a recompute, is released over every run: a job that
   has taken as many steps of its own as its whole program has, nine, has released its lease, and a job
   that has not released it always has a next step of its own.
   */
  lemma EveryLeaseIsReleased(states: seq<State>, steps: seq<Step>, i: nat, id: RunId)
    requires IsRun(states, steps) && i < |states| && id in states[i].jobs
    ensures OwnSteps(steps[..i], id) >= Remaining(Waiting) ==> id in states[i].released
    ensures id !in states[i].released ==> exists own :: OwnStep(own, id) && Enabled(states[i], own)
  {
    OwnStepsAreCounted(states, steps, i, id);
    RunKeepsInv(states, steps, i);
    assert JobOk(states[i], id);
    if states[i].jobs[id].pc != Done {
      UnfinishedHasStep(states[i], id);
    }
  }

  // ---- at most one RUNNING row ----

  /** The row of `older` is stored at step k after the newer job has swept. */
  ghost predicate LateInsert(states: seq<State>, steps: seq<Step>, k: int, older: RunId, newer: RunId) {
    && 0 <= k < |steps| < |states| && steps[k] == Insert(older)
    && older in states[k].jobs && newer in states[k].jobs && states[k].jobs[older].token < states[k].jobs[newer].token
    && exists m :: 0 <= m < k && steps[m] == Sweep(newer)
  }

  lemma {:induction false} RowWasInserted(states: seq<State>, steps: seq<Step>, j: nat, id: RunId) returns (k: nat)
    requires IsRun(states, steps) && j < |states| && id in states[j].runs
    ensures k < j && steps[k] == Insert(id)
  {
    if id in states[j - 1].runs {
      k := RowWasInserted(states, steps, j - 1, id);
    } else {
      assert steps[j - 1] == Insert(id);
      k := j - 1;
    }
  }

  lemma {:induction false} InserterSwept(states: seq<State>, steps: seq<Step>, j: nat, id: RunId) returns (m: nat)
    requires IsRun(states, steps) && j < |states| && At(states[j], id, Inserting)
    ensures m < j && steps[m] == Sweep(id)
  {
    if At(states[j - 1], id, Inserting) {
      m := InserterSwept(states, steps, j - 1, id);
    } else {
      assert steps[j - 1] == Sweep(id);
      m := j - 1;
    }
  }

  lemma {:induction false} JobsStay(states: seq<State>, steps: seq<Step>, i: nat, j: nat, id: RunId)
    requires IsRun(states, steps) && i <= j < |states| && id in states[i].jobs
    ensures id in states[j].jobs && states[j].jobs[id].token == states[i].jobs[id].token
  {
    if i < j {
      JobsStay(states, steps, i, j - 1, id);
      OwnStepsShorten(states[j - 1], id, steps[j - 1]);
    }
  }

  /** A row stored before the newer job swept is not RUNNING afterwards. */
  lemma SweptIsNotRunning(states: seq<State>, steps: seq<Step>, m: nat, j: nat, older: RunId, newer: RunId)
    requires IsRun(states, steps) && m < j < |states| && m < |steps| && steps[m] == Sweep(newer)
    requires older in states[m].runs && states[m].runs[older].token < states[m].jobs[newer].token
    ensures !IsRunning(states[j], older)
  {
    StatusIsFinal(states, steps, m + 1, j, older);
  }

  /** Two RUNNING rows: the older one was stored after the newer job had swept. */
  lemma TwoRunningMeansLateInsert(states: seq<State>, steps: seq<Step>, j: nat, older: RunId, newer: RunId)
    requires IsRun(states, steps) && j < |states|
    requires IsRunning(states[j], older) && IsRunning(states[j], newer)
    requires states[j].runs[older].token < states[j].runs[newer].token
    ensures exists k :: LateInsert(states, steps, k, older, newer)
  {
    RunKeepsInv(states, steps, j);
    assert JobOk(states[j], older) && JobOk(states[j], newer);
    var k := RowWasInserted(states, steps, j, older);
    var n := RowWasInserted(states, steps, j, newer);
    var m := InserterSwept(states, steps, n, newer);
    JobsStay(states, steps, m, j, newer);
    JobsStay(states, steps, k, j, older);
    RunKeepsInv(states, steps, m);
    if older in states[m].runs {
      assert JobOk(states[m], older);
      JobsStay(states, steps, m, j, older);
      SweptIsNotRunning(states, steps, m, j, older, newer);
      assert false;
    }
    InsertedAfter(states, steps, m, k, older, j);
    JobsStay(states, steps, m, k, newer);
    assert LateInsert(states, steps, k, older, newer);
  }

  /** Rows never disappear, so a row missing at m is inserted later. */
  lemma {:induction false} InsertedAfter(states: seq<State>, steps: seq<Step>, m: nat, k: nat, id: RunId, j: nat)
    requires IsRun(states, steps) && k < j < |states| && m < j && steps[k] == Insert(id) && id !in states[m].runs && !(steps[m] == Insert(id))
    ensures m < k
  {
    if k < m {
      RowsStay(states, steps, k + 1, m, id);
      assert false;
    }
  }

  lemma {:induction false} RowsStay(states: seq<State>, steps: seq<Step>, i: nat, j: nat, id: RunId)
    requires IsRun(states, steps) && i <= j < |states| && id in states[i].runs
    ensures id in states[j].runs
  {
    if i < j {
      RowsStay(states, steps, i, j - 1, id);
      RowStays(states[j - 1], steps[j - 1], id);
    }
  }

  lemma RowStays(s: State, step: Step, id: RunId)
    requires Enabled(s, step) && id in s.runs
    ensures id in After(s, step).runs
  {
  }

  /**
   At most one row is RUNNING at any time of a run in which no row is stored under a token older than one
   that has already swept.
   */
  lemma OneRunningWithoutLateInsert(states: seq<State>, steps: seq<Step>, j: nat, a: RunId, b: RunId)
    requires IsRun(states, steps) && j < |states|
    requires forall k, older, newer :: !LateInsert(states, steps, k, older, newer)
    requires IsRunning(states[j], a) && IsRunning(states[j], b)
    ensures a == b
  {
    RunKeepsInv(states, steps, j);
    assert JobOk(states[j], a) && JobOk(states[j], b);
    if a != b {
      if states[j].runs[a].token < states[j].runs[b].token {
        TwoRunningMeansLateInsert(states, steps, j, a, b);
      } else {
        TwoRunningMeansLateInsert(states, steps, j, b, a);
      }
    }
  }

  lemma Extend(states: seq<State>, steps: seq<Step>, step: Step) returns (more: seq<State>, moreSteps: seq<Step>)
    requires IsPath(states, steps) && Enabled(states[|steps|], step)
    ensures IsPath(more, moreSteps) && more == states + [After(states[|steps|], step)] && moreSteps == steps + [step]
  {
    more, moreSteps := states + [After(states[|steps|], step)], steps + [step];
  }

  /** A job that paused before storing its row, and a later one that stored its own. */
  const Paused: Job := Job(0, 10, true, Inserting)
  const Later: Job := Job(1, 20, true, Inserted)

  lemma PausedInserter() returns (states: seq<State>, steps: seq<Step>)
    ensures IsRun(states, steps) && |steps| == 3
    ensures states[3] == State({}, map[], map[1 := Paused], 10, {})
  {
    states, steps := [Start], [];
    states, steps := Extend(states, steps, Grant(1, 0, 10, true));
    states, steps := Extend(states, steps, Resume(1));
    states, steps := Extend(states, steps, Sweep(1));
  }

  lemma LaterInserted() returns (states: seq<State>, steps: seq<Step>)
    ensures IsRun(states, steps) && |steps| == 7 && steps[5] == Sweep(2)
    ensures states[7] == State({}, map[2 := Run(20, RUNNING)], map[1 := Paused, 2 := Later], 20, {})
  {
    states, steps := PausedInserter();
    states, steps := Extend(states, steps, Grant(2, 1, 20, true));
    states, steps := Extend(states, steps, Resume(2));
    assert states[5] == State({}, map[], map[1 := Paused, 2 := Later.(pc := Sweeping)], 20, {});
    states, steps := Extend(states, steps, Sweep(2));
    states, steps := Extend(states, steps, Insert(2));
  }

  /**
   The condition is needed: the insert of the run row is not fenced, so an acquirer paused before it stores
   its row after a takeover, and two runs of one lock are RUNNING at once.
   */
  lemma TwoRunningRuns() returns (states: seq<State>, steps: seq<Step>)
    ensures IsRun(states, steps) && LateInsert(states, steps, 7, 1, 2)
    ensures IsRunning(states[|steps|], 1) && IsRunning(states[|steps|], 2)
  {
    states, steps := LaterInserted();
    states, steps := Extend(states, steps, Insert(1));
    assert steps[5] == Sweep(2);
  }
}
