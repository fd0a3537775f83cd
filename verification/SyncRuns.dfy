/** Stored sync runs and their status machine (server/src/repositories/syncRunRepo.js). */
module SyncRuns {
  type RunId = nat

  datatype Status = RUNNING | SUCCESS | PARTIAL | FAILED | ABANDONED

  datatype Run = Run(token: nat, status: Status)

  type Runs = map<RunId, Run>

  predicate Final(s: Status) {
    s == SUCCESS || s == PARTIAL || s == FAILED
  }

  function Finished(runs: Runs, id: RunId, status: Status): Runs {
    if id in runs && runs[id].status == RUNNING then runs[id := runs[id].(status := status)] else runs
  }

  predicate Stale(run: Run, token: nat) {
    run.status == RUNNING && run.token < token
  }

  function Abandoned(runs: Runs, token: nat): Runs {
    map id | id in runs :: if Stale(runs[id], token) then runs[id].(status := ABANDONED) else runs[id]
  }

  /** The runs of one lock. Every method is one atomic statement. */
  class SyncRunStore {
    var runs: Runs

    constructor ()
      ensures runs == map[]
    {
      runs := map[];
    }

    /** Inserts the run RUNNING; an existing id is a duplicate-key error. */
    method Insert(id: RunId, token: nat) returns (inserted: bool)
      modifies this
      ensures inserted == (id !in old(runs))
      ensures runs == if inserted then old(runs)[id := Run(token, RUNNING)] else old(runs)
    {
      inserted := id !in runs;
      if inserted {
        runs := runs[id := Run(token, RUNNING)];
      }
    }

    /** RUNNING to a final status; false when the run was not RUNNING. */
    method Finish(id: RunId, status: Status) returns (moved: bool)
      requires Final(status)
      modifies this
      ensures moved == (id in old(runs) && old(runs)[id].status == RUNNING)
      ensures runs == Finished(old(runs), id, status)
    {
      moved := id in runs && runs[id].status == RUNNING;
      if moved {
        runs := runs[id := runs[id].(status := status)];
      }
    }

    /** Every run still RUNNING under an older token becomes ABANDONED; returns how many. */
    method MarkAbandoned(token: nat) returns (count: nat)
      modifies this
      ensures runs == Abandoned(old(runs), token)
      ensures count == |set id | id in old(runs) && Stale(old(runs)[id], token)|
    {
      var ids := set id | id in runs && Stale(runs[id], token);
      count := |ids|;
      var left := ids;
      ghost var before := runs;
      while left != {}
        invariant left <= ids && runs.Keys == before.Keys
        invariant forall id | id in runs :: runs[id] == if id in ids && id !in left then before[id].(status := ABANDONED) else before[id]
      {
        var id :| id in left;
        runs := runs[id := runs[id].(status := ABANDONED)];
        left := left - {id};
      }
    }
  }

  /** markAbandoned(t) never touches a run whose token is t or newer. */
  lemma AbandonSparesNewer(runs: Runs, token: nat, id: RunId)
    requires id in runs && runs[id].token >= token
    ensures id in Abandoned(runs, token) && Abandoned(runs, token)[id] == runs[id]
  {
  }
}
