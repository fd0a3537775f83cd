# FPL Radar verification

FPL Radar decides who wins a gameweek of a fantasy league and keeps a tamper-evident record of every
decision. This project models the parts of it whose correctness is not visible in any single function,
and proves them with Dafny 4.11:

    dafny verify dfyconfig.toml

## The parts

- **Leases** (`LockRepo`, `LeaseProtocol`, `SyncRuns`, `RunLifecycle`): the lock document and its five
  atomic statements, the holder object, and two transition systems. In the first, stale holders, expiry,
  takeover, TTL deletion and fenced transactions interleave freely; in the second, jobs stop at every
  `await` and any process may shut down at any time.
- **Scoring** (`TieBreakers`, `Ranking`, `Winner`, `SharedChains`, `Eligibility`, `Results`, `Traces`,
  `ResultMeaning`): one relational order of a table, the recursive bucket sort and the narrowing loop proved
  against it, the whole engine result, and what a result says of the stored rows it came from.
- **Stored results** (`Canonical`, `Encoding`, `Readback`, `Snapshots`, `DocForms`): the canonical form, the payloads of a
  result encoded into it with the source's field names and read back, the snapshot that recomputes to
  itself, and what a hash of canonical text tells apart.
- **Decisions** (`FinalizeGate`, `HashChain`, `ResultRepo`, `Decisions`, `DecisionRuns`,
  `Finalization`): the finalize gate, the hash chain, the T4 transaction, every run of finalize, override and
  recompute with arbitrarily stale readers, and the system in which what such a transaction loads is a
  function of syncs, member writes and edits.
- **Points** (`Reconcile`, `Semantics`, `SnapshotUpsert`, `Replay`, `MembersStage`): reconciliation of a season, the
  incremental semantics machine against its batch specification, content-hash upserts, and what
  repeated syncs of identical responses do to a whole group.
- **Line-up and ownership** (`LineUp`, `EffectiveSquad`, `Ownership`): optimality of the greedy line-up,
  conservation of multipliers and double counting.
- **Identifiers** (`Ids`): printers and parsers are inverse to each other.

Source that changes state is modelled by classes and loops whose contracts name a function of the old
state; the theorems are lemmas about those functions. `Wrappers` and `Sorting` hold shared helpers.

## Assumptions

- Every statement of a repository is atomic, a transaction commits whole or not at all, and a fenced
  transaction keeps the lock document write-locked until it ends.
- The server clock is one natural number that never goes back. The TTL monitor may act at any time from
  a day after expiry.
- Hashes are function parameters, of canonical forms. Tamper evidence, the upsert refinement, convergence of
  replays and the only-if of repeated finalizes require them to be collision-free; nothing else does.
- Run ids are unique across locks, and a run reads the clock of its own event syncs after its start.
- `localeCompare` is comparison by a key into the reals, the same for every call.
- `DecisionRuns` lets a transaction read the database as any earlier transaction left it, and uses only
  the unique index on seq and the headSeq filter to order commits.
- The stored rows of a member carry net and gross points exactly when reconciled, and rows are loaded by
  event, as the repositories do.

## Where the code and its comments differ

The model follows the code.

- `server/src/analytics/ranking.js:42` says SHARED and anything after it is ignored; the code drops only
  SHARED. `Winner.WinnersHeadTheTable` therefore holds for every chain as a set, and the sequence form
  `Winner.WinnersAreTableHead` asks for SHARED last, which `isValidRuleChain` guarantees and without which
  it fails (`SharedChains.HeadIsLiteralIffSharedIsLast`).
- `server/src/repositories/lockRepo.js:10-11` bounds the lead of a token by the acquisitions of one
  millisecond; the lead accumulates (`LeaseProtocol.LeadExceedsOneMillisecond`), and the bound holds exactly
  under `LeaseProtocol.CommentBoundHoldsIff`. The ordering it is meant to justify holds up to 86,400,000
  acquisitions per document lifetime and not beyond (`LeaseProtocol.BoundIsExact`).
- `server/src/sync/syncService.js:194-197` says shutdown marks every run before anything can finish it; a
  run that is already working can finish first (`RunLifecycle.SuccessAfterClosingIff`).
- `server/src/utils/canonical.js:25-31` is meant to keep every defined member; assigning `out['__proto__']`
  sets a prototype instead, so a member of that name is lost (`Canonical.ProtoMemberIsLost`), and nothing
  else is (`Canonical.CanonicalFormReadsBackIff`). No object of this program has such a member.

## Model

| member | source | states |
|---|---|---|
| LineUp.BestXi | client/src/lib/planner.js:35-46 | Returns at most eleven distinct ids within every position maximum; the line-up is legal exactly when the pool can fill a formation, and then no legal eleven from the pool has a larger sum of (ep ?? -1). No player left out precedes, by points and then lower id, one he could replace. |
| LineUp.ChosenIsUnique | client/src/lib/planner.js:35-46 | Among equally good legal line-ups that says exactly one is taken. |
| LineUp.CutIsOptimal | client/src/lib/planner.js:37-44 | The exchange argument: a line-up that takes the best of each position, and whose slack positions are separated from the players left out by one cut value, is beaten by no legal rival. |
| LineUp.LegalMeans | client/src/lib/planner.js:7-9 | A legal eleven has one goalkeeper, three to five defenders, two to five midfielders and one to three forwards, and nobody else. |
| LineUp.TotalMeans | client/src/lib/planner.js:36 | What is maximised is the sum of the expected points, a player without any counting -1. |
| LineUp.ProblemsAre | client/src/lib/planner.js:72-79 | evaluate names a wrong size, and each position below its minimum or above its maximum, and nothing else. |
| LineUp.LegalNeedsEnough | client/src/lib/planner.js:8-9 | A legal eleven exists in a pool only if the pool meets every minimum and has eleven players under the maxima. |
| LineUp.NoProblemsIffLegal | client/src/lib/planner.js:72-79 | On a full squad evaluate reports no starting-XI problem exactly for a legal eleven. |
| LineUp.EvaluateXi | client/src/lib/planner.js:54-79 | The XI loop of evaluate reports exactly the size, minimum and maximum violations of the chosen players. |
| LineUp.BestXiHasNoProblems | client/src/lib/planner.js:72-79 | On a full squad evaluate reports no starting-XI problem for what bestXi returns. |
| LockRepo.LockStore.AcquireTake | server/src/repositories/lockRepo.js:30-51 | First statement of acquire: takes a free or expired lease with token max(previous + 1, now); otherwise nothing changes and the answer is null. |
| LockRepo.LockStore.AcquireCreate | server/src/repositories/lockRepo.js:53-61 | Second statement: creates a missing document; on an existing one it collides and changes nothing. |
| LockRepo.LockStore.Heartbeat | server/src/repositories/lockRepo.js:65-73 | Extends the lease exactly when owner and token match and it has not expired. |
| LockRepo.LockStore.Fence | server/src/repositories/lockRepo.js:80-88 | Writes the lock document under the same condition, changing neither owner, token nor expiry. |
| LockRepo.LockStore.Release | server/src/repositories/lockRepo.js:91-98 | Frees a lease of this owner, whatever its token, and no other. |
| LockRepo.Lease.Heartbeat | server/src/locks/leaseLock.js:29-34 | A lost or released lease never reaches the repository; a failed beat marks it lost, for good. |
| LockRepo.Lease.Fence | server/src/locks/leaseLock.js:37-44 | Throws unless the lease is neither lost nor released and the stored document still names it; a failed fence marks it lost. |
| LockRepo.Lease.Release | server/src/locks/leaseLock.js:47-52 | Marks the lease released; only the first call touches the document. |
| LeaseProtocol.TokenClosedForm | server/src/repositories/lockRepo.js:35 | Within one document lifetime token_n = max over j <= n of (now_j + n - j): no term exceeds the token and one attains it. |
| LeaseProtocol.TokenLead | server/src/repositories/lockRepo.js:7-11 | So the token leads the clock by less than the number of acquisitions of the lifetime. |
| LeaseProtocol.CommentBoundHoldsIff | server/src/repositories/lockRepo.js:9-11 | A token runs ahead of the clock by at most the acquisitions of its own millisecond, as the comment says, exactly when no window ending with it is more crowded than its length and that number allow. |
| LeaseProtocol.LeadIsAtMost | server/src/repositories/lockRepo.js:7-11 | A token is at most a given lead ahead of its acquisition time exactly when the acquisitions before it are spread out by that lead. |
| LeaseProtocol.LeadExceedsOneMillisecond | server/src/repositories/lockRepo.js:9-11 | Times that are not so spread out: the lead accumulates over milliseconds. |
| LeaseProtocol.StepKeepsHolders | server/src/repositories/lockRepo.js:30-97 | Every step of any holder, stale or not, keeps owners distinct, the lock with the newest grant and the open transaction with the owner, without any bound on acquisitions. |
| LeaseProtocol.StepKeepsInv | server/src/repositories/lockRepo.js:30-97 | Every enabled step of any holder, stale or not, keeps the token order too while a lifetime has at most 86,400,000 acquisitions. |
| LeaseProtocol.TokensStrictlyIncrease | server/src/repositories/lockRepo.js:7-11 | Over every run tokens strictly increase, TTL deletions included. |
| LeaseProtocol.BoundIsExact | server/src/db/migrations/002_indexes.js:45 | Tokens rise over all runs with at most `bound` acquisitions per lifetime exactly when bound is at most 86,400,000, the TTL in milliseconds. |
| LeaseProtocol.TokenRepeats | server/src/db/migrations/002_indexes.js:45 | A run of the protocol, with one acquisition more, that reaches a repeated token after the TTL deletion. |
| LeaseProtocol.AcquireAnswersNullIff | server/src/repositories/lockRepo.js:46-60 | Over all runs acquire answers null exactly when its first statement finds no lock, or one owned and not expired, and its second finds a document. |
| LeaseProtocol.AcquireMayMissFreeLock | server/src/repositories/lockRepo.js:46-60 | So a run in which it answers null on a lock that was released between the two. |
| LeaseProtocol.LeaseLastsItsTtl | server/src/repositories/lockRepo.js:30-88 | Over every run, from the step that grants a lease or extends it by a heartbeat until ttl later, unless its owner releases it or beats with a shorter ttl: the lock names that owner and token unexpired, no acquire by anyone else grants anything, and the owner's fence opens its transaction. |
| LeaseProtocol.SilentLeaseEnds | server/src/repositories/lockRepo.js:46-51 | Over every run a lease whose holder does not extend it is no longer its once the ttl is over: its fence and heartbeat change nothing. |
| LeaseProtocol.FreeLockIsGranted | server/src/repositories/lockRepo.js:46-61 | A lock that is not held, because it was never granted, was released, has expired or was deleted, is granted to a new owner by one of the two statements of acquire; a held one by neither. |
| LeaseProtocol.LockIsStamped | server/src/repositories/lockRepo.js:30-42 | In every run acquiredAt is when the newest lease was granted, heartbeatAt and lastWriteAt lie between then and now, and lastWriteAt is never an earlier lease's. |
| LeaseProtocol.CommitsAreNewest | server/src/repositories/lockRepo.js:75-88 | A guarded transaction commits only while its own (owner, token) is the newest grant and owns the document, even when the lease expired between fence and commit; over every run, without a bound. |
| LeaseProtocol.CommitsInTokenOrder | server/src/repositories/lockRepo.js:75-88 | In every interleaving guarded transactions commit in non-decreasing token order. |
| LeaseProtocol.NoCommitAfterRelease | server/src/locks/leaseLock.js:47-52 | After a release no guarded transaction of that owner commits, in any run. |
| LeaseProtocol.NoCommitAfterTakeover | server/src/repositories/lockRepo.js:46-51 | An owner superseded by a later grant never commits again. |
| SyncRuns.SyncRunStore.Insert | server/src/repositories/syncRunRepo.js:19-27 | Stores a new run RUNNING; a second insert of an id changes nothing. |
| SyncRuns.SyncRunStore.Finish | server/src/repositories/syncRunRepo.js:53-64 | Moves a RUNNING run to a final status; any other run is untouched and the answer is false. |
| SyncRuns.SyncRunStore.MarkAbandoned | server/src/repositories/syncRunRepo.js:71-78 | Abandons exactly the RUNNING runs with an older token and counts them. |
| SyncRuns.AbandonSparesNewer | server/src/repositories/syncRunRepo.js:66-70 | markAbandoned(t) never touches a run with token >= t. |
| RunLifecycle.StatusIsFinal | server/src/repositories/syncRunRepo.js:52-78 | Over every interleaving of jobs, takeovers and shutdowns a status other than RUNNING never changes again. |
| RunLifecycle.DecidesOnStoredStatus | server/src/sync/syncService.js:146-163 | The status that `after` is given is the stored one, and stays it. |
| RunLifecycle.MarkedStaysAbandoned | server/src/sync/syncService.js:199-211 | A run that is RUNNING when shutdown marks its lease stays ABANDONED. |
| RunLifecycle.NotBegunNeverSucceeds | server/src/sync/syncService.js:106-144 | A run whose job had not begun its body when its process started closing, or that is inserted later, never ends SUCCESS. |
| RunLifecycle.EveryLeaseIsReleased | server/src/sync/syncService.js:106-192 | Over every run a job, of a sync, an override or a recompute, that has taken as many steps of its own as its whole program has is released, and one that is not has a next step of its own. |
| RunLifecycle.OneRunningWithoutLateInsert | server/src/sync/syncService.js:117-118 | At most one row is RUNNING at any point of any run in which no row is inserted under a token older than one that has already swept. |
| RunLifecycle.TwoRunningMeansLateInsert | server/src/sync/syncService.js:117-118 | Two RUNNING rows always come from such an insert. |
| RunLifecycle.TwoRunningRuns | server/src/sync/syncService.js:117-118 | A run with such an insert, and two RUNNING rows: a paused acquirer inserts its row after a takeover. |
| RunLifecycle.SuccessAfterClosingIff | server/src/sync/syncService.js:194-198 | In a closing process a stored run can still end SUCCESS, over some continuation, exactly when it is SUCCESS already or is RUNNING with its body running or ended well. |
| TieBreakers.BestIsMaximum | server/src/analytics/tieBreakers.js:61 | Math.max over the candidates: attained, and not exceeded by any of them. |
| Ranking.AheadIsStrictOrder | server/src/analytics/ranking.js:14-38 | The reference order (score, then the first rule with data for the shared sub-group, then entryId) is a strict total order, although which rule has data depends on the sub-group. |
| Ranking.RankedArranges | server/src/analytics/ranking.js:44-62 | Sorting by the reference order lists every row once, each strictly ahead of the next. |
| Ranking.ArrangementIsRanked | server/src/analytics/ranking.js:44-62 | Any list of the rows in which earlier rows stand ahead of later ones is that arrangement. |
| Ranking.RankedIgnoresInputOrder | server/src/analytics/ranking.js:44-62 | The order of the input rows does not matter. |
| Ranking.ResolveGroup | server/src/analytics/ranking.js:16-38 | The recursive bucket sort lists a tied group in the reference order and explains each row by the rule that separates it from the row above. |
| Ranking.ResolveScores | server/src/analytics/ranking.js:44-56 | The score groups, highest first, each resolved by the chain, give the whole table in the reference order, explained. |
| Ranking.ResolvePositions | server/src/analytics/ranking.js:44-62 | Numbers the reference arrangement 1..n; positionDecidedBy is the first rule with data for the shared sub-group that separates a row from the row above, ENTRY_ID_FALLBACK iff none does, null at the head of a score group. |
| Ranking.CompetitionRanks | server/src/analytics/ranking.js:8-12 | Rank of every row is one more than the number of rows with a higher score. |
| Ranking.ScoresDescend | server/src/analytics/ranking.js:52-56 | Scores never rise down the resolved table. |
| Ranking.CompetitionRankIsFirstOfScoreGroup | server/src/analytics/ranking.js:4-12 | The competition rank of a row is the first resolved position of its score group. |
| Winner.NarrowWinners | server/src/analytics/winner.js:70-92 | The narrowing loop computes the recursive narrowing: winners, deciding rule, trace and missing-data warnings. |
| Winner.KeptRuleOverDropped | server/src/analytics/winner.js:72-89 | Whoever the loop keeps stands above whoever it drops, by a rule and never by entryId. |
| Winner.WinnersHeadTheTable | server/src/analytics/winner.js:65-92 | For every rule chain the rows the loop keeps are exactly the first rows of the bucket-sorted table, and the next row with the same score was put there by a rule. |
| Winner.WinnersAreTableHead | server/src/analytics/winner.js:90-91 | With SHARED last, winners equals as a sequence the entry ids of the first rows of the table. |
| SharedChains.HeadIsLiteralIffSharedIsLast | server/src/analytics/ranking.js:40-45 | In a chain without repeated rules, winners is literally the head of every table if and only if nothing follows SHARED; a pair of rows shows the failure for any rule that does. |
| SharedChains.ValidChainEndsWithShared | server/src/analytics/tieBreakers.js:70-74 | isValidRuleChain implies that condition. |
| Eligibility.SelectEligible | server/src/analytics/eligibility.js:16-28 | Splits the members, in entryId order, into eligible ids and ineligible ids with reasons. |
| Eligibility.SelectionPartitions | server/src/analytics/eligibility.js:3-7 | Every member is in exactly one list, with its first reason EXCLUDED > JOINED_LATER > NO_TEAM; a member that failed to sync stays eligible. |
| Results.ComputeGwResult | server/src/analytics/winner.js:30-149 | The engine computes the specified result: blockers, winners, trace, ranks, positions, ties, row order and canonical inputs. |
| ResultMeaning.WinnersHaveMostPoints | server/src/analytics/winner.js:36-92 | Said of the stored rows alone: in an unblocked result nobody who plays has more points than the winning score and every winner has exactly that many, net points in a NET_POINTS group and gross points in a GROSS_POINTS group; there is a winner exactly when somebody plays. |
| ResultMeaning.TraceLeadsToWinners | server/src/analytics/winner.js:66-92 | From the entries with the winning score each rule in turn keeps those with the best value of their own transferCost, grossGwPoints, captain's points, pointsOnBench, chip, totalPoints or overallRank, or everybody when one value is missing; what is left wins, and the deciding rule and the missing-data warnings are those of the steps. |
| ResultMeaning.StandingShows | server/src/analytics/winner.js:94-122 | A standing shows the points of the deciding column exactly when the member's row is reconciled, why the member does not count, whether it won, and its rank and ties among the players' points. |
| ResultMeaning.BlockersAre | server/src/analytics/winner.js:36-40 | The blockers are exactly the members who count and whose row is not reconciled, or missing while their sync has not succeeded. |
| ResultMeaning.RowsStandInOrder | server/src/analytics/winner.js:123-130 | The rows are ordered by position, those without one by name and then by entry. |
| ResultMeaning.MorePointsStandHigher | server/src/analytics/ranking.js:44-62 | Whoever plays has a position, and more points of the deciding column give a smaller one. |
| Results.WinsIffPlacedFirst | server/src/analytics/winner.js:94-122 | For every rule chain isWinner holds exactly when resolvedPosition <= |winners|. |
| Results.WinnersExistIff | server/src/analytics/winner.js:36-40 | There is a winner exactly when nobody blocks the result and somebody is eligible. |
| Results.ResultIgnoresInputOrder | server/src/analytics/winner.js:96-134 | Rows, winners, trace and canonical inputs are the same whatever order members and rows come in. |
| Encoding.SavedInputsReadBack | server/src/services/resultModel.js:119-155 | The stored canonical form of the engine inputs and managers is read back exactly, a chip that was undefined told from one that was null. |
| Encoding.FormsAreInjective | server/src/analytics/winner.js:127-134 | Different engine inputs have different canonical text, so inputsHash is taken of all of them. |
| Snapshots.VerifySnapshotReproduces | server/src/services/resultModel.js:161-178 | Reports exactly the fields in which the recomputation from the stored form differs; no mismatch means every recorded output is reproduced. |
| Snapshots.PassingSnapshotIsTrue | server/src/services/resultModel.js:145-178 | A snapshot that passes the check says what the engine decides on the inputs it holds: winners, score, deciding rule, its trace as read back, and every cell of its table. |
| Snapshots.SnapshotHolds | server/src/services/resultModel.js:119-142 | A built snapshot reads back as the result, inputs, names and declared winners it was built from. |
| Readback.TraceReadsBack | server/src/services/resultModel.js:90-107 | The stored trace is read back exactly. |
| Readback.StandingsReadBack | server/src/analytics/winner.js:96-118 | The stored table has the rows of the result in order, and each of its sixteen columns shows the value of its row. |
| Snapshots.SnapshotReproduces | server/src/services/resultModel.js:119-178 | Every snapshot that can be built from an engine result is reproducible from its stored canonical form, whatever order the inputs came in and whichever winners were declared. |
| Traces.TraceIsFaithful | server/src/services/resultModel.js:84-107 | The trace, rebuilt from the table rows alone, lists exactly the members the engine held eligible and ineligible and the entries sharing the top score; its verdict counts the winners, and the rest is the engine's outcome. |
| Snapshots.InputsHashPinsDecision | server/src/services/resultModel.js:157-171 | Under a hash of canonical texts without collisions a snapshot that passes the check with the inputs hash of a genuine one records the genuine winners, score, deciding rule and trace. |
| FinalizeGate.CanFinalize | server/src/analytics/eventState.js:41-59 | Reports every failing reason, each exactly when it applies, and none exactly when all conditions hold. |
| FinalizeGate.EvaluateFinalizeGate | server/src/services/resultModel.js:28-71 | Gives each reason exactly when it applies to the group, the event, the result or some eligible member, and none exactly when the gate holds of every eligible member. |
| FinalizeGate.AllowedGateHasWinners | server/src/services/resultService.js:164-169 | An allowed gate implies a PROVISIONAL result with at least one winner. |
| FinalizeGate.ObservedIsBlockStart | server/src/sync/normalize.js:59-69 | dataCheckedObservedAt is the time of the first sync of the unbroken block of data_checked answers at the end of the history. |
| FinalizeGate.CheckedStrictlyBeforeRun | server/src/analytics/eventState.js:46-54 | When the gate holds for a run, the sync that began the unbroken block of data_checked answers did so strictly before that run started. |
| FinalizeGate.EventStateFacts | server/src/analytics/eventState.js:13-23 | The passing of time alone never takes an event state back, and a fixture moved to another gameweek does not count. |
| FinalizeGate.EventStateIs | server/src/analytics/eventState.js:13-23 | The state of an event: data_checked first, then finished, then whether all its own fixtures are over, then the deadline. |
| Canonical.CanonicalizeValue | server/src/utils/canonical.js:8-35 | canonicalize, with its loops, computes the canonical form of every value it accepts. |
| Canonical.CanonicalFormReadsBackIff | server/src/utils/canonical.js:3-31 | Read back, the canonical form is the JSON value meant, with undefined members dropped, Dates as text and Maps as objects, exactly when no object in it has a member named __proto__. |
| Canonical.NothingIsLostIff | server/src/utils/canonical.js:25-31 | A member is lost at some depth exactly when some object has one of that name. |
| Canonical.ProtoMemberIsLost | server/src/utils/canonical.js:25-31 | An object whose one member is named __proto__ has the canonical form of the empty object, whatever the member holds. |
| Canonical.StoredFormIsStable | server/src/repositories/mappers/common.js:23-26 | What is read back from the database has the canonical form, and so the hash, of what was written. |
| Canonical.CanonicalFormDecides | server/src/utils/canonical.js:3-6 | Two values without members of that name have the same canonical form exactly when they mean the same JSON value, whatever the order of their members at every depth. |
| DocForms.ContentHashIsCollisionFree | server/src/repositories/mappers/result.js:17-46 | A hash of canonical texts without collisions tells any two actions apart, and any two snapshots. |
| HashChain.VerifyChain | server/src/audit/hashChain.js:28-53 | Accepts exactly the chains whose links, snapshots and pointer are intact; a refusal names the first broken link and its first fault, or what is first wrong with the pointer. |
| HashChain.AcceptedChainsAreIdentical | server/src/audit/hashChain.js:26-53 | Under a collision-free hash two action lists, in any order, accepted against the same pointer are the same and cite identical snapshots. |
| ResultRepo.ResultStore.InsertSnapshot | server/src/repositories/resultRepo.js:44-50 | Adds one snapshot under a fresh id with the hash of its content; nothing else changes. |
| ResultRepo.ResultStore.AppendAction | server/src/repositories/resultRepo.js:59-75 | Appends the next action, or refuses and writes nothing when prevSnapshotId is not the head or the seq exists. |
| ResultRepo.ResultStore.MovePointer | server/src/repositories/resultRepo.js:82-106 | Moves the pointer to the action under the headSeq guard, or reports a concurrent decision and writes nothing. |
| ResultRepo.VerifyStoredChain | server/src/repositories/resultRepo.js:149-159 | Accepts exactly the histories in which every action follows its predecessor and cites a stored, intact snapshot, and the head agrees; so one that has actions but not their snapshots never passes. |
| Decisions.PlanFinalize | server/src/services/resultService.js:156-176 | Replays, writes or refuses as specified; its reasons are the gate's, each exactly when it applies, and FINALIZE_SYNC_NOT_SUCCESS exactly when the run did not succeed; RESULT_BLOCKED never. |
| Decisions.PlanOverride | server/src/services/resultService.js:187-208 | Writes exactly when the winners are distinct members, the group is active and the event is DATA_CHECKED or a decision stands; what it writes declares those ids and no others, ascending, beside the computed winners, and recomputes to itself; a refusal names the first condition that fails. |
| Decisions.OverrideWritesIff | server/src/services/resultService.js:187-208 | The same of the plan on the engine result, for all inputs. |
| Decisions.PlanRecompute | server/src/services/resultService.js:216-243 | Writes exactly when a decision stands, the group is active, the event DATA_CHECKED, every eligible member reconciled and a change of winners carries a note; what it writes declares the computed winners, none exactly when nobody is eligible, and recomputes to itself; a refusal names the first condition that fails. |
| Decisions.RecomputeWritesIff | server/src/services/resultService.js:216-243 | The same of the plan on the engine result, for all inputs. |
| Decisions.RunT4 | server/src/services/resultService.js:57-91 | One transaction: its whole effect is the specified one, and on any refusal or lost race the stored database is unchanged. |
| DecisionRuns.ServicePlansFit | server/src/services/resultService.js:152-243 | The three plans of the service meet what the chain results below ask of any plan callback of runT4. |
| DecisionRuns.StepKeepsInv | server/src/services/resultService.js:57-91 | Every transaction, reading any earlier database, keeps every stored database well linked. |
| DecisionRuns.ChainAlwaysVerifies | server/src/services/resultService.js:61-65 | verifyChain accepts every reachable database, so CHAIN_INVALID is never answered. |
| DecisionRuns.TamperingBlocksDecisions | server/src/services/resultService.js:57-66 | After any action or cited snapshot of an intact history was added, removed or altered, no request of any kind changes the database: CHAIN_INVALID under a hash without collisions; without the lease, LOCK_LOST. |
| DecisionRuns.ChainIsLinear | server/src/repositories/resultRepo.js:52-75 | In every reachable database seqs are 1..n, each action starts from the status, snapshot and winners the previous one left, FINALIZE occurs only first and RECOMPUTE never first. |
| DecisionRuns.FinalMeansRuleBased | server/src/repositories/resultRepo.js:82-106 | The gwResults document has status FINAL exactly when the current snapshot is RULE_BASED and declares what it computed; otherwise OVERRIDDEN. |
| DecisionRuns.HistoryOnlyGrows | server/src/repositories/resultRepo.js:31-35 | Over every run stored actions and snapshots are never changed or removed. |
| DecisionRuns.CommitsIffHeadUnmoved | server/src/repositories/resultRepo.js:52-75 | Without the lease: a transaction with a decision to write commits exactly when no other decision was committed since it read; otherwise it fails as concurrent and writes nothing. |
| Finalization.FinalizeIsSafe | server/src/services/resultService.js:145-176 | Over every interleaving of syncs, member writes, edits, shutdowns and decisions: a FINALIZE is the first action; its transaction read a state in which the group was active and everybody who counts had a reconciled row last confirmed by the finalize run, data_checked having been seen by another run strictly before it started; the run is stored SUCCESS for good; and the declared winners are what the engine computes from that state, at least one. |
| Finalization.GateOpensIffSound | server/src/services/resultModel.js:28-71 | For a run stored SUCCESS, the gate evaluated on what is loaded opens exactly when the stored data meets those conditions. |
| Finalization.StepKeepsInv | server/src/repositories/resultRepo.js:160-211 | Every step keeps rows, event syncs, run clocks and decision histories as loading needs them. |
| Finalization.RowWasWritten | server/src/sync/syncService.js:337-357 | Over every run a row says truly who confirmed it: that run wrote it while it was working, and nobody has since. |
| Finalization.RunWroteRows | server/src/services/resultService.js:145-176 | So the finalize run itself wrote, from its own body, the row of everybody who counts. |
| Finalization.FinalizeCanHappen | server/src/services/resultService.js:145-176 | Some run of the whole system commits a FINALIZE, so the safety statement is not empty. |
| DecisionRuns.FinalizeIsGated | server/src/services/resultService.js:152-176 | In any reachable history of decisions a FINALIZE is first, its request named a run of status SUCCESS, the gate held of what it loaded, and it declared the computed winners, at least one. |
| DecisionRuns.DecisionsAreLawful | server/src/services/resultService.js:187-243 | Every action of a reachable history was taken for an active group, at DATA_CHECKED unless it overrides an earlier decision; an override declares the sorted ids it was given, all members; a recompute that changes the winners carries a note. The action records the kind and the note of its request. |
| DecisionRuns.ServiceExists | server/src/services/resultService.js:31-36 | For every hash and collation there is a service whose plan callback is the modelled one. |
| DecisionRuns.EverySnapshotReproduces | server/src/services/resultModel.js:157-178 | Every snapshot cited by a reachable history recomputes to itself from its stored canonical form. |
| DecisionRuns.RepeatedFinalizeReplays | server/src/services/resultService.js:145-162 | In every reachable state a finalize that reads the current history is answered as a replay and writes nothing when a FINAL decision on the same engine inputs stands, and, the hash having no collisions, only then. |
| DecisionRuns.RecomputeWinners | server/src/services/resultService.js:216-241 | A recompute writes FINAL with no winners exactly when nobody is eligible. |
| Semantics.SeasonStore.ApplySemanticsEvidence | server/src/repositories/seasonRepo.js:84-118 | The update pipeline does what the state machine does, and keeps CONFLICTED equivalent to conflictRows > 0. |
| Semantics.CombineSemantics | server/src/fpl/smoke/reconcileProbe.js:42-50 | The one-pass verdict equals the value of the incremental machine after the same batches. |
| Semantics.IncrementalEqualsBatch | server/src/repositories/seasonRepo.js:75-83 | After any batches the value is the verdict on the totals. |
| Semantics.SplitDoesNotMatter | server/src/repositories/seasonRepo.js:75-83 | How evidence is split over syncs, and their order, does not change the value. |
| Semantics.ConflictIsSticky | server/src/repositories/seasonRepo.js:79-80 | CONFLICTED is absorbing and freezes every counter. |
| Semantics.CountersAddUp | server/src/repositories/seasonRepo.js:92-102 | evidenceRows + conflictRows is the total up to and including the first conflicting batch. |
| Semantics.ConflictCounters | server/src/repositories/seasonRepo.js:92-102 | Each counter apart: the batch that brings the conflict adds its rows for the semantics proven before to the evidence and the others to the conflicts, all of them when nothing was proven before; no later batch counts. |
| Semantics.CleanCounters | server/src/repositories/seasonRepo.js:92-102 | Without a conflict every row counted is evidence. |
| Semantics.FirstVerifiedRun | server/src/repositories/seasonRepo.js:104-111 | firstVerifiedRunId is the run of the first batch with evidence, unless that batch contradicts itself. |
| Semantics.FirstVerifiedIsSetOnce | server/src/repositories/seasonRepo.js:104-111 | No later batch changes it. |
| Reconcile.ReconciledRowIsExact | server/src/analytics/reconcile.js:56-89 | Points are there exactly on rows of status RECONCILED and RECONCILED_NO_COST, where net = T - Tprev and gross = net + C. |
| Reconcile.HitRowsShareSemantics | server/src/analytics/reconcile.js:47-54 | All reconciled hit rows of an entry share one proven semantics, the season's if it is verified. |
| Reconcile.SeasonConservation | server/src/analytics/reconcile.js:22-93 | Over a gap-free, fully reconciled season net points sum to the last total and gross points to it plus all transfer costs, whatever the input order. |
| Reconcile.ReconcileIgnoresInputOrder | server/src/analytics/reconcile.js:23 | With one row per event the order of the history does not matter. |
| Reconcile.ProbeAgrees | server/src/fpl/smoke/reconcileProbe.js:7-39 | The production reconciler and the probe count the same evidence and reach the same verdict. |
| Reconcile.ProbeRow | server/src/analytics/reconcile.js:71-89 | Every row of a reconciled season: SOURCE_DISAGREEMENT exactly when the picks report other points than the history on a checked event with a total before it; otherwise its status follows from what the probe says of the row and the semantics it was read under. |
| Reconcile.PreviousTotalIs | server/src/analytics/reconcile.js:32-36 | A row is measured against 0 for the first event, against the total of the event just before for any other, and against nothing across a gap. |
| Reconcile.RowsAreExplained | server/src/analytics/reconcile.js:45-67 | A row keeps the change of the season total, and its hypothesis says whether the points less the hit, the points, both or neither explain it. |
| Reconcile.SemanticsAreProven | server/src/analytics/reconcile.js:45-54 | Hit rows of an unverified season are read under what the whole history proves, all others under the season's semantics. |
| SnapshotUpsert.Collection.UpsertSnapshots | server/src/repositories/internal/snapshotUpsert.js:65-112 | A batch with a duplicate id is refused and nothing is written; otherwise every document is written once on what was stored and the outcome lists describe the state before. |
| SnapshotUpsert.WriteAllAt | server/src/repositories/internal/snapshotUpsert.js:89-98 | Documents outside the batch are untouched; each one inside is the pipeline applied to what was stored. |
| SnapshotUpsert.ListsSay | server/src/repositories/internal/snapshotUpsert.js:100-111 | inserted, changed and unchanged hold exactly the new, differing and equal documents. |
| SnapshotUpsert.SettledChangesAre | server/src/repositories/internal/snapshotUpsert.js:107-109 | settledRowChanges holds exactly the previously settled documents whose content changed, with both hashes. |
| SnapshotUpsert.DocIsBlock | server/src/repositories/internal/snapshotUpsert.js:44-57 | With any hash: contentHash and confirmation are the last write's, data and lastChanged those of the first write of the current block of equal hashes. |
| SnapshotUpsert.UpsertRefinesReplacement | server/src/repositories/internal/snapshotUpsert.js:44-98 | Under a collision-free hash the stored data is the last written, contentHash its hash, and lastChanged the first write of the current unbroken run of equal data. |
| SnapshotUpsert.CollectionHoldsWrites | server/src/repositories/internal/snapshotUpsert.js:65-112 | After any sequence of batches a collection holds, of each id, exactly what that id's own accepted writes leave. |
| SnapshotUpsert.ReportsCompareData | server/src/repositories/internal/snapshotUpsert.js:103-111 | Under a collision-free hash unchanged means that the same data was stored, and changed that other data was. |
| Replay.BuildSeasonRows | server/src/sync/normalize.js:190-242 | The rows and evidence candidates of one entry: reconciled history, squads and Rpicks of other events carried forward, candidates only where the points inputs are new. |
| Replay.RowsHoldResponse | server/src/sync/normalize.js:203-233 | The rebuilt row of an event holds its history columns; of the synced event the squad, chip and Rpicks of the picks response, of another event what was stored and the chip of the chip list. |
| Replay.WriteMember | server/src/sync/syncService.js:337-357 | Stores the rebuilt rows and counts evidence only for rows inserted or changed; a refused write stores and counts nothing. |
| Replay.EvidenceIsNewProof | server/src/sync/syncService.js:389-394 | What a write counts: exactly the hit rows that prove the hypothesis by the change of their total and whose points, hit and totals are not those stored of their event. |
| Replay.FirstSyncCountsAll | server/src/sync/syncService.js:389-394 | The first sync of an entry counts exactly the evidence that the probe finds in its history. |
| Replay.RebuildIsStable | server/src/sync/normalize.js:186-189 | After a sync, rebuilding from the same responses gives the same rows under any later verdict and event states. |
| Replay.ReplayAddsNoEvidence | server/src/sync/syncService.js:389-394 | A second sync of identical responses has no evidence candidates, even when the season semantics changed in between. |
| Replay.RowsDependOnChecked | server/src/sync/normalize.js:186-242 | Of the event states the rebuilt rows depend only on which events are DATA_CHECKED. |
| MembersStage.MembersSyncStage | server/src/sync/syncService.js:359-403 | Rebuilds every fetched member's rows in turn under the verdict read once, keeps those of a member whose fetch or write failed, and adds up the evidence. |
| MembersStage.FirstStageCountsAll | server/src/sync/syncService.js:359-403 | On an empty store the stage counts, over the fetched members, all the evidence of their histories. |
| MembersStage.FirstSyncSetsVerdict | server/src/sync/syncService.js:606-610 | So the first sync of a group sets the season to what all its histories prove together. |
| MembersStage.ReplayConverges | server/src/sync/normalize.js:7-10 | For a whole group, any number of syncs of identical responses and whatever was stored before, with the verdict computed from the counted evidence: from the second sync on no evidence is counted and the season stays as it is; from the third on every row of every member is reported unchanged whenever no event became or ceased to be DATA_CHECKED since the sync before. |
| EffectiveSquad.DeriveEffectiveSquad | server/src/analytics/effectiveSquad.js:16-99 | From minutes, fixturesSettled, positions and auto-subs: whose captaincy counts and on what ground, the multipliers of every pick, auto-sub marks, points and warnings; captainPoints is null exactly while pending, else the effective captain's points times the multiplier, or 0 when nobody is multiplied. |
| EffectiveSquad.EffectiveTotal | server/src/analytics/effectiveSquad.js:27-77 | With well-formed auto-subs the effective multipliers sum to 11, or 15 under bench boost, plus capMult - 1 exactly when somebody is multiplied, and only that pick exceeds 1. |
| EffectiveSquad.ViceOnlyForMissingCaptain | server/src/analytics/effectiveSquad.js:47-68 | In the derived multipliers the captain is multiplied unless he is outside the eleven after auto-subs or settled without having played; the vice exactly when the captain is settled and is not, and the vice played and is in. |
| Ownership.ScopeStats | server/src/analytics/ownership.js:22-39 | Every field of the scope statistics is the sum over the scope of what one manager contributes. |
| Ownership.ComputeOwnership | server/src/analytics/ownership.js:12-69 | One row per element owned by somebody, ordered by effective ownership: each field counts exactly the managers who own, start, captain, triple-captain or effectively captain the element, over all and over the rivals, the two sums add up their multipliers, and my own multipliers and the owners are given; the missing managers are exactly the eligible ones without a squad. |
| Ownership.OwnershipConserves | server/src/analytics/ownership.js:41-66 | Double counting: over all rows every field adds up to what the squads themselves add up to. |
| Ownership.PickCountsAddUp | server/src/analytics/ownership.js:41-47 | So the pick counts of the table add up to 15 a manager. |
| Ownership.DerivedSquadTotal | server/src/analytics/ownership.js:36-37 | A derived squad adds 11 or 15, plus capMult - 1 when somebody is multiplied, to the effective sums. |
| Ownership.AllIsRivalsAndMe | server/src/analytics/ownership.js:13-24 | Every field over all managers is the field over the rivals plus my own share. |
| Ids.PrintOfValue | server/src/db/ids.js:45 | A numeral without a leading zero is the numeral of its value. |
| Ids.SeasonsAre | server/src/db/ids.js:4-11 | The valid seasons are a four-digit year, a dash and the last two digits of the next year. |
| Ids.EventIdsAre | server/src/db/ids.js:32 | The event ids are a season, a colon and a gameweek from 1 to 38. |
| Ids.GameweekIdsAre | server/src/db/ids.js:36 | The managerGameweek ids are a season, an entry id of at least 1 and a gameweek. |
| Ids.SeasonIdsAre | server/src/db/ids.js:37 | The managerSeason ids are a season and an entry id of at least 1. |
| Ids.ResultIdsAre | server/src/db/ids.js:38 | The gwResult ids are twenty-four hexadecimal characters, a season and a gameweek. |
| Ids.EventParserIsExact | server/src/db/ids.js:49-55 | The parser returns fields f for an id exactly when the printer prints that id for f. |
| Ids.ManagerSeasonParserIsExact | server/src/db/ids.js:63-69 | The same for managerSeason ids over safe integers. |
| Ids.ManagerGameweekParserIsExact | server/src/db/ids.js:56-62 | The same for managerGameweek ids over safe integers. |
| Ids.GwResultParserIsExact | server/src/db/ids.js:70-76 | The same for gwResult ids. |
| Ids.AcceptedIdsReprint | server/src/db/ids.js:48-77 | Without any bound on the numbers, whatever a parser accepts prints back to itself. |
| Ids.EventPrinterIsInjective | server/src/db/ids.js:32 | Two event ids are equal only for equal fields. |
| Ids.PrintersAreInjective | server/src/db/ids.js:36-38 | The managerGameweek, managerSeason and gwResult printers are injective over safe integers. |
| Ids.SeasonIsItsFirstYear | server/src/db/ids.js:4-11 | A valid season is determined by its first year, across the 2099-00 wrap. |

## Left out

- Results.ComputeGwResult: the engine version string is not modelled, and null and undefined are one value except in a chip field, where the rules tell them apart.
- Snapshots.SnapshotReproduces: the columns of a row that no rule reads (season, previous total, reconciliation detail) are not in the encoding, and stored inputs that are not of the written shape are read with nulls where the program would throw.
- DocForms.ContentHashIsCollisionFree: ids are numbers, and the fields no decision looks at are one text.
- Canonical.CanonicalizeValue: a Map whose keys coincide as strings is not modelled, and JSON.stringify prints integer-like names first, in an order that is still fixed by the set of names.
- Replay.BuildSeasonRows: the columns of a history row that are copied through are one text, and so are a squad's picks and auto-subs; request hashes and the settled flag of these rows are not tracked.
- Replay.WriteMember: the fence of its transaction is LockRepo.LockStore.Fence, and the upserts of the manager profile and of the managerSeasons document are not in it; Finalization has the latter as part of a member write.
- MembersStage.MembersSyncStage: a lost lease, which aborts the stage, is not modelled there; a replay means that every sync completes.
- Ids.ManagerSeasonParserIsExact: numbers above Number.MAX_SAFE_INTEGER are excluded from this direction, because two of them can share a template string.
- Ids.ManagerGameweekParserIsExact: the same bound.
- EffectiveSquad.EffectiveTotal: asks that every auto-sub swaps a starter for a benched pick; FPL's lists do, but the code does not check it.
- Ownership.ComputeOwnership: EO columns are kept as sums over a common denominator, not as floating-point quotients.
- LeaseProtocol.StepKeepsInv: heartbeat timers are arbitrary heartbeat steps; the polling of acquireLease is repeated acquisition attempts.
- Decisions.RunT4: schema validation of notes and retention of cited runs and raw responses are not modelled.
- RunLifecycle.EveryLeaseIsReleased: fairness is not assumed, so it says how far a job is from its release, not when it gets there; stored runs expire after ninety days, which is not modelled.
- Finalization.FinalizeIsSafe: the lease is not used there (a fence may succeed or fail at will), the squads and profiles a load brings are whatever an edit left, and the clock of an event sync is read between the start of its run and its commit.
- The document mappers copy fields, mergeLeagueMembers is a set union that keeps the old order, and dbCheck re-reads indexes and counts; each says in its body all there is to say of it.
- Routes, authentication, the FPL client, caching, rate limiting, the circuit breaker and the React client are plumbing around what is modelled.
- Rival, transfer, chip, news and player statistics are filters, sorts and rounding.
