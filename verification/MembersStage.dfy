/**
 The members stage of a sync and what it leaves of the season (membersSyncStage and the last lines of
 syncGroup in server/src/sync/syncService.js), over all members, and what repeating a sync of identical
 responses does. A member whose fetch failed has no response.
 */
module MembersStage {
  import opened Wrappers
  import opened Sorting
  import opened Points
  import opened SyncRuns
  import opened Reconcile
  import opened SnapshotUpsert
  import opened Replay
  import Semantics

  type Fetched = (int, Option<Response>)

  /** The stored rows, by entry. */
  type Store = map<int, Docs<RowDoc>>

  /** The rows of every entry and the season document. */
  datatype Stage = Stage(rows: Store, season: Semantics.Season)

  /** What is new in each sync of the same responses: when and by which run, and the event states it stored. */
  datatype Call = Call(stamp: Stamp, eventStates: map<int, EventState>)

  function DocsFor(db: Store, id: int): Docs<RowDoc> {
    if id in db then db[id] else map[]
  }

  function SettingOf(event: int, season: Semantics.Season, c: Call): Setting {
    Setting(event, season.value, c.eventStates)
  }

  // ---- one member ----

  /** A member that was not fetched, or whose write fails, keeps its rows. */
  function MemberAfter(hash: RowDoc -> Hash, docs: Docs<RowDoc>, resp: Option<Response>, s: Setting, stamp: Stamp): Docs<RowDoc> {
    if resp.Some? && OneRowPerEvent(resp.value) then Synced(hash, docs, resp.value, s, stamp) else docs
  }

  function MemberCount(hash: RowDoc -> Hash, docs: Docs<RowDoc>, resp: Option<Response>, s: Setting, h: Hypothesis): nat {
    if resp.Some? && OneRowPerEvent(resp.value) then
      EvidenceCount(Candidates(Replay.Normalize(docs, resp.value, s), docs), ListOf(hash, docs, ItemsOf(SeasonRows(docs, resp.value, s))), h)
    else 0
  }

  // ---- all members ----

  function RowsAfter(hash: RowDoc -> Hash, db: Store, members: seq<Fetched>, s: Setting, stamp: Stamp): Store {
    if members == [] then db
    else
      var n := |members| - 1;
      var before := RowsAfter(hash, db, members[..n], s, stamp);
      before[members[n].0 := MemberAfter(hash, DocsFor(before, members[n].0), members[n].1, s, stamp)]
  }

  function EvidenceOf(hash: RowDoc -> Hash, db: Store, members: seq<Fetched>, s: Setting, stamp: Stamp, h: Hypothesis): nat {
    if members == [] then 0
    else
      var n := |members| - 1;
      EvidenceOf(hash, db, members[..n], s, stamp, h)
      + MemberCount(hash, DocsFor(RowsAfter(hash, db, members[..n], s, stamp), members[n].0), members[n].1, s, h)
  }

  /** membersSyncStage: the verdict is read once, before the first write. */
  method MembersSyncStage(hash: RowDoc -> Hash, rows: Store, members: seq<Fetched>, s: Setting, stamp: Stamp)
    returns (after: Store, gross: nat, net: nat)
    ensures after == RowsAfter(hash, rows, members, s, stamp)
    ensures gross == EvidenceOf(hash, rows, members, s, stamp, GROSS) && net == EvidenceOf(hash, rows, members, s, stamp, NET)
  {
    after, gross, net := rows, 0, 0;
    for k := 0 to |members|
      invariant after == RowsAfter(hash, rows, members[..k], s, stamp)
      invariant gross == EvidenceOf(hash, rows, members[..k], s, stamp, GROSS)
      invariant net == EvidenceOf(hash, rows, members[..k], s, stamp, NET)
    {
      assert members[..k + 1][..k] == members[..k];
      var docs, g, n := SyncMember(hash, DocsFor(after, members[k].0), members[k].1, s, stamp);
      after := after[members[k].0 := docs];
      gross, net := gross + g, net + n;
    }
    assert members[..|members|] == members;
  }

  /** One turn of its loop. */
  method SyncMember(hash: RowDoc -> Hash, docs: Docs<RowDoc>, resp: Option<Response>, s: Setting, stamp: Stamp)
    returns (after: Docs<RowDoc>, gross: nat, net: nat)
    ensures after == MemberAfter(hash, docs, resp, s, stamp)
    ensures gross == MemberCount(hash, docs, resp, s, GROSS) && net == MemberCount(hash, docs, resp, s, NET)
  {
    after, gross, net := docs, 0, 0;
    if resp.Some? {
      var rows := new Collection<RowDoc>();
      rows.docs := docs;
      WriteSucceedsIff(docs, resp.value, s);
      var r;
      r, gross, net := WriteMember(hash, rows, resp.value, s, stamp);
      after := rows.docs;
    }
  }

  /** `if (evidence.gross + evidence.net > 0) applySemanticsEvidence(…)` */
  function SeasonAfter(season: Semantics.Season, gross: nat, net: nat, run: RunId): Semantics.Season {
    if gross + net > 0 then Semantics.Apply(season, Semantics.Batch(gross, net, run)) else season
  }

  /** One sync. */
  function SyncOnce(hash: RowDoc -> Hash, db: Stage, event: int, members: seq<Fetched>, c: Call): Stage {
    var s := SettingOf(event, db.season, c);
    Stage(
      RowsAfter(hash, db.rows, members, s, c.stamp),
      SeasonAfter(db.season, EvidenceOf(hash, db.rows, members, s, c.stamp, GROSS), EvidenceOf(hash, db.rows, members, s, c.stamp, NET), c.stamp.runId))
  }

  function AfterSyncs(hash: RowDoc -> Hash, db: Stage, event: int, members: seq<Fetched>, calls: seq<Call>): Stage {
    if calls == [] then db
    else SyncOnce(hash, AfterSyncs(hash, db, event, members, calls[..|calls| - 1]), event, members, calls[|calls| - 1])
  }

  // ---- the members do not touch each other ----

  predicate DistinctEntries(members: seq<Fetched>) {
    forall i, j | 0 <= i < j < |members| :: members[i].0 != members[j].0
  }

  predicate Includes(members: seq<Fetched>, id: int) {
    exists k | 0 <= k < |members| :: members[k].0 == id
  }

  lemma {:induction false} RowsOfOthers(hash: RowDoc -> Hash, db: Store, members: seq<Fetched>, s: Setting, stamp: Stamp, id: int)
    requires !Includes(members, id)
    ensures DocsFor(RowsAfter(hash, db, members, s, stamp), id) == DocsFor(db, id)
  {
    if members != [] {
      var n := |members| - 1;
      assert forall k | 0 <= k < n :: members[..n][k] == members[k];
      RowsOfOthers(hash, db, members[..n], s, stamp, id);
      assert members[n].0 != id;
    }
  }

  /** Each member's rows are those of its own sync. */
  lemma {:induction false} RowsOfMember(hash: RowDoc -> Hash, db: Store, members: seq<Fetched>, s: Setting, stamp: Stamp, k: nat)
    requires DistinctEntries(members) && k < |members|
    ensures DocsFor(RowsAfter(hash, db, members, s, stamp), members[k].0)
         == MemberAfter(hash, DocsFor(db, members[k].0), members[k].1, s, stamp)
  {
    var n := |members| - 1;
    if k == n {
      RowsOfOthers(hash, db, members[..n], s, stamp, members[k].0);
    } else {
      assert members[..n][k] == members[k];
      RowsOfMember(hash, db, members[..n], s, stamp, k);
    }
  }

  /** If no member brings evidence, the stage counts none. */
  lemma {:induction false} NothingCounted(hash: RowDoc -> Hash, db: Store, members: seq<Fetched>, s: Setting, stamp: Stamp, h: Hypothesis)
    requires DistinctEntries(members)
    requires forall k | 0 <= k < |members| :: MemberCount(hash, DocsFor(db, members[k].0), members[k].1, s, h) == 0
    ensures EvidenceOf(hash, db, members, s, stamp, h) == 0
  {
    if members != [] {
      var n := |members| - 1;
      assert forall k | 0 <= k < n :: members[..n][k] == members[k];
      NothingCounted(hash, db, members[..n], s, stamp, h);
      RowsOfOthers(hash, db, members[..n], s, stamp, members[n].0);
    }
  }

  // ---- the first sync ----

  /** What a fetched history proves, on its own. */
  function ProofOf(h: Hypothesis): Fetched -> int {
    (m: Fetched) =>
      if m.1.Some? && OneRowPerEvent(m.1.value)
      then ProbeCount(RowsOf(m.1.value.current), if h == GROSS then PROVES_GROSS else PROVES_NET) else 0
  }

  ghost predicate HitsArePaid(members: seq<Fetched>) {
    forall k | 0 <= k < |members| && members[k].1.Some? :: forall r | r in RowsOf(members[k].1.value.current) :: r.cost >= 0
  }

  lemma FirstMemberCount(hash: RowDoc -> Hash, m: Fetched, s: Setting, h: Hypothesis)
    requires CollisionFree(hash) && (h == GROSS || h == NET)
    requires m.1.Some? ==> forall r | r in RowsOf(m.1.value.current) :: r.cost >= 0
    ensures MemberCount(hash, map[], m.1, s, h) == ProofOf(h)(m)
  {
    if m.1.Some? && OneRowPerEvent(m.1.value) {
      FirstSyncCountsAll(hash, m.1.value, s, h);
    }
  }

  /** On an empty store the stage counts, over the fetched members, all the evidence of their histories. */
  lemma {:induction false} FirstStageCountsAll(hash: RowDoc -> Hash, members: seq<Fetched>, s: Setting, stamp: Stamp, h: Hypothesis)
    requires CollisionFree(hash) && DistinctEntries(members) && HitsArePaid(members) && (h == GROSS || h == NET)
    ensures EvidenceOf(hash, map[], members, s, stamp, h) == Sum(Map(members, ProofOf(h)))
  {
    if members != [] {
      var n := |members| - 1;
      assert forall k | 0 <= k < n :: members[..n][k] == members[k];
      FirstStageCountsAll(hash, members[..n], s, stamp, h);
      RowsOfOthers(hash, map[], members[..n], s, stamp, members[n].0);
      FirstMemberCount(hash, members[n], s, h);
      SumOfMapLast(members, ProofOf(h));
    }
  }

  /** So the first sync of a group sets the season to what all its histories prove together. */
  lemma FirstSyncSetsVerdict(hash: RowDoc -> Hash, event: int, members: seq<Fetched>, c: Call)
    requires CollisionFree(hash) && DistinctEntries(members) && HitsArePaid(members)
    ensures Sum(Map(members, ProofOf(GROSS))) >= 0 && Sum(Map(members, ProofOf(NET))) >= 0
    ensures SyncOnce(hash, Stage(map[], Semantics.Initial), event, members, c).season.value
         == Semantics.Verdict(Sum(Map(members, ProofOf(GROSS))), Sum(Map(members, ProofOf(NET))))
  {
    var s := SettingOf(event, Semantics.Initial, c);
    FirstStageCountsAll(hash, members, s, c.stamp, GROSS);
    FirstStageCountsAll(hash, members, s, c.stamp, NET);
  }

  // ---- repeated syncs ----

  ghost predicate AllMatch(hash: RowDoc -> Hash, db: Store, members: seq<Fetched>) {
    forall k | 0 <= k < |members| :: HashesMatch(hash, DocsFor(db, members[k].0))
  }

  lemma MemberStillMatches(hash: RowDoc -> Hash, docs: Docs<RowDoc>, resp: Option<Response>, s: Setting, stamp: Stamp)
    requires CollisionFree(hash) && HashesMatch(hash, docs)
    ensures HashesMatch(hash, MemberAfter(hash, docs, resp, s, stamp))
  {
    if resp.Some? && OneRowPerEvent(resp.value) {
      HashesStillMatch(hash, docs, resp.value, s, stamp);
    }
  }

  lemma SyncKeepsMatch(hash: RowDoc -> Hash, db: Stage, event: int, members: seq<Fetched>, c: Call)
    requires CollisionFree(hash) && DistinctEntries(members) && AllMatch(hash, db.rows, members)
    ensures AllMatch(hash, SyncOnce(hash, db, event, members, c).rows, members)
  {
    var s := SettingOf(event, db.season, c);
    forall k | 0 <= k < |members| ensures HashesMatch(hash, DocsFor(SyncOnce(hash, db, event, members, c).rows, members[k].0)) {
      RowsOfMember(hash, db.rows, members, s, c.stamp, k);
      MemberStillMatches(hash, DocsFor(db.rows, members[k].0), members[k].1, s, c.stamp);
    }
  }

  lemma {:induction false} SyncsKeepMatch(hash: RowDoc -> Hash, db: Stage, event: int, members: seq<Fetched>, calls: seq<Call>)
    requires CollisionFree(hash) && DistinctEntries(members) && AllMatch(hash, db.rows, members)
    ensures AllMatch(hash, AfterSyncs(hash, db, event, members, calls).rows, members)
  {
    if calls != [] {
      var n := |calls| - 1;
      SyncsKeepMatch(hash, db, event, members, calls[..n]);
      SyncKeepsMatch(hash, AfterSyncs(hash, db, event, members, calls[..n]), event, members, calls[n]);
    }
  }

  /** A member synced before brings no evidence, under any verdict and states. */
  lemma NoEvidenceAgain(hash: RowDoc -> Hash, docs: Docs<RowDoc>, resp: Option<Response>, s: Setting, later: Setting, stamp: Stamp, h: Hypothesis)
    requires CollisionFree(hash) && HashesMatch(hash, docs)
    ensures MemberCount(hash, MemberAfter(hash, docs, resp, s, stamp), resp, later, h) == 0
  {
    if resp.Some? && OneRowPerEvent(resp.value) {
      ReplayAddsNoEvidence(hash, docs, resp.value, s, later, stamp);
    }
  }

  /** So the stage counts nothing after a sync of the same responses, and leaves the season alone. */
  lemma SecondSyncCountsNothing(hash: RowDoc -> Hash, db: Stage, event: int, members: seq<Fetched>, c: Call, s: Setting, stamp: Stamp, h: Hypothesis)
    requires CollisionFree(hash) && DistinctEntries(members) && AllMatch(hash, db.rows, members)
    ensures EvidenceOf(hash, SyncOnce(hash, db, event, members, c).rows, members, s, stamp, h) == 0
  {
    var before := SettingOf(event, db.season, c);
    var after := SyncOnce(hash, db, event, members, c).rows;
    forall k | 0 <= k < |members| ensures MemberCount(hash, DocsFor(after, members[k].0), members[k].1, s, h) == 0 {
      RowsOfMember(hash, db.rows, members, before, c.stamp, k);
      NoEvidenceAgain(hash, DocsFor(db.rows, members[k].0), members[k].1, before, s, c.stamp, h);
    }
    NothingCounted(hash, after, members, s, stamp, h);
  }

  /** What sync n starts from, and the setting it runs in. */
  function BeforeSync(hash: RowDoc -> Hash, db: Stage, event: int, members: seq<Fetched>, calls: seq<Call>, n: nat): Stage
    requires n <= |calls|
  {
    AfterSyncs(hash, db, event, members, calls[..n])
  }

  function SettingAt(hash: RowDoc -> Hash, db: Stage, event: int, members: seq<Fetched>, calls: seq<Call>, n: nat): Setting
    requires n < |calls|
  {
    SettingOf(event, BeforeSync(hash, db, event, members, calls, n).season, calls[n])
  }

  lemma NextSync(hash: RowDoc -> Hash, db: Stage, event: int, members: seq<Fetched>, calls: seq<Call>, n: nat)
    requires n < |calls|
    ensures BeforeSync(hash, db, event, members, calls, n + 1) == SyncOnce(hash, BeforeSync(hash, db, event, members, calls, n), event, members, calls[n])
  {
    assert calls[..n + 1][..n] == calls[..n];
  }

  /** From the second sync on nothing is counted, and the season stays as the first one left it. */
  lemma {:induction false} NoEvidenceFromSecond(hash: RowDoc -> Hash, db: Stage, event: int, members: seq<Fetched>, calls: seq<Call>, n: nat, h: Hypothesis)
    requires CollisionFree(hash) && DistinctEntries(members) && AllMatch(hash, db.rows, members)
    requires 1 <= n < |calls|
    ensures EvidenceOf(hash, BeforeSync(hash, db, event, members, calls, n).rows, members, SettingAt(hash, db, event, members, calls, n), calls[n].stamp, h) == 0
    ensures BeforeSync(hash, db, event, members, calls, n).season == BeforeSync(hash, db, event, members, calls, 1).season
  {
    SyncsKeepMatch(hash, db, event, members, calls[..n - 1]);
    NextSync(hash, db, event, members, calls, n - 1);
    var before := BeforeSync(hash, db, event, members, calls, n - 1);
    SecondSyncCountsNothing(hash, before, event, members, calls[n - 1], SettingAt(hash, db, event, members, calls, n), calls[n].stamp, h);
    if n > 1 {
      NoEvidenceFromSecond(hash, db, event, members, calls, n - 1, GROSS);
      NoEvidenceFromSecond(hash, db, event, members, calls, n - 1, NET);
    }
  }

  /** Every row this sync writes for the member is reported unchanged. */
  ghost predicate AllUnchanged(hash: RowDoc -> Hash, docs: Docs<RowDoc>, resp: Response, s: Setting) {
    forall k | 0 <= k < |SeasonRows(docs, resp, s)| :: IsUnchanged(hash, docs, ItemOf(SeasonRows(docs, resp, s)[k]))
  }

  lemma MemberIsUnchanged(hash: RowDoc -> Hash, docs: Docs<RowDoc>, resp: Response, s: Setting, later: Setting, stamp: Stamp)
    requires CollisionFree(hash) && HashesMatch(hash, docs) && OneRowPerEvent(resp)
    requires s.event == later.event && s.seasonSemantics == later.seasonSemantics && SameChecked(s.eventStates, later.eventStates)
    ensures AllUnchanged(hash, Synced(hash, docs, resp, s, stamp), resp, later)
  {
    forall k | 0 <= k < |SeasonRows(Synced(hash, docs, resp, s, stamp), resp, later)|
      ensures IsUnchanged(hash, Synced(hash, docs, resp, s, stamp), ItemOf(SeasonRows(Synced(hash, docs, resp, s, stamp), resp, later)[k]))
    {
      RepeatIsUnchanged(hash, docs, resp, s, later, stamp, k);
    }
  }

  /**
   Replay convergence, for every group, any number of syncs of identical responses and whatever was stored
   before. The first sync may flip the season's verdict and the second may still change rows under it; but
   from the second on no evidence is counted and the season stays as it is, and from the third on every
   row of every member is reported unchanged whenever no event became or ceased to be DATA_CHECKED since the
   sync before.
   */
  lemma {:induction false} ReplayConverges(hash: RowDoc -> Hash, db: Stage, event: int, members: seq<Fetched>, calls: seq<Call>, n: nat)
    requires CollisionFree(hash) && DistinctEntries(members) && AllMatch(hash, db.rows, members)
    requires 1 <= n < |calls|
    ensures EvidenceOf(hash, BeforeSync(hash, db, event, members, calls, n).rows, members, SettingAt(hash, db, event, members, calls, n), calls[n].stamp, GROSS) == 0
    ensures EvidenceOf(hash, BeforeSync(hash, db, event, members, calls, n).rows, members, SettingAt(hash, db, event, members, calls, n), calls[n].stamp, NET) == 0
    ensures BeforeSync(hash, db, event, members, calls, n).season == BeforeSync(hash, db, event, members, calls, 1).season
    ensures n >= 2 && SameChecked(calls[n - 1].eventStates, calls[n].eventStates) ==>
      forall k | 0 <= k < |members| && members[k].1.Some? && OneRowPerEvent(members[k].1.value) ::
        AllUnchanged(hash, DocsFor(BeforeSync(hash, db, event, members, calls, n).rows, members[k].0), members[k].1.value, SettingAt(hash, db, event, members, calls, n))
  {
    NoEvidenceFromSecond(hash, db, event, members, calls, n, GROSS);
    NoEvidenceFromSecond(hash, db, event, members, calls, n, NET);
    if n >= 2 && SameChecked(calls[n - 1].eventStates, calls[n].eventStates) {
      forall k | 0 <= k < |members| && members[k].1.Some? && OneRowPerEvent(members[k].1.value)
        ensures AllUnchanged(hash, DocsFor(BeforeSync(hash, db, event, members, calls, n).rows, members[k].0), members[k].1.value, SettingAt(hash, db, event, members, calls, n))
      {
        UnchangedFromThird(hash, db, event, members, calls, n, k);
      }
    }
  }

  lemma UnchangedFromThird(hash: RowDoc -> Hash, db: Stage, event: int, members: seq<Fetched>, calls: seq<Call>, n: nat, k: nat)
    requires CollisionFree(hash) && DistinctEntries(members) && AllMatch(hash, db.rows, members)
    requires 2 <= n < |calls| && SameChecked(calls[n - 1].eventStates, calls[n].eventStates)
    requires k < |members| && members[k].1.Some? && OneRowPerEvent(members[k].1.value)
    ensures AllUnchanged(hash, DocsFor(BeforeSync(hash, db, event, members, calls, n).rows, members[k].0), members[k].1.value, SettingAt(hash, db, event, members, calls, n))
  {
    var before := BeforeSync(hash, db, event, members, calls, n - 1);
    var s, later := SettingAt(hash, db, event, members, calls, n - 1), SettingAt(hash, db, event, members, calls, n);
    NoEvidenceFromSecond(hash, db, event, members, calls, n - 1, GROSS);
    NoEvidenceFromSecond(hash, db, event, members, calls, n, GROSS);
    NextSync(hash, db, event, members, calls, n - 1);
    RowsOfMember(hash, before.rows, members, s, calls[n - 1].stamp, k);
    SyncsKeepMatch(hash, db, event, members, calls[..n - 1]);
    MemberIsUnchanged(hash, DocsFor(before.rows, members[k].0), members[k].1.value, s, later, calls[n - 1].stamp);
  }
}
