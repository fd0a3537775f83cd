/**
 One entry's season rows, rebuilt on every sync (buildSeasonRows in server/src/sync/normalize.js,
 writeMember and the evidence loop of membersSyncStage in server/src/sync/syncService.js), and what a
 replay of identical responses does to the stored rows.
 */
module Replay {
  import opened Wrappers
  import opened Sorting
  import opened Points
  import opened Reconcile
  import opened SnapshotUpsert

  /** One gameweek of history.current; `rest` is the text of the columns stored as they come. */
  datatype HistoryGw = HistoryGw(row: HistoryRow, rest: string)

  /** A picks response; `squad` is the text of its picks and auto-subs. */
  datatype Picks = Picks(squad: string, activeChip: Option<string>, picksPoints: int)

  /** What FPL answered for one entry; no picks when there are none for the synced event. */
  datatype Response = Response(current: seq<HistoryGw>, chips: seq<(int, string)>, picks: Option<Picks>)

  /** A managerGameweeks document, keyed by its event. */
  datatype RowDoc = RowDoc(points: Normalized, rest: string, activeChip: Option<string>, hasPicks: bool, squad: string)

  /** What else a sync knows: the synced event, the season's verdict and the event states. */
  datatype Setting = Setting(event: int, seasonSemantics: PointsSemantics, eventStates: map<int, EventState>)

  function Prev(docs: Docs<RowDoc>, event: int): Option<RowDoc> {
    if event in docs then Some(docs[event].data) else None
  }

  function ChipAt(chips: seq<(int, string)>, event: int): Option<string> {
    if chips == [] then None
    else if chips[|chips| - 1].0 == event then Some(chips[|chips| - 1].1)
    else ChipAt(chips[..|chips| - 1], event)
  }

  function RestAt(current: seq<HistoryGw>, event: int): string {
    if current == [] then ""
    else if current[|current| - 1].row.event == event then current[|current| - 1].rest
    else RestAt(current[..|current| - 1], event)
  }

  /** Rpicks: of the synced event from its response, of the others from the stored rows. */
  function PicksPoints(docs: Docs<RowDoc>, event: int, picks: Option<Picks>): map<int, int> {
    var carried := map e | e in docs && docs[e].data.points.picksPoints.Some? && e != event :: docs[e].data.points.picksPoints.value;
    match picks case Some(p) => carried[event := p.picksPoints] case None => carried
  }

  function RowsOf(current: seq<HistoryGw>): seq<HistoryRow> {
    Map(current, (h: HistoryGw) => h.row)
  }

  function ContextOf(docs: Docs<RowDoc>, resp: Response, s: Setting): Context {
    Context(PicksPoints(docs, s.event, resp.picks), s.seasonSemantics, s.eventStates)
  }

  function Normalize(docs: Docs<RowDoc>, resp: Response, s: Setting): seq<Normalized> {
    ReconcileSeason(RowsOf(resp.current), ContextOf(docs, resp, s)).rows
  }

  /** One stored row: the synced event takes its squad from the response, the others keep theirs. */
  function RowFor(n: Normalized, docs: Docs<RowDoc>, resp: Response, event: int): RowDoc {
    var chip := if n.event == event && resp.picks.Some? then resp.picks.value.activeChip else ChipAt(resp.chips, n.event);
    var rest := RestAt(resp.current, n.event);
    if n.event == event then
      match resp.picks
      case Some(p) => RowDoc(n, rest, chip, true, p.squad)
      case None => RowDoc(n, rest, chip, false, "")
    else
      match Prev(docs, n.event)
      case Some(prev) => RowDoc(n, rest, chip, prev.hasPicks, prev.squad)
      case None => RowDoc(n, rest, chip, false, "")
  }

  function SeasonRows(docs: Docs<RowDoc>, resp: Response, s: Setting): (rows: seq<RowDoc>)
    ensures |rows| == |Normalize(docs, resp, s)|
    ensures forall k | 0 <= k < |rows| :: rows[k].points == Normalize(docs, resp, s)[k]
  {
    Map(Normalize(docs, resp, s), (n: Normalized) => RowFor(n, docs, resp, s.event))
  }

  /** The points inputs: R, C, T, Tprev. */
  predicate SamePointsKey(a: Normalized, b: Normalized) {
    && a.reportedGwPoints == b.reportedGwPoints && a.transferCost == b.transferCost
    && a.totalPoints == b.totalPoints && a.previousTotalPoints == b.previousTotalPoints
  }

  /** A row that can prove semantics and whose points inputs are new to the database. */
  predicate IsCandidate(n: Normalized, docs: Docs<RowDoc>) {
    && n.transferCost > 0 && (n.hypothesis == GROSS || n.hypothesis == NET)
    && (Prev(docs, n.event).None? || !SamePointsKey(Prev(docs, n.event).value.points, n))
  }

  function Candidates(rows: seq<Normalized>, docs: Docs<RowDoc>): seq<Normalized> {
    Filter(rows, (n: Normalized) => IsCandidate(n, docs))
  }

  /** buildSeasonRows */
  method BuildSeasonRows(docs: Docs<RowDoc>, resp: Response, s: Setting) returns (rows: seq<RowDoc>, candidates: seq<Normalized>)
    ensures rows == SeasonRows(docs, resp, s)
    ensures candidates == Candidates(Normalize(docs, resp, s), docs)
  {
    rows, candidates := BuildEach(Normalize(docs, resp, s), docs, resp, s.event);
  }

  lemma CandidatesOfNext(rows: seq<Normalized>, k: nat, docs: Docs<RowDoc>)
    requires k < |rows|
    ensures Candidates(rows[..k + 1], docs) == Candidates(rows[..k], docs) + (if IsCandidate(rows[k], docs) then [rows[k]] else [])
  {
    assert rows[..k + 1] == rows[..k] + [rows[k]];
    FilterOfAppend(rows[..k], rows[k], (n: Normalized) => IsCandidate(n, docs));
  }

  /** Its loop over the reconciled rows. */
  method BuildEach(normalized: seq<Normalized>, docs: Docs<RowDoc>, resp: Response, event: int)
    returns (rows: seq<RowDoc>, candidates: seq<Normalized>)
    ensures rows == Map(normalized, (n: Normalized) => RowFor(n, docs, resp, event))
    ensures candidates == Candidates(normalized, docs)
  {
    rows, candidates := [], [];
    for k := 0 to |normalized|
      invariant |rows| == k && forall j | 0 <= j < k :: rows[j] == RowFor(normalized[j], docs, resp, event)
      invariant candidates == Candidates(normalized[..k], docs)
    {
      CandidatesOfNext(normalized, k, docs);
      rows := rows + [RowFor(normalized[k], docs, resp, event)];
      if IsCandidate(normalized[k], docs) {
        candidates := candidates + [normalized[k]];
      }
    }
    assert normalized[..|normalized|] == normalized;
  }

  function ItemOf(row: RowDoc): Item<RowDoc> {
    Item(row.points.event, row, map[], false)
  }

  function ItemsOf(rows: seq<RowDoc>): (items: seq<Item<RowDoc>>)
    ensures |items| == |rows| && forall k | 0 <= k < |rows| :: items[k] == ItemOf(rows[k])
  {
    Map(rows, (r: RowDoc) => ItemOf(r))
  }

  predicate CountsAs(h: Hypothesis, n: Normalized, lists: Lists) {
    n.hypothesis == h && (n.event in lists.inserted || n.event in lists.changed)
  }

  /** The evidence of one written member: candidates whose row was inserted or changed. */
  function EvidenceCount(candidates: seq<Normalized>, lists: Lists, h: Hypothesis): nat {
    |Filter(candidates, (n: Normalized) => CountsAs(h, n, lists))|
  }

  /** The stored rows after a sync of the entry. */
  function Synced(hash: RowDoc -> Hash, docs: Docs<RowDoc>, resp: Response, s: Setting, stamp: Stamp): Docs<RowDoc> {
    WriteAll(hash, docs, ItemsOf(SeasonRows(docs, resp, s)), stamp)
  }

  /** writeMember and its share of the evidence counters. A history with a repeated event fails the write. */
  method WriteMember(hash: RowDoc -> Hash, store: Collection<RowDoc>, resp: Response, s: Setting, stamp: Stamp)
    returns (r: Result<Lists, string>, gross: nat, net: nat)
    modifies store
    ensures r.Ok? <==> DistinctItems(ItemsOf(SeasonRows(old(store.docs), resp, s)))
    ensures r.Err? ==> store.docs == old(store.docs) && gross == net == 0
    ensures r.Ok? ==>
      var docs := old(store.docs);
      var candidates := Candidates(Normalize(docs, resp, s), docs);
      && store.docs == Synced(hash, docs, resp, s, stamp)
      && r.value == ListOf(hash, docs, ItemsOf(SeasonRows(docs, resp, s)))
      && gross == EvidenceCount(candidates, r.value, GROSS) && net == EvidenceCount(candidates, r.value, NET)
  {
    var rows, candidates := BuildSeasonRows(store.docs, resp, s);
    r := store.UpsertSnapshots(hash, ItemsOf(rows), stamp);
    gross, net := 0, 0;
    if r.Ok? {
      gross, net := CountEvidence(candidates, r.value);
    }
  }

  method CountEvidence(candidates: seq<Normalized>, lists: Lists) returns (gross: nat, net: nat)
    requires forall n | n in candidates :: n.hypothesis == GROSS || n.hypothesis == NET
    ensures gross == EvidenceCount(candidates, lists, GROSS) && net == EvidenceCount(candidates, lists, NET)
  {
    gross, net := 0, 0;
    for k := 0 to |candidates|
      invariant gross == EvidenceCount(candidates[..k], lists, GROSS) && net == EvidenceCount(candidates[..k], lists, NET)
    {
      var n := candidates[k];
      assert n in candidates && candidates[..k + 1] == candidates[..k] + [n];
      FilterOfAppend(candidates[..k], n, (x: Normalized) => CountsAs(GROSS, x, lists));
      FilterOfAppend(candidates[..k], n, (x: Normalized) => CountsAs(NET, x, lists));
      if n.event in lists.inserted || n.event in lists.changed {
        if n.hypothesis == GROSS {
          gross := gross + 1;
        } else {
          net := net + 1;
        }
      }
    }
    assert candidates[..|candidates|] == candidates;
  }

  // ---- what a rebuilt row holds ----

  predicate DistinctChips(chips: seq<(int, string)>) {
    forall i, j | 0 <= i < j < |chips| :: chips[i].0 != chips[j].0
  }

  lemma {:induction false} ChipAtIs(chips: seq<(int, string)>, event: int, chip: string)
    requires DistinctChips(chips)
    ensures ChipAt(chips, event) == Some(chip) <==> exists k :: 0 <= k < |chips| && chips[k] == (event, chip)
  {
    if chips != [] {
      var n := |chips| - 1;
      ChipAtIs(chips[..n], event, chip);
      if k :| 0 <= k < n && chips[k] == (event, chip) {
        assert chips[..n][k] == chips[k];
      }
      if k :| 0 <= k < n && chips[..n][k] == (event, chip) {
        assert chips[k] == (event, chip);
      }
    }
  }

  lemma {:induction false} RestAtIs(current: seq<HistoryGw>, k: nat)
    requires DistinctEvents(RowsOf(current)) && k < |current|
    ensures RestAt(current, current[k].row.event) == current[k].rest
  {
    var n := |current| - 1;
    if k < n {
      assert EventOf()(RowsOf(current)[k]) != EventOf()(RowsOf(current)[n]);
      assert RowsOf(current[..n]) == RowsOf(current)[..n];
      RestAtIs(current[..n], k);
    }
  }

  /** Of the synced event a row holds the squad and chip of the picks response, of another what was stored and the chip list. */
  predicate SquadShown(row: RowDoc, docs: Docs<RowDoc>, resp: Response, event: int) {
    var e := row.points.event;
    && (e == event && resp.picks.Some? ==>
          row.hasPicks && row.squad == resp.picks.value.squad && row.activeChip == resp.picks.value.activeChip
          && row.points.picksPoints == Some(resp.picks.value.picksPoints))
    && (e == event && resp.picks.None? ==> !row.hasPicks && row.squad == "" && row.points.picksPoints == None)
    && (e != event && e in docs ==>
          row.hasPicks == docs[e].data.hasPicks && row.squad == docs[e].data.squad && row.points.picksPoints == docs[e].data.points.picksPoints)
    && (e != event && e !in docs ==> !row.hasPicks && row.squad == "" && row.points.picksPoints == None)
  }

  /** The history columns of the row's event, and its chip where the picks response does not say. */
  ghost predicate HistoryShown(row: RowDoc, resp: Response, event: int) {
    && (exists k :: 0 <= k < |resp.current| && resp.current[k].row == SourceOf(row.points) && resp.current[k].rest == row.rest)
    && (row.points.event != event || resp.picks.None? ==>
          forall chip :: row.activeChip == Some(chip) <==> exists k :: 0 <= k < |resp.chips| && resp.chips[k] == (row.points.event, chip))
  }

  lemma RowIsFor(docs: Docs<RowDoc>, resp: Response, s: Setting, k: nat)
    requires k < |SeasonRows(docs, resp, s)|
    ensures var n := Normalize(docs, resp, s)[k];
      SeasonRows(docs, resp, s)[k] == RowFor(n, docs, resp, s.event) && n in Normalize(docs, resp, s)
  {
  }

  /** What a sync stores of each event. */
  lemma RowsHoldResponse(docs: Docs<RowDoc>, resp: Response, s: Setting, k: nat)
    requires OneRowPerEvent(resp) && DistinctChips(resp.chips) && k < |SeasonRows(docs, resp, s)|
    ensures SquadShown(SeasonRows(docs, resp, s)[k], docs, resp, s.event)
    ensures HistoryShown(SeasonRows(docs, resp, s)[k], resp, s.event)
  {
    RowIsFor(docs, resp, s, k);
    var n := Normalize(docs, resp, s)[k];
    var row, previous, applied := RowOf(RowsOf(resp.current), ContextOf(docs, resp, s), n);
    var j :| 0 <= j < |resp.current| && RowsOf(resp.current)[j] == row;
    RestAtIs(resp.current, j);
    forall chip ensures ChipAt(resp.chips, n.event) == Some(chip) <==> exists i :: 0 <= i < |resp.chips| && resp.chips[i] == (n.event, chip) {
      ChipAtIs(resp.chips, n.event, chip);
    }
    PicksOfRow(docs, resp, s, n);
  }

  lemma PicksOfRow(docs: Docs<RowDoc>, resp: Response, s: Setting, n: Normalized)
    requires n in Normalize(docs, resp, s)
    ensures n.picksPoints ==
      if n.event == s.event then (match resp.picks case Some(p) => Some(p.picksPoints) case None => None)
      else if n.event in docs then docs[n.event].data.points.picksPoints else None
  {
    var row, previous, applied := RowOf(RowsOf(resp.current), ContextOf(docs, resp, s), n);
    SemanticsOfRow(row, previous, applied, ContextOf(docs, resp, s));
  }

  // ---- what a sync counts ----

  /** A hit row whose season total moved by exactly the points less the hit, or by exactly the points. */
  predicate ProvesFor(n: Normalized, h: Hypothesis) {
    && n.transferCost > 0 && n.previousTotalPoints.Some?
    && ((h == GROSS && n.totalPoints - n.previousTotalPoints.value == n.reportedGwPoints - n.transferCost)
        || (h == NET && n.totalPoints - n.previousTotalPoints.value == n.reportedGwPoints))
  }

  /** A stored row of the event was built from the same points, hit and totals. */
  predicate StoredAlready(n: Normalized, docs: Docs<RowDoc>) {
    && n.event in docs
    && docs[n.event].data.points.reportedGwPoints == n.reportedGwPoints
    && docs[n.event].data.points.transferCost == n.transferCost
    && docs[n.event].data.points.totalPoints == n.totalPoints
    && docs[n.event].data.points.previousTotalPoints == n.previousTotalPoints
  }

  lemma HypothesisMeans(docs: Docs<RowDoc>, resp: Response, s: Setting, n: Normalized, h: Hypothesis)
    requires n in Normalize(docs, resp, s) && (h == GROSS || h == NET)
    ensures ProvesFor(n, h) <==> n.transferCost > 0 && n.hypothesis == h
  {
    var row, previous, applied := RowOf(RowsOf(resp.current), ContextOf(docs, resp, s), n);
  }

  lemma CandidateMeans(docs: Docs<RowDoc>, resp: Response, s: Setting, n: Normalized, h: Hypothesis)
    requires n in Normalize(docs, resp, s) && (h == GROSS || h == NET)
    ensures IsCandidate(n, docs) && n.hypothesis == h <==> ProvesFor(n, h) && !StoredAlready(n, docs)
  {
    HypothesisMeans(docs, resp, s, n, h);
  }

  lemma StoredRowHasInputs(hash: RowDoc -> Hash, docs: Docs<RowDoc>, row: RowDoc)
    requires HashesMatch(hash, docs) && CollisionFree(hash) && IsUnchanged(hash, docs, ItemOf(row))
    ensures StoredAlready(row.points, docs)
  {
    assert hash(docs[row.points.event].data) == hash(row);
  }

  /** A row with other inputs than the stored one is written. */
  lemma NewInputsAreWritten(hash: RowDoc -> Hash, docs: Docs<RowDoc>, resp: Response, s: Setting, n: Normalized)
    requires OneRowPerEvent(resp) && HashesMatch(hash, docs) && CollisionFree(hash)
    requires n in Normalize(docs, resp, s) && !StoredAlready(n, docs)
    ensures var l := ListOf(hash, docs, ItemsOf(SeasonRows(docs, resp, s))); n.event in l.inserted || n.event in l.changed
  {
    var rows := SeasonRows(docs, resp, s);
    var k :| 0 <= k < |rows| && Normalize(docs, resp, s)[k] == n;
    RowsAreDistinct(docs, resp, s);
    var item := ItemOf(rows[k]);
    assert item in ItemsOf(rows) by {
      assert ItemsOf(rows)[k] == item;
    }
    ListsSay(hash, docs, ItemsOf(rows), item);
    if IsUnchanged(hash, docs, item) {
      StoredRowHasInputs(hash, docs, rows[k]);
    }
  }

  /** Evidence for a hypothesis that is new to the database. */
  function NewProof(docs: Docs<RowDoc>, h: Hypothesis): Normalized -> bool {
    (n: Normalized) => ProvesFor(n, h) && !StoredAlready(n, docs)
  }

  lemma CountIsFilter(rows: seq<Normalized>, docs: Docs<RowDoc>, lists: Lists, h: Hypothesis, p: Normalized -> bool)
    requires forall n | n in rows :: p(n) == (IsCandidate(n, docs) && CountsAs(h, n, lists))
    ensures EvidenceCount(Candidates(rows, docs), lists, h) == |Filter(rows, p)|
  {
    FilterTwice(rows, (n: Normalized) => IsCandidate(n, docs), (n: Normalized) => CountsAs(h, n, lists));
    FilterCongruence(rows, p, (n: Normalized) => IsCandidate(n, docs) && CountsAs(h, n, lists));
  }

  lemma CountedIsNewProof(hash: RowDoc -> Hash, docs: Docs<RowDoc>, resp: Response, s: Setting, h: Hypothesis, n: Normalized)
    requires OneRowPerEvent(resp) && HashesMatch(hash, docs) && CollisionFree(hash) && (h == GROSS || h == NET)
    requires n in Normalize(docs, resp, s)
    ensures NewProof(docs, h)(n) == (IsCandidate(n, docs) && CountsAs(h, n, ListOf(hash, docs, ItemsOf(SeasonRows(docs, resp, s)))))
  {
    CandidateMeans(docs, resp, s, n, h);
    if !StoredAlready(n, docs) {
      NewInputsAreWritten(hash, docs, resp, s, n);
    }
  }

  /**
   What the write of a member counts: exactly the rows of its history that prove the hypothesis and whose
   points, hit and totals are not what is stored of their event.
   */
  lemma EvidenceIsNewProof(hash: RowDoc -> Hash, docs: Docs<RowDoc>, resp: Response, s: Setting, h: Hypothesis)
    requires OneRowPerEvent(resp) && HashesMatch(hash, docs) && CollisionFree(hash) && (h == GROSS || h == NET)
    ensures EvidenceCount(Candidates(Normalize(docs, resp, s), docs), ListOf(hash, docs, ItemsOf(SeasonRows(docs, resp, s))), h)
         == |Filter(Normalize(docs, resp, s), NewProof(docs, h))|
  {
    var rows, lists := Normalize(docs, resp, s), ListOf(hash, docs, ItemsOf(SeasonRows(docs, resp, s)));
    forall n | n in rows ensures NewProof(docs, h)(n) == (IsCandidate(n, docs) && CountsAs(h, n, lists)) {
      CountedIsNewProof(hash, docs, resp, s, h, n);
    }
    CountIsFilter(rows, docs, lists, h, NewProof(docs, h));
  }

  /** The first sync of an entry counts exactly the evidence of its whole history, as the probe does. */
  lemma FirstSyncCountsAll(hash: RowDoc -> Hash, resp: Response, s: Setting, h: Hypothesis)
    requires OneRowPerEvent(resp) && CollisionFree(hash) && (h == GROSS || h == NET)
    requires forall r | r in RowsOf(resp.current) :: r.cost >= 0
    ensures EvidenceCount(Candidates(Normalize(map[], resp, s), map[]), ListOf(hash, map[], ItemsOf(SeasonRows(map[], resp, s))), h)
         == ProbeCount(RowsOf(resp.current), if h == GROSS then PROVES_GROSS else PROVES_NET)
  {
    EvidenceIsNewProof(hash, map[], resp, s, h);
    AllProofsAreNew(RowsOf(resp.current), ContextOf(map[], resp, s), h);
    EvidenceAgrees(RowsOf(resp.current), h);
  }

  lemma AllProofsAreNew(history: seq<HistoryRow>, ctx: Context, h: Hypothesis)
    requires h == GROSS || h == NET
    ensures |Filter(ReconcileSeason(history, ctx).rows, NewProof(map[], h))| == Evidence(SortByKey(history, EventOf()), h)
  {
    var sorted := SortByKey(history, EventOf());
    var applied := Applied(ctx.seasonSemantics, Evidence(sorted, GROSS), Evidence(sorted, NET));
    var f, p, q := (r: HistoryRow) => Reconcile.Normalize(r, Previous(sorted, r), applied, ctx), NewProof(map[], h), (r: HistoryRow) => Proves(h, r, Previous(sorted, r));
    forall r | r in sorted ensures p(f(r)) == q(r) {
      ProofIsNew(r, Previous(sorted, r), applied, ctx, h);
    }
    FilterOfMap(sorted, f, p, q);
  }

  lemma ProofIsNew(r: HistoryRow, previous: Option<int>, applied: PointsSemantics, ctx: Context, h: Hypothesis)
    requires h == GROSS || h == NET
    ensures NewProof(map[], h)(Reconcile.Normalize(r, previous, applied, ctx)) == Proves(h, r, previous)
  {
  }

  // ---- a replay ----

  predicate OneRowPerEvent(resp: Response) {
    DistinctEvents(RowsOf(resp.current))
  }

  /** With one row per event the rows have distinct events, so the write succeeds. */
  lemma RowsAreDistinct(docs: Docs<RowDoc>, resp: Response, s: Setting)
    requires OneRowPerEvent(resp)
    ensures DistinctItems(ItemsOf(SeasonRows(docs, resp, s)))
    ensures forall i, j | 0 <= i < j < |Normalize(docs, resp, s)| :: Normalize(docs, resp, s)[i].event != Normalize(docs, resp, s)[j].event
  {
    SortByKeyIsStrict(RowsOf(resp.current), EventOf());
    var sorted, rows := SortByKey(RowsOf(resp.current), EventOf()), Normalize(docs, resp, s);
    forall i, j | 0 <= i < j < |rows| ensures rows[i].event != rows[j].event {
      assert EventOf()(sorted[i]) < EventOf()(sorted[j]);
    }
  }

  /** What is stored of an event after a sync: the row just built, or what was there. */
  lemma StoredAfter(hash: RowDoc -> Hash, docs: Docs<RowDoc>, resp: Response, s: Setting, stamp: Stamp, event: int)
    requires OneRowPerEvent(resp) && HashesMatch(hash, docs) && CollisionFree(hash)
    ensures var rows, after := SeasonRows(docs, resp, s), Synced(hash, docs, resp, s, stamp);
      && (forall k | 0 <= k < |rows| && rows[k].points.event == event :: Prev(after, event) == Some(rows[k]))
      && ((forall k | 0 <= k < |rows| :: rows[k].points.event != event) ==> Prev(after, event) == Prev(docs, event))
      && (event in after ==> after[event].provenance.contentHash == hash(after[event].data))
  {
    RowsAreDistinct(docs, resp, s);
    BatchOfRows(hash, docs, SeasonRows(docs, resp, s), stamp, event);
  }

  lemma BatchOfRows(hash: RowDoc -> Hash, docs: Docs<RowDoc>, rows: seq<RowDoc>, stamp: Stamp, event: int)
    requires HashesMatch(hash, docs) && CollisionFree(hash) && DistinctItems(ItemsOf(rows))
    ensures var after := WriteAll(hash, docs, ItemsOf(rows), stamp);
      && (forall k | 0 <= k < |rows| && rows[k].points.event == event :: Prev(after, event) == Some(rows[k]))
      && ((forall k | 0 <= k < |rows| :: rows[k].points.event != event) ==> Prev(after, event) == Prev(docs, event))
      && (event in after ==> after[event].provenance.contentHash == hash(after[event].data))
  {
    var items := ItemsOf(rows);
    DataAfterBatch(hash, docs, items, stamp, event);
    forall k | 0 <= k < |rows| && rows[k].points.event == event
      ensures Prev(WriteAll(hash, docs, items, stamp), event) == Some(rows[k])
    {
      assert items[k].id == event;
    }
    if HasId(items, event) {
      var k :| 0 <= k < |items| && items[k].id == event;
      assert rows[k].points.event == event;
    }
  }

  /** What a rebuild takes from the stored rows of an event: its carried squad and Rpicks. */
  predicate SameCarry(a: Option<RowDoc>, b: Option<RowDoc>) {
    && (a.Some? && a.value.hasPicks) == (b.Some? && b.value.hasPicks)
    && (if a.Some? then a.value.squad else "") == (if b.Some? then b.value.squad else "")
    && (if a.Some? then a.value.points.picksPoints else None) == (if b.Some? then b.value.points.picksPoints else None)
  }

  /** A rebuilt row of another event carries what was stored. */
  lemma RowCarries(docs: Docs<RowDoc>, resp: Response, s: Setting, k: nat)
    requires k < |SeasonRows(docs, resp, s)| && SeasonRows(docs, resp, s)[k].points.event != s.event
    ensures SameCarry(Some(SeasonRows(docs, resp, s)[k]), Prev(docs, SeasonRows(docs, resp, s)[k].points.event))
  {
    var n := Normalize(docs, resp, s)[k];
    assert SeasonRows(docs, resp, s)[k] == RowFor(n, docs, resp, s.event);
    assert n.picksPoints == if n.event in PicksPoints(docs, s.event, resp.picks) then Some(PicksPoints(docs, s.event, resp.picks)[n.event]) else None;
  }

  lemma CarrySurvives(hash: RowDoc -> Hash, docs: Docs<RowDoc>, resp: Response, s: Setting, stamp: Stamp, event: int)
    requires OneRowPerEvent(resp) && HashesMatch(hash, docs) && CollisionFree(hash) && event != s.event
    ensures SameCarry(Prev(Synced(hash, docs, resp, s, stamp), event), Prev(docs, event))
  {
    StoredAfter(hash, docs, resp, s, stamp, event);
    if k :| 0 <= k < |SeasonRows(docs, resp, s)| && SeasonRows(docs, resp, s)[k].points.event == event {
      RowCarries(docs, resp, s, k);
    }
  }

  /** Two stored states with the same carried values rebuild to the same rows. */
  lemma RowsDependOnCarry(a: Docs<RowDoc>, b: Docs<RowDoc>, resp: Response, s: Setting)
    requires forall e | e != s.event :: SameCarry(Prev(a, e), Prev(b, e))
    ensures SeasonRows(a, resp, s) == SeasonRows(b, resp, s)
    ensures Normalize(a, resp, s) == Normalize(b, resp, s)
  {
    var pa, pb := PicksPoints(a, s.event, resp.picks), PicksPoints(b, s.event, resp.picks);
    forall e ensures e in pa <==> e in pb {
      assert e != s.event ==> SameCarry(Prev(a, e), Prev(b, e));
    }
    forall e | e in pa ensures pa[e] == pb[e] {
      assert e != s.event ==> SameCarry(Prev(a, e), Prev(b, e));
    }
    assert pa == pb;
    var rows := Normalize(a, resp, s);
    forall k | 0 <= k < |rows| ensures RowFor(rows[k], a, resp, s.event) == RowFor(rows[k], b, resp, s.event) {
      assert rows[k].event != s.event ==> SameCarry(Prev(a, rows[k].event), Prev(b, rows[k].event));
    }
  }

  /** After a sync, rebuilding from the same responses gives the same rows, under any later verdict and states. */
  lemma RebuildIsStable(hash: RowDoc -> Hash, docs: Docs<RowDoc>, resp: Response, s: Setting, later: Setting, stamp: Stamp)
    requires OneRowPerEvent(resp) && HashesMatch(hash, docs) && CollisionFree(hash) && s.event == later.event
    ensures SeasonRows(Synced(hash, docs, resp, s, stamp), resp, later) == SeasonRows(docs, resp, later)
    ensures Normalize(Synced(hash, docs, resp, s, stamp), resp, later) == Normalize(docs, resp, later)
  {
    forall e | e != later.event ensures SameCarry(Prev(Synced(hash, docs, resp, s, stamp), e), Prev(docs, e)) {
      CarrySurvives(hash, docs, resp, s, stamp, e);
    }
    RowsDependOnCarry(Synced(hash, docs, resp, s, stamp), docs, resp, later);
  }

  lemma KeysComeFromHistory(a: Docs<RowDoc>, b: Docs<RowDoc>, resp: Response, s: Setting, t: Setting, k: nat)
    requires k < |Normalize(a, resp, s)|
    ensures |Normalize(a, resp, s)| == |Normalize(b, resp, t)|
    ensures SamePointsKey(Normalize(a, resp, s)[k], Normalize(b, resp, t)[k])
    ensures Normalize(a, resp, s)[k].event == Normalize(b, resp, t)[k].event
  {
  }

  /**
   A second sync of identical responses has no evidence candidates, even when the season's verdict or
   the event states changed in between.
   */
  lemma ReplayAddsNoEvidence(hash: RowDoc -> Hash, docs: Docs<RowDoc>, resp: Response, s: Setting, later: Setting, stamp: Stamp)
    requires OneRowPerEvent(resp) && HashesMatch(hash, docs) && CollisionFree(hash)
    ensures var after := Synced(hash, docs, resp, s, stamp); Candidates(Normalize(after, resp, later), after) == []
  {
    var after := Synced(hash, docs, resp, s, stamp);
    var rows := Normalize(after, resp, later);
    forall n | n in rows ensures !IsCandidate(n, after) {
      var k :| 0 <= k < |rows| && rows[k] == n;
      KeysComeFromHistory(after, docs, resp, later, s, k);
      StoredAfter(hash, docs, resp, s, stamp, n.event);
      assert SeasonRows(docs, resp, s)[k].points == Normalize(docs, resp, s)[k];
    }
    NothingPasses(rows, (n: Normalized) => IsCandidate(n, after));
  }

  lemma HashesStillMatch(hash: RowDoc -> Hash, docs: Docs<RowDoc>, resp: Response, s: Setting, stamp: Stamp)
    requires OneRowPerEvent(resp) && HashesMatch(hash, docs) && CollisionFree(hash)
    ensures HashesMatch(hash, Synced(hash, docs, resp, s, stamp))
  {
    forall e | e in Synced(hash, docs, resp, s, stamp)
      ensures Synced(hash, docs, resp, s, stamp)[e].provenance.contentHash == hash(Synced(hash, docs, resp, s, stamp)[e].data)
    {
      StoredAfter(hash, docs, resp, s, stamp, e);
    }
  }

  // ---- what of the event states matters ----

  /** The same events are known to be DATA_CHECKED. */
  ghost predicate SameChecked(a: map<int, EventState>, b: map<int, EventState>) {
    forall e :: (e in a && a[e] == DATA_CHECKED) <==> (e in b && b[e] == DATA_CHECKED)
  }

  /** Of the event states the rows depend only on which events are DATA_CHECKED. */
  lemma {:induction false} RowsDependOnChecked(docs: Docs<RowDoc>, resp: Response, s: Setting, later: Setting)
    requires s.event == later.event && s.seasonSemantics == later.seasonSemantics && SameChecked(s.eventStates, later.eventStates)
    ensures SeasonRows(docs, resp, s) == SeasonRows(docs, resp, later)
  {
    var a, b := ContextOf(docs, resp, s), ContextOf(docs, resp, later);
    forall row: HistoryRow, previous, applied
      ensures Reconcile.Normalize(row, previous, applied, a) == Reconcile.Normalize(row, previous, applied, b)
    {
      assert Disagrees(row, a) == Disagrees(row, b);
    }
    assert Normalize(docs, resp, s) == Normalize(docs, resp, later);
  }

  /** Repeating a sync under the same verdict and the same checked events reports every row unchanged. */
  lemma RepeatIsUnchanged(hash: RowDoc -> Hash, docs: Docs<RowDoc>, resp: Response, s: Setting, later: Setting, stamp: Stamp, k: nat)
    requires OneRowPerEvent(resp) && HashesMatch(hash, docs) && CollisionFree(hash)
    requires s.event == later.event && s.seasonSemantics == later.seasonSemantics && SameChecked(s.eventStates, later.eventStates)
    requires var after := Synced(hash, docs, resp, s, stamp); k < |SeasonRows(after, resp, later)|
    ensures var after := Synced(hash, docs, resp, s, stamp);
      IsUnchanged(hash, after, ItemOf(SeasonRows(after, resp, later)[k]))
  {
    var after := Synced(hash, docs, resp, s, stamp);
    RebuildIsStable(hash, docs, resp, s, later, stamp);
    RowsDependOnChecked(docs, resp, s, later);
    var row := SeasonRows(docs, resp, s)[k];
    StoredAfter(hash, docs, resp, s, stamp, row.points.event);
    HashesStillMatch(hash, docs, resp, s, stamp);
  }

  /** The write of an entry succeeds exactly when its history has one row per event. */
  lemma WriteSucceedsIff(docs: Docs<RowDoc>, resp: Response, s: Setting)
    ensures DistinctItems(ItemsOf(SeasonRows(docs, resp, s))) <==> OneRowPerEvent(resp)
  {
    if OneRowPerEvent(resp) {
      RowsAreDistinct(docs, resp, s);
    }
    var history, items := RowsOf(resp.current), ItemsOf(SeasonRows(docs, resp, s));
    var sorted := SortByKey(history, EventOf());
    if DistinctItems(items) {
      forall i, j | 0 <= i < j < |sorted| ensures Map(sorted, EventOf())[i] != Map(sorted, EventOf())[j] {
        assert items[i].id == sorted[i].event && items[j].id == sorted[j].event;
      }
      MapPermutation(sorted, history, EventOf());
      NoRepeatsPermutation(Map(sorted, EventOf()), Map(history, EventOf()));
      assert forall i | 0 <= i < |history| :: Map(history, EventOf())[i] == EventOf()(history[i]);
    }
  }
}
