/**
 computeGwResult (server/src/analytics/winner.js): blocking, ranking, the narrowing loop, the table
 rows and the canonical engine inputs. `Computed` is the specification; `ComputeGwResult` below is the
 source's program. localeCompare is any total preorder of names, given as a key into the reals.
 */
module Results {
  import opened Wrappers
  import opened Sorting
  import opened Points
  import opened TieBreakers
  import opened Ranking
  import opened Winner
  import opened Eligibility

  datatype Group = Group(winnerRule: WinnerRule, tieBreakRules: seq<Rule>, myEntryId: Option<int>)

  datatype Names = Names(playerName: Option<string>, teamName: Option<string>)

  /** effectiveSquads maps an entry to its captainPoints. */
  datatype Input = Input(
    group: Group,
    event: int,
    eventState: Option<EventState>,
    members: seq<Member>,
    gwRows: seq<GwRow>,
    effectiveSquads: map<int, Option<int>>,
    managers: map<int, Names>)

  /** None stands for NOT_SYNCED. */
  datatype Blocked = Blocked(entryId: int, reconciliationStatus: Option<ReconciliationStatus>)

  datatype Standing = Standing(
    entryId: int,
    names: Names,
    row: Option<GwRow>,
    score: Option<int>,
    competitionRank: Option<nat>,
    position: Option<Position>,
    tiedWith: seq<int>,
    ineligibleReason: Option<IneligibleReason>,
    isWinner: bool,
    isMe: bool)

  datatype Outcome = Outcome(
    winners: seq<int>,
    winningScore: Option<int>,
    tieBreakApplied: Option<Rule>,
    tieBreakTrace: seq<TraceStep>,
    missing: seq<Rule>)

  /** The canonical engine inputs stored with a snapshot. */
  datatype EngineInputs = EngineInputs(
    group: Group,
    event: int,
    eventState: Option<EventState>,
    members: seq<Member>,
    gwRows: seq<GwRow>,
    effectiveSquads: seq<(int, Option<int>)>)

  datatype GwResult = GwResult(
    blockedBy: seq<Blocked>,
    outcome: Outcome,
    rows: seq<Standing>,
    inputs: EngineInputs,
    provisionalState: bool)
  {
    predicate IsBlocked() {
      blockedBy != []
    }
  }

  // ---- JavaScript Maps and their sorted listings ----

  /** new Map(rows.filter(r => r.event === event).map(r => [r.entryId, r])): the last row of an entry wins. */
  function RowsByEntry(gwRows: seq<GwRow>, event: int): (m: map<int, GwRow>)
    ensures forall id | id in m :: m[id].entryId == id && m[id].event == event && m[id] in gwRows
  {
    if gwRows == [] then map[]
    else
      var n := |gwRows| - 1;
      var before := RowsByEntry(gwRows[..n], event);
      if gwRows[n].event == event then before[gwRows[n].entryId := gwRows[n]] else before
  }

  lemma {:induction false} LeastExists(s: set<int>) returns (m: int)
    requires s != {}
    ensures m in s && forall x | x in s :: m <= x
  {
    var k := PickFrom(s);
    m := k;
    if s != {k} {
      var y := LeastExists(s - {k});
      if y < m {
        m := y;
      }
      forall x | x in s ensures m <= x {
        assert x == k || x in s - {k};
      }
    }
  }

  function Least(s: set<int>): (m: int)
    requires s != {}
    ensures m in s && forall x | x in s :: m <= x
  {
    assert exists m :: m in s && forall x | x in s :: m <= x by {
      var least := LeastExists(s);
    }
    var m :| m in s && forall x | x in s :: m <= x;
    m
  }

  /** The keys of a map in ascending order. */
  function SortedKeys(s: set<int>): (r: seq<int>)
    ensures forall x :: x in r <==> x in s
    ensures forall i, j | 0 <= i < j < |r| :: r[i] < r[j]
  {
    if s == {} then []
    else
      var m := Least(s);
      var rest := SortedKeys(s - {m});
      assert forall k | 0 <= k < |rest| :: rest[k] in rest && rest[k] in s;
      [m] + rest
  }

  function Entries<V>(m: map<int, V>): (r: seq<(int, V)>)
    ensures |r| == |SortedKeys(m.Keys)|
    ensures forall k | 0 <= k < |r| :: r[k].0 in m && r[k] == (SortedKeys(m.Keys)[k], m[SortedKeys(m.Keys)[k]])
  {
    var keys := SortedKeys(m.Keys);
    assert forall k | 0 <= k < |keys| :: keys[k] in keys;
    seq(|keys|, k requires 0 <= k < |keys| => (keys[k], m[keys[k]]))
  }

  function FromEntries<V>(entries: seq<(int, V)>): map<int, V> {
    if entries == [] then map[]
    else
      var n := |entries| - 1;
      FromEntries(entries[..n])[entries[n].0 := entries[n].1]
  }

  lemma {:induction false} FromEntriesFacts<V>(entries: seq<(int, V)>)
    requires forall i, j | 0 <= i < j < |entries| :: entries[i].0 < entries[j].0
    ensures forall x :: x in FromEntries(entries) <==> exists k :: 0 <= k < |entries| && entries[k].0 == x
    ensures forall k | 0 <= k < |entries| :: FromEntries(entries)[entries[k].0] == entries[k].1
  {
    if entries != [] {
      var n := |entries| - 1;
      FromEntriesFacts(entries[..n]);
      forall x ensures x in FromEntries(entries) <==> exists k :: 0 <= k < |entries| && entries[k].0 == x {
        if x in FromEntries(entries[..n]) {
          var k :| 0 <= k < n && entries[..n][k].0 == x;
          assert entries[k].0 == x;
        }
      }
      forall k | 0 <= k < |entries| ensures FromEntries(entries)[entries[k].0] == entries[k].1 {
        assert k < n ==> entries[..n][k] == entries[k];
      }
    }
  }

  /** A Map survives being listed by ascending key and rebuilt. */
  lemma EntriesRoundTrip<V>(m: map<int, V>)
    ensures FromEntries(Entries(m)) == m
  {
    var e := Entries(m);
    var keys := SortedKeys(m.Keys);
    FromEntriesFacts(e);
    forall x | x in m ensures x in FromEntries(e) && FromEntries(e)[x] == m[x] {
      assert x in keys;
      var k :| 0 <= k < |keys| && keys[k] == x;
      assert e[k] == (x, m[x]);
    }
    forall x | x in FromEntries(e) ensures x in m {
      var k :| 0 <= k < |e| && e[k].0 == x;
    }
  }

  function RowValues(m: map<int, GwRow>): seq<GwRow> {
    Map(Entries(m), (e: (int, GwRow)) => e.1)
  }

  /** The stored rows give back the Map they were taken from. */
  lemma RowValuesRoundTrip(gwRows: seq<GwRow>, event: int)
    ensures RowsByEntry(RowValues(RowsByEntry(gwRows, event)), event) == RowsByEntry(gwRows, event)
  {
    var m := RowsByEntry(gwRows, event);
    RowsFromEntries(Entries(m), event);
    EntriesRoundTrip(m);
  }

  lemma {:induction false} RowsFromEntries(entries: seq<(int, GwRow)>, event: int)
    requires forall k | 0 <= k < |entries| :: entries[k].1.entryId == entries[k].0 && entries[k].1.event == event
    ensures RowsByEntry(Map(entries, (e: (int, GwRow)) => e.1), event) == FromEntries(entries)
  {
    if entries != [] {
      var n := |entries| - 1;
      RowsFromEntries(entries[..n], event);
      assert Map(entries, (e: (int, GwRow)) => e.1)[..n] == Map(entries[..n], (e: (int, GwRow)) => e.1);
    }
  }

  // ---- the specification ----

  function BlockedBy(ids: seq<int>, rows: map<int, GwRow>): seq<Blocked> {
    if ids == [] then []
    else
      var n := |ids| - 1;
      var before := BlockedBy(ids[..n], rows);
      if ids[n] !in rows then before + [Blocked(ids[n], None)]
      else if !IsReconciled(rows[ids[n]].reconciliationStatus) then before + [Blocked(ids[n], Some(rows[ids[n]].reconciliationStatus))]
      else before
  }

  function ScoreOf(group: Group, r: GwRow): Option<int> {
    if group.winnerRule == GROSS_POINTS then r.grossGwPoints else r.netGwPoints
  }

  /** The ManagerGameweek model stores net and gross points exactly on reconciled rows. */
  predicate WellFormed(r: GwRow) {
    IsReconciled(r.reconciliationStatus) == r.netGwPoints.Some? == r.grossGwPoints.Some?
  }

  predicate WellFormedInput(input: Input) {
    DistinctKeys(input.members, MemberId()) && forall r | r in input.gwRows :: WellFormed(r)
  }

  function TieRow(group: Group, r: GwRow, captainPoints: Option<int>): Row {
    Row(r.entryId, ScoreOf(group, r).GetOr(0), r.grossGwPoints, Some(r.transferCost), captainPoints,
        r.pointsOnBench, r.activeChip, r.totalPoints, r.overallRank)
  }

  function ScoredRows(ids: seq<int>, rows: map<int, GwRow>, group: Group, squads: map<int, Option<int>>): (s: seq<Row>)
    requires forall k | 0 <= k < |ids| :: ids[k] in rows && rows[ids[k]].entryId == ids[k]
    ensures |s| == |ids| && forall k | 0 <= k < |s| :: s[k].entryId == ids[k]
  {
    if ids == [] then []
    else
      var n := |ids| - 1;
      ScoredRows(ids[..n], rows, group, squads)
      + [TieRow(group, rows[ids[n]], if ids[n] in squads then squads[ids[n]] else None)]
  }

  lemma {:induction false} NotBlocked(ids: seq<int>, rows: map<int, GwRow>)
    ensures BlockedBy(ids, rows) == [] <==>
      forall k | 0 <= k < |ids| :: ids[k] in rows && IsReconciled(rows[ids[k]].reconciliationStatus)
  {
    if ids != [] {
      NotBlocked(ids[..|ids| - 1], rows);
    }
  }

  function ChainNarrowing(scored: seq<Row>, rules: seq<Rule>): Outcome {
    if TopRows(scored) == [] then Outcome([], None, None, [], [])
    else
      var n := Narrow(Start(TopRows(scored)), rules, 0);
      Outcome(WinnersOf(n), Some(TopRows(scored)[0].score), AppliedRule(n), n.trace, n.warnings)
  }

  /** The rows the engine ranks: none when the result is blocked. */
  function Scored(input: Input): seq<Row> {
    var rows := RowsByEntry(input.gwRows, input.event);
    var ids := EligibleIds(SortByKey(input.members, MemberId()), rows, input.event);
    if BlockedBy(ids, rows) != [] then []
    else
      NotBlocked(ids, rows);
      ScoredRows(ids, rows, input.group, input.effectiveSquads)
  }

  ghost function RankOf(scored: seq<Row>, id: int): Option<nat> {
    if r :| r in scored && r.entryId == id then Some(1 + |HigherScores(scored, r.score)|) else None
  }

  ghost function PlaceOf(scored: seq<Row>, rules: seq<Rule>, id: int): Option<Position> {
    var order := Ranked(scored, ChainOf(rules));
    if k :| 0 <= k < |order| && order[k].entryId == id then Some(PositionAt(order, k, SetOf(scored), ChainOf(rules))) else None
  }

  /** The others on the same score. */
  function TiedWith(scored: seq<Row>, id: int): seq<int> {
    SortByKey(Ids(Filter(scored, (o: Row) => o.entryId != id && exists r | r in scored :: r.entryId == id && r.score == o.score)), (x: int) => x)
  }

  function NamesOf(managers: map<int, Names>, id: int): Names {
    if id in managers then managers[id] else Names(None, None)
  }

  function RowOf(rows: map<int, GwRow>, id: int): Option<GwRow> {
    if id in rows then Some(rows[id]) else None
  }

  ghost function StandingOf(m: Member, input: Input): Standing {
    var rows := RowsByEntry(input.gwRows, input.event);
    var row := RowOf(rows, m.entryId);
    Standing(
      m.entryId,
      NamesOf(input.managers, m.entryId),
      row,
      if row.Some? && IsReconciled(row.value.reconciliationStatus) then ScoreOf(input.group, row.value) else None,
      RankOf(Scored(input), m.entryId),
      PlaceOf(Scored(input), input.group.tieBreakRules, m.entryId),
      TiedWith(Scored(input), m.entryId),
      ReasonFor(m, rows, input.event),
      m.entryId in ChainNarrowing(Scored(input), input.group.tieBreakRules).winners,
      input.group.myEntryId == Some(m.entryId))
  }

  /** Positioned rows by position, then the others by name, then by entryId. */
  function RowOrder(nameKey: string -> real): (Standing, Standing) -> bool {
    (a: Standing, b: Standing) =>
      if a.position.Some? && b.position.Some? then a.position.value.resolvedPosition <= b.position.value.resolvedPosition
      else if a.position.Some? then true
      else if b.position.Some? then false
      else
        var x, y := nameKey(a.names.playerName.GetOr("")), nameKey(b.names.playerName.GetOr(""));
        x < y || (x == y && a.entryId <= b.entryId)
  }

  function CanonicalInputs(input: Input): EngineInputs {
    EngineInputs(
      input.group, input.event, input.eventState,
      SortByKey(input.members, MemberId()),
      RowValues(RowsByEntry(input.gwRows, input.event)),
      Entries(input.effectiveSquads))
  }

  ghost function Computed(input: Input, nameKey: string -> real): GwResult {
    var rows := RowsByEntry(input.gwRows, input.event);
    GwResult(
      BlockedBy(EligibleIds(SortByKey(input.members, MemberId()), rows, input.event), rows),
      ChainNarrowing(Scored(input), input.group.tieBreakRules),
      SortBy(Map(input.members, (m: Member) => StandingOf(m, input)), RowOrder(nameKey)),
      CanonicalInputs(input),
      input.eventState != Some(DATA_CHECKED))
  }

  // ---- independence of the input order ----

  lemma ScoredHasDistinctIds(input: Input)
    requires WellFormedInput(input)
    ensures DistinctIds(Scored(input))
    ensures forall i, j | 0 <= i < j < |Scored(input)| :: Scored(input)[i].entryId < Scored(input)[j].entryId
  {
    EligibleFacts(input.members, RowsByEntry(input.gwRows, input.event), input.event);
  }

  lemma RowOrderOrders(rows: seq<Standing>, nameKey: string -> real)
    ensures Orders(rows, RowOrder(nameKey))
  {
  }

  /** Two members get rows of equal rank in the table order only if they are the same member. */
  lemma RowOrderSeparates(input: Input, nameKey: string -> real)
    requires WellFormedInput(input)
    ensures Separates(Map(input.members, (m: Member) => StandingOf(m, input)), RowOrder(nameKey))
  {
    var f := (m: Member) => StandingOf(m, input);
    var rows := Map(input.members, f);
    ScoredHasDistinctIds(input);
    forall x, y | x in rows && y in rows && RowOrder(nameKey)(x, y) && RowOrder(nameKey)(y, x) ensures x == y {
      var i :| 0 <= i < |rows| && rows[i] == x;
      var j :| 0 <= j < |rows| && rows[j] == y;
      EqualRankSameEntry(input, nameKey, input.members[i], input.members[j]);
      SameKeySameMember(input.members, input.members[i], input.members[j]);
    }
  }

  lemma SamePlaceSameEntry(scored: seq<Row>, rules: seq<Rule>, a: int, b: int)
    requires DistinctIds(scored)
    requires PlaceOf(scored, rules, a).Some? && PlaceOf(scored, rules, b).Some?
    requires PlaceOf(scored, rules, a).value.resolvedPosition == PlaceOf(scored, rules, b).value.resolvedPosition
    ensures a == b
  {
  }

  lemma EqualRankSameEntry(input: Input, nameKey: string -> real, m: Member, n: Member)
    requires DistinctIds(Scored(input))
    requires RowOrder(nameKey)(StandingOf(m, input), StandingOf(n, input)) && RowOrder(nameKey)(StandingOf(n, input), StandingOf(m, input))
    ensures m.entryId == n.entryId
  {
    if PlaceOf(Scored(input), input.group.tieBreakRules, m.entryId).Some? {
      SamePlaceSameEntry(Scored(input), input.group.tieBreakRules, m.entryId, n.entryId);
    }
  }

  /** Two inputs that differ only in the order of their members and in how their rows are listed. */
  ghost predicate SameUpToOrder(a: Input, b: Input) {
    && multiset(a.members) == multiset(b.members)
    && RowsByEntry(a.gwRows, a.event) == RowsByEntry(b.gwRows, b.event)
    && a.(members := b.members, gwRows := b.gwRows) == b
  }

  lemma SortedMembersAgree(a: Input, b: Input)
    requires WellFormedInput(a) && SameUpToOrder(a, b)
    ensures SortByKey(a.members, MemberId()) == SortByKey(b.members, MemberId())
  {
    SortByKeyPermutation(a.members, b.members, MemberId());
  }

  lemma MapCongruence<T, U>(s: seq<T>, f: T -> U, g: T -> U)
    requires forall x :: f(x) == g(x)
    ensures Map(s, f) == Map(s, g)
  {
  }

  lemma StandingsAgree(a: Input, b: Input)
    requires WellFormedInput(a) && SameUpToOrder(a, b)
    ensures Scored(a) == Scored(b)
    ensures Map(b.members, (m: Member) => StandingOf(m, a)) == Map(b.members, (m: Member) => StandingOf(m, b))
  {
    SortedMembersAgree(a, b);
    var f, g := (m: Member) => StandingOf(m, a), (m: Member) => StandingOf(m, b);
    MapCongruence(b.members, f, g);
  }

  /** The whole result, rows, winners, trace and canonical inputs, is the same for both. */
  lemma ResultIgnoresInputOrder(a: Input, b: Input, nameKey: string -> real)
    requires WellFormedInput(a) && SameUpToOrder(a, b)
    ensures Computed(a, nameKey) == Computed(b, nameKey)
  {
    SortedMembersAgree(a, b);
    StandingsAgree(a, b);
    var f := (m: Member) => StandingOf(m, a);
    MapPermutation(a.members, b.members, f);
    RowOrderOrders(Map(a.members, f), nameKey);
    RowOrderSeparates(a, nameKey);
    SortByPermutation(Map(a.members, f), Map(b.members, f), RowOrder(nameKey));
  }

  // ---- the program ----

  lemma {:induction false} SameScoreIffSameRank(scored: seq<Row>, a: Row, b: Row)
    requires a in scored && b in scored
    ensures |HigherScores(scored, a.score)| == |HigherScores(scored, b.score)| <==> a.score == b.score
  {
    var pa, pb := (o: Row) => o.score > a.score, (o: Row) => o.score > b.score;
    if a.score < b.score {
      assert !pb(b) && pa(b);
      FilterMonotone(scored, pb, pa);
    } else if b.score < a.score {
      assert !pa(a) && pb(a);
      FilterMonotone(scored, pa, pb);
    }
  }

  /** ranks, as competitionRanks leaves it. */
  ghost predicate RanksOf(ranks: map<int, nat>, scored: seq<Row>) {
    && (forall id :: id in ranks <==> exists r | r in scored :: r.entryId == id)
    && (forall r | r in scored :: ranks[r.entryId] == 1 + |HigherScores(scored, r.score)|)
  }

  lemma SameIdSameRow(scored: seq<Row>, a: Row, b: Row)
    requires DistinctIds(scored) && a in scored && b in scored && a.entryId == b.entryId
    ensures a == b
  {
  }

  lemma RankLookup(ranks: map<int, nat>, scored: seq<Row>, id: int)
    requires DistinctIds(scored) && RanksOf(ranks, scored)
    ensures RankOf(scored, id) == if id in ranks then Some(ranks[id]) else None
  {
  }

  /** The top rows are those ranked first. */
  lemma RankedFirstAreTop(ranks: map<int, nat>, scored: seq<Row>)
    requires DistinctIds(scored) && RanksOf(ranks, scored)
    ensures Filter(scored, (r: Row) => r.entryId in ranks && ranks[r.entryId] == 1) == TopRows(scored)
  {
    FilterCongruence(scored, (r: Row) => r.entryId in ranks && ranks[r.entryId] == 1, (r: Row) => HigherScores(scored, r.score) == []);
  }

  /** The others with the same rank, as the rows loop collects them from the ranks. */
  function SameRank(scored: seq<Row>, ranks: map<int, nat>, id: int): seq<int> {
    if id !in ranks then []
    else
      SortByKey(Ids(Filter(scored, (o: Row) => o.entryId != id && o.entryId in ranks && ranks[o.entryId] == ranks[id])), (x: int) => x)
  }

  lemma SameRankIsTiedWith(ranks: map<int, nat>, scored: seq<Row>, id: int)
    requires DistinctIds(scored) && RanksOf(ranks, scored)
    ensures SameRank(scored, ranks, id) == TiedWith(scored, id)
  {
    var p := (o: Row) => o.entryId != id && exists r | r in scored :: r.entryId == id && r.score == o.score;
    if id !in ranks {
      NothingPasses(scored, p);
      assert SortByKey(Ids([]), (x: int) => x) == [];
    } else {
      var me :| me in scored && me.entryId == id;
      var q := (o: Row) => o.entryId != id && o.entryId in ranks && ranks[o.entryId] == ranks[id];
      forall o | o in scored ensures p(o) == q(o) {
        SameScoreIffSameRank(scored, o, me);
        if p(o) {
          var r :| r in scored && r.entryId == id && r.score == o.score;
          SameIdSameRow(scored, r, me);
        }
      }
      FilterCongruence(scored, p, q);
    }
  }

  method PositionsByEntry(places: seq<Position>) returns (positions: map<int, Position>)
    requires forall i, j | 0 <= i < j < |places| :: places[i].entryId != places[j].entryId
    ensures forall id :: id in positions <==> exists k :: 0 <= k < |places| && places[k].entryId == id
    ensures forall k | 0 <= k < |places| :: positions[places[k].entryId] == places[k]
  {
    positions := map[];
    for n := 0 to |places|
      invariant forall id :: id in positions <==> exists k :: 0 <= k < n && places[k].entryId == id
      invariant forall k | 0 <= k < n :: positions[places[k].entryId] == places[k]
    {
      positions := positions[places[n].entryId := places[n]];
    }
  }

  ghost predicate PlacesOf(positions: map<int, Position>, scored: seq<Row>, rules: seq<Rule>) {
    forall id :: PlaceOf(scored, rules, id) == if id in positions then Some(positions[id]) else None
  }

  method Places(scored: seq<Row>, rules: seq<Rule>) returns (positions: map<int, Position>)
    requires DistinctIds(scored)
    ensures PlacesOf(positions, scored, rules)
  {
    var places := ResolvePositions(scored, rules);
    RankedArranges(scored, ChainOf(rules));
    ghost var order := Ranked(scored, ChainOf(rules));
    forall i, j | 0 <= i < j < |places| ensures places[i].entryId != places[j].entryId {
      assert IdOf()(order[i]) != IdOf()(order[j]);
    }
    positions := PositionsByEntry(places);
    forall id ensures PlaceOf(scored, rules, id) == if id in positions then Some(positions[id]) else None {
      PlaceLookup(places, positions, scored, rules, id);
    }
  }

  lemma PlaceLookup(places: seq<Position>, positions: map<int, Position>, scored: seq<Row>, rules: seq<Rule>, id: int)
    requires DistinctIds(Ranked(scored, ChainOf(rules))) && |places| == |Ranked(scored, ChainOf(rules))|
    requires forall k | 0 <= k < |places| ::
      places[k] == PositionAt(Ranked(scored, ChainOf(rules)), k, SetOf(scored), ChainOf(rules))
    requires forall x :: x in positions <==> exists k :: 0 <= k < |places| && places[k].entryId == x
    requires forall k | 0 <= k < |places| :: positions[places[k].entryId] == places[k]
    ensures PlaceOf(scored, rules, id) == if id in positions then Some(positions[id]) else None
  {
  }

  lemma NothingScored(rules: seq<Rule>, id: int)
    ensures RankOf([], id) == None && PlaceOf([], rules, id) == None && TiedWith([], id) == []
    ensures ChainNarrowing([], rules) == Outcome([], None, None, [], [])
  {
  }

  /** What the first half of computeGwResult leaves behind for the rows. */
  method RankAndNarrow(scored: seq<Row>, rules: seq<Rule>)
    returns (outcome: Outcome, ranks: map<int, nat>, positions: map<int, Position>)
    requires DistinctIds(scored)
    ensures outcome == ChainNarrowing(scored, rules)
    ensures RanksOf(ranks, scored) && PlacesOf(positions, scored, rules)
  {
    outcome, ranks, positions := Outcome([], None, None, [], []), map[], map[];
    if scored != [] {
      ranks := CompetitionRanks(scored);
      positions := Places(scored, rules);
      var candidates := Filter(scored, (r: Row) => r.entryId in ranks && ranks[r.entryId] == 1);
      RankedFirstAreTop(ranks, scored);
      TopRowsAreTopScore(scored, ChainOf(rules));
      var winningScore := candidates[0].score;
      var winners, applied, trace, missing := NarrowWinners(candidates, rules);
      outcome := Outcome(winners, Some(winningScore), applied, trace, missing);
    } else {
      forall id ensures PlaceOf(scored, rules, id) == None {
        NothingScored(rules, id);
      }
    }
  }

  function ReasonMap(ineligible: seq<Ineligible>): map<int, IneligibleReason> {
    if ineligible == [] then map[]
    else
      var n := |ineligible| - 1;
      ReasonMap(ineligible[..n])[ineligible[n].entryId := ineligible[n].reason]
  }

  lemma {:induction false} ReasonMapFacts(ineligible: seq<Ineligible>, id: int)
    ensures id in ReasonMap(ineligible) ==> Ineligible(id, ReasonMap(ineligible)[id]) in ineligible
    ensures id !in ReasonMap(ineligible) ==> forall reason :: Ineligible(id, reason) !in ineligible
  {
    if ineligible != [] {
      var n := |ineligible| - 1;
      ReasonMapFacts(ineligible[..n], id);
      assert ineligible == ineligible[..n] + [ineligible[n]];
    }
  }

  /** Looking a member up among the ineligible gives its reason. */
  lemma ReasonLookup(members: seq<Member>, rows: map<int, GwRow>, event: int, m: Member)
    requires DistinctKeys(members, MemberId()) && m in members
    ensures var reasons := ReasonMap(Ineligibles(SortByKey(members, MemberId()), rows, event));
      ReasonFor(m, rows, event) == if m.entryId in reasons then Some(reasons[m.entryId]) else None
  {
    var list := Ineligibles(SortByKey(members, MemberId()), rows, event);
    ReasonMapFacts(list, m.entryId);
    match ReasonFor(m, rows, event)
    case Some(reason) =>
      SelectionPartitions(members, rows, event, m, reason);
      assert m.entryId in ReasonMap(list);
      SelectionPartitions(members, rows, event, m, ReasonMap(list)[m.entryId]);
    case None =>
      if m.entryId in ReasonMap(list) {
        SelectionPartitions(members, rows, event, m, ReasonMap(list)[m.entryId]);
      }
  }

  /** What the rows loop looks things up in. */
  datatype Lookups = Lookups(
    rowByEntry: map<int, GwRow>,
    scored: seq<Row>,
    ranks: map<int, nat>,
    positions: map<int, Position>,
    reasons: map<int, IneligibleReason>,
    winners: seq<int>)

  ghost predicate LookupsFor(l: Lookups, input: Input) {
    && l.rowByEntry == RowsByEntry(input.gwRows, input.event)
    && l.scored == Scored(input)
    && RanksOf(l.ranks, l.scored)
    && PlacesOf(l.positions, l.scored, input.group.tieBreakRules)
    && l.reasons == ReasonMap(Ineligibles(SortByKey(input.members, MemberId()), l.rowByEntry, input.event))
    && l.winners == ChainNarrowing(l.scored, input.group.tieBreakRules).winners
  }

  /** One turn of `members.map(({ entryId }) => …)`. */
  function BuildStanding(id: int, input: Input, l: Lookups): Standing {
    var row := RowOf(l.rowByEntry, id);
    Standing(
      id,
      NamesOf(input.managers, id),
      row,
      if row.Some? && IsReconciled(row.value.reconciliationStatus) then ScoreOf(input.group, row.value) else None,
      if id in l.ranks then Some(l.ranks[id]) else None,
      if id in l.positions then Some(l.positions[id]) else None,
      SameRank(l.scored, l.ranks, id),
      if id in l.reasons then Some(l.reasons[id]) else None,
      id in l.winners,
      input.group.myEntryId == Some(id))
  }

  lemma BuiltStanding(input: Input, m: Member, l: Lookups)
    requires WellFormedInput(input) && m in input.members && LookupsFor(l, input)
    ensures BuildStanding(m.entryId, input, l) == StandingOf(m, input)
  {
    ScoredHasDistinctIds(input);
    RankLookup(l.ranks, l.scored, m.entryId);
    SameRankIsTiedWith(l.ranks, l.scored, m.entryId);
    ReasonLookup(input.members, l.rowByEntry, input.event, m);
  }

  lemma RowsAreStandings(input: Input, l: Lookups)
    requires WellFormedInput(input) && LookupsFor(l, input)
    ensures Map(input.members, (m: Member) => BuildStanding(m.entryId, input, l)) == Map(input.members, (m: Member) => StandingOf(m, input))
  {
    forall k | 0 <= k < |input.members|
      ensures BuildStanding(input.members[k].entryId, input, l) == StandingOf(input.members[k], input)
    {
      BuiltStanding(input, input.members[k], l);
    }
  }

  /** computeGwResult. */
  method ComputeGwResult(input: Input, nameKey: string -> real) returns (r: GwResult)
    requires WellFormedInput(input)
    ensures r == Computed(input, nameKey)
    ensures r.provisionalState <==> input.eventState != Some(DATA_CHECKED)
  {
    var rowByEntry := RowsByEntry(input.gwRows, input.event);
    var eligible, ineligible := SelectEligible(input.members, rowByEntry, input.event);
    var blockedBy := BlockedBy(eligible, rowByEntry);
    var scored := [];
    if blockedBy == [] {
      NotBlocked(eligible, rowByEntry);
      scored := ScoredRows(eligible, rowByEntry, input.group, input.effectiveSquads);
    }
    assert scored == Scored(input);
    ScoredHasDistinctIds(input);
    var outcome, ranks, positions := RankAndNarrow(scored, input.group.tieBreakRules);
    var lookups := Lookups(rowByEntry, scored, ranks, positions, ReasonMap(ineligible), outcome.winners);
    var rows := Map(input.members, (m: Member) => BuildStanding(m.entryId, input, lookups));
    RowsAreStandings(input, lookups);
    r := GwResult(blockedBy, outcome, SortBy(rows, RowOrder(nameKey)), CanonicalInputs(input), input.eventState != Some(DATA_CHECKED));
  }

  // ---- winners and places ----

  lemma WinnersAreKeptIds(scored: seq<Row>, rules: seq<Rule>, id: int)
    requires DistinctIds(scored) && scored != []
    ensures TopRows(scored) != []
    ensures |ChainNarrowing(scored, rules).winners| == |Kept(scored, rules)|
    ensures id in ChainNarrowing(scored, rules).winners <==> exists r | r in Kept(scored, rules) :: r.entryId == id
  {
    WinnersHeadTheTable(scored, rules);
    NarrowKeeps(Start(TopRows(scored)), rules, 0);
    var kept := Kept(scored, rules);
    SortByKeySorts(Ids(kept), (x: int) => x);
    if id in Ids(kept) {
      var k :| 0 <= k < |kept| && Ids(kept)[k] == id;
      assert kept[k] in kept;
    }
    if r :| r in kept && r.entryId == id {
      var k :| 0 <= k < |kept| && kept[k] == r;
      assert Ids(kept)[k] == id;
    }
  }

  /** The winners, each once, in ascending order. */
  lemma WinnersAscend(input: Input)
    requires WellFormedInput(input)
    ensures var winners := ChainNarrowing(Scored(input), input.group.tieBreakRules).winners;
      forall i, j | 0 <= i < j < |winners| :: winners[i] < winners[j]
  {
    var scored, rules := Scored(input), input.group.tieBreakRules;
    ScoredHasDistinctIds(input);
    if scored == [] {
      NothingScored(rules, 0);
    } else {
      WinnersAreKeptIds(scored, rules, 0);
      KeptSet(scored, rules);
      NarrowKeeps(Start(TopRows(scored)), rules, 0);
      SortByKeyIsStrict(Ids(Kept(scored, rules)), (id: int) => id);
    }
  }

  lemma WinnerAtPlace(scored: seq<Row>, rules: seq<Rule>, k: nat)
    requires DistinctIds(scored) && k < |Ranked(scored, ChainOf(rules))|
    ensures Ranked(scored, ChainOf(rules))[k].entryId in ChainNarrowing(scored, rules).winners
       <==> k < |ChainNarrowing(scored, rules).winners|
  {
    var order := Ranked(scored, ChainOf(rules));
    SameMembers(order, scored);
    WinnersAreKeptIds(scored, rules, order[k].entryId);
    WinnersHeadTheTable(scored, rules);
    var kept := Kept(scored, rules);
    if r :| r in kept && r.entryId == order[k].entryId {
      KeptStandAheadOfAll(scored, rules, r, r);
      SameIdSameRow(scored, r, order[k]);
    }
  }

  /** For every rule chain, an entry wins exactly when its place is within the number of winners. */
  lemma WinsIffPlacedFirst(scored: seq<Row>, rules: seq<Rule>, id: int)
    requires DistinctIds(scored)
    ensures var winners, place := ChainNarrowing(scored, rules).winners, PlaceOf(scored, rules, id);
      id in winners <==> place.Some? && place.value.resolvedPosition <= |winners|
  {
    var order := Ranked(scored, ChainOf(rules));
    RankedArranges(scored, ChainOf(rules));
    if k :| 0 <= k < |order| && order[k].entryId == id {
      PlaceIsUnique(scored, rules, id, k);
      WinnerAtPlace(scored, rules, k);
    } else if scored == [] {
      NothingScored(rules, id);
    } else {
      WinnersAreKeptIds(scored, rules, id);
      if r :| r in Kept(scored, rules) && r.entryId == id {
        KeptStandAheadOfAll(scored, rules, r, r);
        SameMembers(order, scored);
      }
    }
  }

  lemma PlaceIsUnique(scored: seq<Row>, rules: seq<Rule>, id: int, k: nat)
    requires DistinctIds(Ranked(scored, ChainOf(rules))) && k < |Ranked(scored, ChainOf(rules))|
    requires Ranked(scored, ChainOf(rules))[k].entryId == id
    ensures PlaceOf(scored, rules, id).Some? && PlaceOf(scored, rules, id).value.resolvedPosition == k + 1
  {
  }

  /** There is a winner exactly when nobody blocks the result and somebody is eligible. */
  lemma WinnersExistIff(input: Input)
    requires WellFormedInput(input)
    ensures var rows := RowsByEntry(input.gwRows, input.event);
      var ids := EligibleIds(SortByKey(input.members, MemberId()), rows, input.event);
      ChainNarrowing(Scored(input), input.group.tieBreakRules).winners != [] <==> BlockedBy(ids, rows) == [] && ids != []
  {
    ScoredHasDistinctIds(input);
    if Scored(input) != [] {
      WinnersAreKeptIds(Scored(input), input.group.tieBreakRules, 0);
    } else {
      NothingScored(input.group.tieBreakRules, 0);
    }
    NotBlocked(EligibleIds(SortByKey(input.members, MemberId()), RowsByEntry(input.gwRows, input.event), input.event), RowsByEntry(input.gwRows, input.event));
  }
}
