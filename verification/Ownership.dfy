/** Picked and effective ownership over the squads of a group (server/src/analytics/ownership.js). */
module Ownership {
  import opened Wrappers
  import opened Sorting
  import opened EffectiveSquad

  /** Each field adds up one number over the managers of a scope. */
  datatype Stats = Stats(squad: int, xi: int, captain: int, triple: int, effCaptain: int, pickedSum: int, effSum: int)

  datatype Metric = SQUAD | XI | CAPTAINED | TRIPLED | EFF_CAPTAINED | PICKED | EFFECTIVE

  datatype OwnershipRow = OwnershipRow(
    elementId: int,
    rivals: Stats,
    all: Stats,
    myPickedMultiplier: Option<int>,
    myEffectiveMultiplier: Option<int>,
    owners: seq<int>)

  datatype Result = Result(rivals: seq<int>, withPicks: seq<int>, missingEntryIds: seq<int>, rows: seq<OwnershipRow>)

  type Squads = map<int, Squad>

  function FindPick(picks: seq<OutPick>, elementId: int): (r: Option<OutPick>)
    ensures r.Some? ==> r.value in picks && r.value.elementId == elementId
    ensures r.None? <==> forall k | 0 <= k < |picks| :: picks[k].elementId != elementId
  {
    if picks == [] then None
    else if picks[0].elementId == elementId then Some(picks[0])
    else FindPick(picks[1..], elementId)
  }

  /** What one pick of a squad adds to a metric. */
  function PickValue(metric: Metric, squad: Squad, p: OutPick): int {
    match metric
    case SQUAD => 1
    case XI => if p.squadPosition <= 11 then 1 else 0
    case CAPTAINED => if squad.pickedCaptain == Some(p.elementId) then 1 else 0
    case TRIPLED => if squad.pickedCaptain == Some(p.elementId) && squad.capMult == 3 then 1 else 0
    case EFF_CAPTAINED => if squad.effectiveCaptain.elementId == Some(p.elementId) then 1 else 0
    case PICKED => p.pickedMultiplier
    case EFFECTIVE => p.effectiveMultiplier
  }

  /** What a manager adds to the row of an element. */
  function ValueIn(metric: Metric, squads: Squads, id: int, elementId: int): int {
    if id !in squads then 0
    else match FindPick(squads[id].picks, elementId)
      case Some(p) => PickValue(metric, squads[id], p)
      case None => 0
  }

  function OverScope(metric: Metric, squads: Squads, scope: seq<int>, elementId: int): int {
    Sum(Map(scope, (id: int) => ValueIn(metric, squads, id, elementId)))
  }

  function Field(s: Stats, metric: Metric): int {
    match metric
    case SQUAD => s.squad
    case XI => s.xi
    case CAPTAINED => s.captain
    case TRIPLED => s.triple
    case EFF_CAPTAINED => s.effCaptain
    case PICKED => s.pickedSum
    case EFFECTIVE => s.effSum
  }

  lemma NextManager(metric: Metric, squads: Squads, scope: seq<int>, elementId: int, k: nat)
    requires k < |scope|
    ensures OverScope(metric, squads, scope[..k + 1], elementId)
         == OverScope(metric, squads, scope[..k], elementId) + ValueIn(metric, squads, scope[k], elementId)
  {
    var f := (id: int) => ValueIn(metric, squads, id, elementId);
    assert Map(scope[..k + 1], f)[..k] == Map(scope[..k], f);
  }

  /** scopeStats: one pass over the managers of a scope. */
  method ScopeStats(squads: Squads, scope: seq<int>, elementId: int) returns (s: Stats)
    requires forall k | 0 <= k < |scope| :: scope[k] in squads
    ensures forall metric :: Field(s, metric) == OverScope(metric, squads, scope, elementId)
  {
    s := Stats(0, 0, 0, 0, 0, 0, 0);
    for k := 0 to |scope|
      invariant forall metric :: Field(s, metric) == OverScope(metric, squads, scope[..k], elementId)
    {
      var squad := squads[scope[k]];
      var pick := FindPick(squad.picks, elementId);
      forall metric {
        NextManager(metric, squads, scope, elementId, k);
      }
      if pick.Some? {
        s := Plus(s, squad, pick.value);
      }
    }
    assert scope[..|scope|] == scope;
  }

  /** The increments of one manager who owns the element. */
  function Plus(s: Stats, squad: Squad, p: OutPick): (r: Stats)
    ensures forall metric :: Field(r, metric) == Field(s, metric) + PickValue(metric, squad, p)
  {
    var picked := squad.pickedCaptain == Some(p.elementId);
    Stats(
      s.squad + 1,
      if p.squadPosition <= 11 then s.xi + 1 else s.xi,
      if picked then s.captain + 1 else s.captain,
      if picked && squad.capMult == 3 then s.triple + 1 else s.triple,
      if squad.effectiveCaptain.elementId == Some(p.elementId) then s.effCaptain + 1 else s.effCaptain,
      s.pickedSum + p.pickedMultiplier,
      s.effSum + p.effectiveMultiplier)
  }

  // ---- what each field counts ----

  predicate DistinctPicks(picks: seq<OutPick>) {
    forall i, j | 0 <= i < j < |picks| :: picks[i].elementId != picks[j].elementId
  }

  predicate Holds(squad: Squad, e: int) {
    exists k :: 0 <= k < |squad.picks| && squad.picks[k].elementId == e
  }

  predicate Starts(squad: Squad, e: int) {
    exists k :: 0 <= k < |squad.picks| && squad.picks[k].elementId == e && squad.picks[k].squadPosition <= 11
  }

  function HowMany(scope: seq<int>, p: int -> bool): nat {
    |Filter(scope, p)|
  }

  /** v gives each manager's multiplier of the element, 0 for one who does not hold it. */
  ghost predicate GivesMultiplier(v: int -> int, squads: Squads, scope: seq<int>, e: int, of: OutPick -> int) {
    forall id | id in scope && id in squads ::
      && (!Holds(squads[id], e) ==> v(id) == 0)
      && (forall k | 0 <= k < |squads[id].picks| && squads[id].picks[k].elementId == e :: v(id) == of(squads[id].picks[k]))
  }

  function Owners(squads: Squads, e: int): int -> bool {
    (id: int) => id in squads && Holds(squads[id], e)
  }

  function Starters(squads: Squads, e: int): int -> bool {
    (id: int) => id in squads && Starts(squads[id], e)
  }

  /** Picked as captain; under the triple captain chip. */
  function Captainers(squads: Squads, e: int): int -> bool {
    (id: int) => id in squads && Holds(squads[id], e) && squads[id].pickedCaptain == Some(e)
  }

  function Triplers(squads: Squads, e: int): int -> bool {
    (id: int) => id in squads && Holds(squads[id], e) && squads[id].pickedCaptain == Some(e) && squads[id].capMult == 3
  }

  function EffectiveCaptainers(squads: Squads, e: int): int -> bool {
    (id: int) => id in squads && Holds(squads[id], e) && squads[id].effectiveCaptain.elementId == Some(e)
  }

  /** The statistics of an element over a scope: whom each field counts, and what the two sums add up. */
  ghost predicate StatsShown(s: Stats, squads: Squads, scope: seq<int>, e: int) {
    && s.squad == HowMany(scope, Owners(squads, e))
    && s.xi == HowMany(scope, Starters(squads, e))
    && s.captain == HowMany(scope, Captainers(squads, e))
    && s.triple == HowMany(scope, Triplers(squads, e))
    && s.effCaptain == HowMany(scope, EffectiveCaptainers(squads, e))
    && AddsUp(s.pickedSum, squads, scope, e, (p: OutPick) => p.pickedMultiplier)
    && AddsUp(s.effSum, squads, scope, e, (p: OutPick) => p.effectiveMultiplier)
  }

  /** The sum over the scope of the managers' multipliers of the element. */
  ghost predicate AddsUp(sum: int, squads: Squads, scope: seq<int>, e: int, of: OutPick -> int) {
    exists v :: GivesMultiplier(v, squads, scope, e, of) && sum == Sum(Map(scope, v))
  }

  ghost predicate AllDistinct(squads: Squads, scope: seq<int>) {
    forall id | id in scope && id in squads :: DistinctPicks(squads[id].picks)
  }

  lemma {:induction false} CountIsSum(s: seq<int>, p: int -> bool, f: int -> int)
    requires forall k | 0 <= k < |s| :: f(s[k]) == if p(s[k]) then 1 else 0
    ensures Sum(Map(s, f)) == HowMany(s, p)
  {
    if s != [] {
      CountIsSum(s[1..], p, f);
      SumOfMapFirst(s, f);
      assert HowMany(s, p) == (if p(s[0]) then 1 else 0) + HowMany(s[1..], p);
    }
  }

  lemma FoundPick(picks: seq<OutPick>, e: int, k: nat)
    requires DistinctPicks(picks) && k < |picks| && picks[k].elementId == e
    ensures FindPick(picks, e) == Some(picks[k])
  {
    var p := FindPick(picks, e).value;
    var j :| 0 <= j < |picks| && picks[j] == p;
  }

  function WhoCounts(metric: Metric, squads: Squads, e: int): int -> bool
    requires metric != PICKED && metric != EFFECTIVE
  {
    match metric
    case SQUAD => Owners(squads, e)
    case XI => Starters(squads, e)
    case CAPTAINED => Captainers(squads, e)
    case TRIPLED => Triplers(squads, e)
    case EFF_CAPTAINED => EffectiveCaptainers(squads, e)
  }

  /** What one manager adds to a counting field. */
  lemma CountedValue(metric: Metric, squads: Squads, id: int, e: int)
    requires metric != PICKED && metric != EFFECTIVE && (id in squads ==> DistinctPicks(squads[id].picks))
    ensures ValueIn(metric, squads, id, e) == if WhoCounts(metric, squads, e)(id) then 1 else 0
  {
    if id in squads && Holds(squads[id], e) {
      var k :| 0 <= k < |squads[id].picks| && squads[id].picks[k].elementId == e;
      FoundPick(squads[id].picks, e, k);
      assert forall j | 0 <= j < |squads[id].picks| && squads[id].picks[j].elementId == e :: j == k;
    }
  }

  lemma CountedField(metric: Metric, squads: Squads, scope: seq<int>, e: int)
    requires metric != PICKED && metric != EFFECTIVE && AllDistinct(squads, scope)
    ensures OverScope(metric, squads, scope, e) == HowMany(scope, WhoCounts(metric, squads, e))
  {
    var p, f := WhoCounts(metric, squads, e), (id: int) => ValueIn(metric, squads, id, e);
    forall k | 0 <= k < |scope| ensures f(scope[k]) == if p(scope[k]) then 1 else 0 {
      assert scope[k] in scope;
      CountedValue(metric, squads, scope[k], e);
    }
    CountIsSum(scope, p, f);
  }

  lemma SummedValue(metric: Metric, squads: Squads, scope: seq<int>, e: int, of: OutPick -> int)
    requires AllDistinct(squads, scope) && (metric == PICKED || metric == EFFECTIVE)
    requires forall p: OutPick :: of(p) == if metric == PICKED then p.pickedMultiplier else p.effectiveMultiplier
    ensures AddsUp(OverScope(metric, squads, scope, e), squads, scope, e, of)
  {
    var v := (id: int) => ValueIn(metric, squads, id, e);
    forall id | id in scope && id in squads
      ensures !Holds(squads[id], e) ==> v(id) == 0
      ensures forall k | 0 <= k < |squads[id].picks| && squads[id].picks[k].elementId == e :: v(id) == of(squads[id].picks[k])
    {
      forall k | 0 <= k < |squads[id].picks| && squads[id].picks[k].elementId == e ensures v(id) == of(squads[id].picks[k]) {
        FoundPick(squads[id].picks, e, k);
      }
    }
    assert GivesMultiplier(v, squads, scope, e, of);
  }

  /** Statistics whose fields are the sums over the scope count exactly these managers. */
  lemma FieldsCount(s: Stats, squads: Squads, scope: seq<int>, e: int)
    requires AllDistinct(squads, scope) && forall metric :: Field(s, metric) == OverScope(metric, squads, scope, e)
    ensures StatsShown(s, squads, scope, e)
  {
    CountedField(SQUAD, squads, scope, e);
    CountedField(XI, squads, scope, e);
    CountedField(CAPTAINED, squads, scope, e);
    CountedField(TRIPLED, squads, scope, e);
    CountedField(EFF_CAPTAINED, squads, scope, e);
    SummedValue(PICKED, squads, scope, e, (p: OutPick) => p.pickedMultiplier);
    SummedValue(EFFECTIVE, squads, scope, e, (p: OutPick) => p.effectiveMultiplier);
    assert s.squad == Field(s, SQUAD) && s.xi == Field(s, XI) && s.captain == Field(s, CAPTAINED) && s.triple == Field(s, TRIPLED);
    assert s.effCaptain == Field(s, EFF_CAPTAINED) && s.pickedSum == Field(s, PICKED) && s.effSum == Field(s, EFFECTIVE);
  }

  // ---- the rows ----

  /** The elements of the squads, in the order the Set meets them. */
  function ElementsOf(picks: seq<OutPick>, seen: seq<int>): (r: seq<int>)
    requires NoRepeats(seen)
    ensures NoRepeats(r)
    ensures forall e :: e in r <==> e in seen || exists k :: 0 <= k < |picks| && picks[k].elementId == e
  {
    if picks == [] then seen
    else
      var rest := ElementsOf(picks[1..], if picks[0].elementId in seen then seen else seen + [picks[0].elementId]);
      rest
  }

  function PlayerIds(squads: Squads, scope: seq<int>): (r: seq<int>)
    requires forall k | 0 <= k < |scope| :: scope[k] in squads
    ensures NoRepeats(r)
    ensures forall e :: e in r <==> exists k, j :: 0 <= k < |scope| && 0 <= j < |squads[scope[k]].picks| && squads[scope[k]].picks[j].elementId == e
  {
    if scope == [] then []
    else
      var n := |scope| - 1;
      ElementsOf(squads[scope[n]].picks, PlayerIds(squads, scope[..n]))
  }

  function WithPicks(squads: Squads, eligible: seq<int>): (r: seq<int>)
    ensures forall id :: id in r <==> id in eligible && id in squads
    ensures forall k | 0 <= k < |r| :: r[k] in squads
  {
    var r := SortByKey(Filter(eligible, (id: int) => id in squads), (id: int) => id);
    SortByKeySorts(Filter(eligible, (id: int) => id in squads), (id: int) => id);
    assert forall k | 0 <= k < |r| :: r[k] in r;
    r
  }

  function IsRival(withPicks: seq<int>, me: Option<int>): int -> bool {
    (id: int) => !(me.Some? && me.value in withPicks && id == me.value)
  }

  function Rivals(withPicks: seq<int>, me: Option<int>): (r: seq<int>)
    ensures forall k | 0 <= k < |r| :: r[k] in withPicks
  {
    var r := Filter(withPicks, IsRival(withPicks, me));
    assert forall k | 0 <= k < |r| :: r[k] in r;
    r
  }

  /** My multiplier of an element; None when I am not counted. */
  function Mine(squads: Squads, withPicks: seq<int>, me: Option<int>, elementId: int, metric: Metric): Option<int> {
    if me.Some? && me.value in withPicks then Some(ValueIn(metric, squads, me.value, elementId)) else None
  }

  predicate Owns(squads: Squads, id: int, elementId: int) {
    id in squads && FindPick(squads[id].picks, elementId).Some?
  }

  /** What a row must say of its element. */
  ghost predicate RowFits(row: OwnershipRow, squads: Squads, withPicks: seq<int>, me: Option<int>) {
    && (forall metric :: Field(row.all, metric) == OverScope(metric, squads, withPicks, row.elementId))
    && (forall metric :: Field(row.rivals, metric) == OverScope(metric, squads, Rivals(withPicks, me), row.elementId))
    && row.myPickedMultiplier == Mine(squads, withPicks, me, row.elementId, PICKED)
    && row.myEffectiveMultiplier == Mine(squads, withPicks, me, row.elementId, EFFECTIVE)
    && row.owners == Filter(withPicks, (id: int) => Owns(squads, id, row.elementId))
  }

  /** A row of the table: whom its fields count among all managers and among the rivals, and my own multipliers. */
  ghost predicate RowShown(row: OwnershipRow, squads: Squads, withPicks: seq<int>, me: Option<int>) {
    && StatsShown(row.all, squads, withPicks, row.elementId)
    && StatsShown(row.rivals, squads, Filter(withPicks, (id: int) => Some(id) != me), row.elementId)
    && row.owners == Filter(withPicks, Owners(squads, row.elementId))
    && MineShown(row.myPickedMultiplier, squads, withPicks, me, row.elementId, (p: OutPick) => p.pickedMultiplier)
    && MineShown(row.myEffectiveMultiplier, squads, withPicks, me, row.elementId, (p: OutPick) => p.effectiveMultiplier)
  }

  /** My own multiplier of the element: none when I am not counted, 0 when I do not hold it. */
  ghost predicate MineShown(mine: Option<int>, squads: Squads, withPicks: seq<int>, me: Option<int>, e: int, of: OutPick -> int) {
    && (mine.Some? <==> me.Some? && me.value in withPicks)
    && (mine.Some? && me.value in squads && !Holds(squads[me.value], e) ==> mine == Some(0))
    && (mine.Some? && me.value in squads ==>
          forall k | 0 <= k < |squads[me.value].picks| && squads[me.value].picks[k].elementId == e :: mine == Some(of(squads[me.value].picks[k])))
  }

  lemma MineMeans(metric: Metric, squads: Squads, withPicks: seq<int>, me: Option<int>, e: int, of: OutPick -> int)
    requires AllDistinct(squads, withPicks) && (metric == PICKED || metric == EFFECTIVE)
    requires forall p: OutPick :: of(p) == if metric == PICKED then p.pickedMultiplier else p.effectiveMultiplier
    ensures MineShown(Mine(squads, withPicks, me, e, metric), squads, withPicks, me, e, of)
  {
    if me.Some? && me.value in withPicks && me.value in squads {
      var id, picks := me.value, squads[me.value].picks;
      assert id in withPicks && DistinctPicks(squads[id].picks);
      forall k | 0 <= k < |picks| && picks[k].elementId == e ensures ValueIn(metric, squads, me.value, e) == of(picks[k]) {
        FoundPick(picks, e, k);
      }
    }
  }

  lemma RivalsAreOthers(withPicks: seq<int>, me: Option<int>)
    ensures Rivals(withPicks, me) == Filter(withPicks, (id: int) => Some(id) != me)
  {
    FilterCongruence(withPicks, IsRival(withPicks, me), (id: int) => Some(id) != me);
  }

  lemma RivalsMean(s: Stats, squads: Squads, withPicks: seq<int>, me: Option<int>, e: int)
    requires AllDistinct(squads, withPicks) && forall metric :: Field(s, metric) == OverScope(metric, squads, Rivals(withPicks, me), e)
    ensures StatsShown(s, squads, Filter(withPicks, (id: int) => Some(id) != me), e)
  {
    var rivals := Rivals(withPicks, me);
    forall id | id in rivals && id in squads ensures DistinctPicks(squads[id].picks) {
      assert id in withPicks;
    }
    FieldsCount(s, squads, rivals, e);
    RivalsAreOthers(withPicks, me);
  }

  lemma OwnersAre(squads: Squads, withPicks: seq<int>, e: int)
    ensures Filter(withPicks, (id: int) => Owns(squads, id, e)) == Filter(withPicks, Owners(squads, e))
  {
    FilterCongruence(withPicks, (id: int) => Owns(squads, id, e), Owners(squads, e));
  }

  lemma RowMeans(row: OwnershipRow, squads: Squads, withPicks: seq<int>, me: Option<int>)
    requires RowFits(row, squads, withPicks, me) && AllDistinct(squads, withPicks)
    ensures RowShown(row, squads, withPicks, me)
  {
    FieldsCount(row.all, squads, withPicks, row.elementId);
    RivalsMean(row.rivals, squads, withPicks, me, row.elementId);
    MineMeans(PICKED, squads, withPicks, me, row.elementId, (p: OutPick) => p.pickedMultiplier);
    MineMeans(EFFECTIVE, squads, withPicks, me, row.elementId, (p: OutPick) => p.effectiveMultiplier);
    OwnersAre(squads, withPicks, row.elementId);
  }

  lemma AllRowsMean(rows: seq<OwnershipRow>, squads: Squads, withPicks: seq<int>, me: Option<int>)
    requires AllDistinct(squads, withPicks) && forall row | row in rows :: RowFits(row, squads, withPicks, me)
    ensures forall row | row in rows :: RowShown(row, squads, withPicks, me)
  {
    forall row | row in rows ensures RowShown(row, squads, withPicks, me) {
      RowMeans(row, squads, withPicks, me);
    }
  }

  /** By effective ownership, largest first, then by element id. */
  predicate InTableOrder(rows: seq<OwnershipRow>) {
    forall i, j | 0 <= i < j < |rows| ::
      rows[i].all.effSum > rows[j].all.effSum || (rows[i].all.effSum == rows[j].all.effSum && rows[i].elementId <= rows[j].elementId)
  }

  lemma SortedInTableOrder(rows: seq<OwnershipRow>)
    ensures InTableOrder(SortBy(rows, RowOrder()))
  {
    SortBySorts(rows, RowOrder());
    var sorted := SortBy(rows, RowOrder());
    forall i, j | 0 <= i < j < |sorted|
      ensures sorted[i].all.effSum > sorted[j].all.effSum || (sorted[i].all.effSum == sorted[j].all.effSum && sorted[i].elementId <= sorted[j].elementId)
    {
      assert RowOrder()(sorted[i], sorted[j]);
    }
  }

  /** Effective ownership, largest first, then the element id. */
  function RowOrder(): (OwnershipRow, OwnershipRow) -> bool {
    (x: OwnershipRow, y: OwnershipRow) => x.all.effSum > y.all.effSum || (x.all.effSum == y.all.effSum && x.elementId <= y.elementId)
  }

  function Elements(rows: seq<OwnershipRow>): seq<int> {
    Map(rows, (r: OwnershipRow) => r.elementId)
  }

  method BuildRows(squads: Squads, withPicks: seq<int>, me: Option<int>) returns (rows: seq<OwnershipRow>)
    requires forall k | 0 <= k < |withPicks| :: withPicks[k] in squads
    ensures Elements(rows) == PlayerIds(squads, withPicks)
    ensures forall k | 0 <= k < |rows| :: RowFits(rows[k], squads, withPicks, me)
  {
    var players := PlayerIds(squads, withPicks);
    var rivals := Rivals(withPicks, me);
    rows := [];
    for k := 0 to |players|
      invariant |rows| == k && forall j | 0 <= j < k :: rows[j].elementId == players[j]
      invariant forall j | 0 <= j < k :: RowFits(rows[j], squads, withPicks, me)
    {
      var e := players[k];
      var r := ScopeStats(squads, rivals, e);
      var a := ScopeStats(squads, withPicks, e);
      rows := rows + [OwnershipRow(e, r, a, Mine(squads, withPicks, me, e, PICKED), Mine(squads, withPicks, me, e, EFFECTIVE),
                                   Filter(withPicks, (id: int) => Owns(squads, id, e)))];
    }
  }

  /** The rows as built, in the order of the table. */
  lemma TableMeans(rows: seq<OwnershipRow>, squads: Squads, withPicks: seq<int>, me: Option<int>)
    requires forall k | 0 <= k < |rows| :: RowFits(rows[k], squads, withPicks, me)
    ensures var sorted := SortBy(rows, RowOrder());
      && multiset(Elements(sorted)) == multiset(Elements(rows))
      && (forall row | row in sorted :: RowFits(row, squads, withPicks, me))
      && (AllDistinct(squads, withPicks) ==> forall row | row in sorted :: RowShown(row, squads, withPicks, me))
      && InTableOrder(sorted)
  {
    var sorted := SortBy(rows, RowOrder());
    SortedInTableOrder(rows);
    SameMembers(sorted, rows);
    MapPermutation(sorted, rows, (r: OwnershipRow) => r.elementId);
    forall row | row in sorted ensures RowFits(row, squads, withPicks, me) {
      var k :| 0 <= k < |rows| && rows[k] == row;
    }
    if AllDistinct(squads, withPicks) {
      AllRowsMean(sorted, squads, withPicks, me);
    }
  }

  /** computeOwnership */
  method ComputeOwnership(squads: Squads, eligible: seq<int>, me: Option<int>) returns (r: Result)
    ensures r.withPicks == WithPicks(squads, eligible) && r.rivals == Rivals(r.withPicks, me)
    ensures multiset(Elements(r.rows)) == multiset(PlayerIds(squads, r.withPicks))
    ensures forall row | row in r.rows :: RowFits(row, squads, r.withPicks, me)
    ensures AllDistinct(squads, r.withPicks) ==> forall row | row in r.rows :: RowShown(row, squads, r.withPicks, me)
    ensures forall id :: id in r.withPicks <==> id in eligible && id in squads
    ensures InTableOrder(r.rows)
    ensures forall id :: id in r.missingEntryIds <==> id in eligible && id !in squads
  {
    var withPicks := WithPicks(squads, eligible);
    var rows := BuildRows(squads, withPicks, me);
    var missing := Filter(eligible, (id: int) => id !in squads);
    SortByKeySorts(missing, (id: int) => id);
    var sorted := SortBy(rows, RowOrder());
    TableMeans(rows, squads, withPicks, me);
    r := Result(Rivals(withPicks, me), withPicks, SortByKey(missing, (id: int) => id), sorted);
  }

  // ---- double counting ----

  /** What one squad adds over a list of elements. */
  function OverElements(metric: Metric, squads: Squads, id: int, elements: seq<int>): int {
    Sum(Map(elements, (e: int) => ValueIn(metric, squads, id, e)))
  }

  /** The squad's own total: the sum over its picks. */
  function SquadTotal(metric: Metric, squad: Squad): int {
    Sum(Map(squad.picks, (p: OutPick) => PickValue(metric, squad, p)))
  }

  function ValueAt(metric: Metric, squad: Squad, picks: seq<OutPick>, e: int): int {
    match FindPick(picks, e)
    case Some(p) => PickValue(metric, squad, p)
    case None => 0
  }

  /** Over a list without repeats, a value attached to one element counts once. */
  lemma {:induction false} OneElement(elements: seq<int>, x: int, v: int)
    requires NoRepeats(elements)
    ensures Sum(Map(elements, (e: int) => if e == x then v else 0)) == if x in elements then v else 0
  {
    var f := (e: int) => if e == x then v else 0;
    if elements != [] {
      var n := |elements| - 1;
      OneElement(elements[..n], x, v);
      assert Map(elements, f)[..n] == Map(elements[..n], f);
      assert elements == elements[..n] + [elements[n]];
      if x == elements[n] {
        assert x !in elements[..n];
      }
    }
  }

  lemma SplitFirst(metric: Metric, squad: Squad, picks: seq<OutPick>, e: int)
    requires picks != [] && DistinctPicks(picks)
    ensures ValueAt(metric, squad, picks, e)
         == ValueAt(metric, squad, picks[1..], e) + (if e == picks[0].elementId then PickValue(metric, squad, picks[0]) else 0)
  {
  }

  /** Summing a squad over elements that include all of its own gives its own total. */
  lemma {:induction false} PicksOverElements(metric: Metric, squad: Squad, picks: seq<OutPick>, elements: seq<int>)
    requires DistinctPicks(picks) && NoRepeats(elements)
    requires forall k | 0 <= k < |picks| :: picks[k].elementId in elements
    ensures Sum(Map(elements, (e: int) => ValueAt(metric, squad, picks, e)))
         == Sum(Map(picks, (p: OutPick) => PickValue(metric, squad, p)))
  {
    var all := (e: int) => ValueAt(metric, squad, picks, e);
    if picks == [] {
      SumOfZeros(Map(elements, all));
    } else {
      var rest := (e: int) => ValueAt(metric, squad, picks[1..], e);
      var first, v := picks[0].elementId, PickValue(metric, squad, picks[0]);
      var once := (e: int) => if e == first then v else 0;
      PicksOverElements(metric, squad, picks[1..], elements);
      OneElement(elements, first, v);
      forall k | 0 <= k < |elements| ensures all(elements[k]) == rest(elements[k]) + once(elements[k]) {
        SplitFirst(metric, squad, picks, elements[k]);
      }
      SumOfMaps(elements, all, rest, once);
      SumOfMapFirst(picks, (p: OutPick) => PickValue(metric, squad, p));
    }
  }

  lemma SquadOverElements(metric: Metric, squads: Squads, id: int, elements: seq<int>)
    requires id in squads && DistinctPicks(squads[id].picks) && NoRepeats(elements)
    requires forall k | 0 <= k < |squads[id].picks| :: squads[id].picks[k].elementId in elements
    ensures OverElements(metric, squads, id, elements) == SquadTotal(metric, squads[id])
  {
    PicksOverElements(metric, squads[id], squads[id].picks, elements);
    assert Map(elements, (e: int) => ValueIn(metric, squads, id, e)) == Map(elements, (e: int) => ValueAt(metric, squads[id], squads[id].picks, e));
  }

  /** The two ways of adding up a table of managers by elements. */
  lemma {:induction false} SwapSums(metric: Metric, squads: Squads, scope: seq<int>, elements: seq<int>)
    ensures Sum(Map(elements, (e: int) => OverScope(metric, squads, scope, e)))
         == Sum(Map(scope, (id: int) => OverElements(metric, squads, id, elements)))
  {
    var byElement := (e: int) => OverScope(metric, squads, scope, e);
    if scope == [] {
      SumOfZeros(Map(elements, byElement));
    } else {
      var n := |scope| - 1;
      var before := (e: int) => OverScope(metric, squads, scope[..n], e);
      var last := (e: int) => ValueIn(metric, squads, scope[n], e);
      SwapSums(metric, squads, scope[..n], elements);
      forall k | 0 <= k < |elements| ensures byElement(elements[k]) == before(elements[k]) + last(elements[k]) {
        NextManager(metric, squads, scope, elements[k], n);
        assert scope[..n + 1] == scope;
      }
      SumOfMaps(elements, byElement, before, last);
      SumOfMapLast(scope, (id: int) => OverElements(metric, squads, id, elements));
    }
  }

  /**
   Double counting: over squads of distinct elements the rows of each field add up to what the squads
   themselves add up to. For `squad` that is the number of picks of all managers, for the sums behind
   the two EO columns it is every multiplier of every pick.
   */
  lemma OwnershipConserves(metric: Metric, squads: Squads, withPicks: seq<int>, me: Option<int>, rows: seq<OwnershipRow>)
    requires forall k | 0 <= k < |withPicks| :: withPicks[k] in squads
    requires forall k | 0 <= k < |withPicks| :: DistinctPicks(squads[withPicks[k]].picks)
    requires multiset(Elements(rows)) == multiset(PlayerIds(squads, withPicks))
    requires forall row | row in rows :: RowFits(row, squads, withPicks, me)
    ensures Sum(Map(rows, (r: OwnershipRow) => Field(r.all, metric)))
         == Sum(Map(withPicks, (id: int) => if id in squads then SquadTotal(metric, squads[id]) else 0))
  {
    var players := PlayerIds(squads, withPicks);
    var f := (e: int) => OverScope(metric, squads, withPicks, e);
    forall k | 0 <= k < |rows| ensures Field(rows[k].all, metric) == f(Elements(rows)[k]) {
      assert rows[k] in rows;
    }
    assert Map(rows, (r: OwnershipRow) => Field(r.all, metric)) == Map(Elements(rows), f);
    MapPermutation(Elements(rows), players, f);
    SumPermutation(Map(Elements(rows), f), Map(players, f));
    SwapSums(metric, squads, withPicks, players);
    forall k | 0 <= k < |withPicks|
      ensures OverElements(metric, squads, withPicks[k], players) == SquadTotal(metric, squads[withPicks[k]])
    {
      SquadOverElements(metric, squads, withPicks[k], players);
    }
    assert Map(withPicks, (id: int) => OverElements(metric, squads, id, players))
        == Map(withPicks, (id: int) => if id in squads then SquadTotal(metric, squads[id]) else 0);
  }

  lemma {:induction false} SumOfConstant(s: seq<int>, c: int)
    requires forall k | 0 <= k < |s| :: s[k] == c
    ensures Sum(s) == c * |s|
  {
    if s != [] {
      SumOfConstant(s[..|s| - 1], c);
    }
  }

  /** So the pick counts of the table add up to the picks of all squads, 15 a manager when each has 15. */
  lemma PickCountsAddUp(squads: Squads, withPicks: seq<int>, me: Option<int>, rows: seq<OwnershipRow>)
    requires forall k | 0 <= k < |withPicks| :: withPicks[k] in squads
    requires forall k | 0 <= k < |withPicks| :: DistinctPicks(squads[withPicks[k]].picks) && |squads[withPicks[k]].picks| == 15
    requires multiset(Elements(rows)) == multiset(PlayerIds(squads, withPicks))
    requires forall row | row in rows :: RowFits(row, squads, withPicks, me)
    ensures Sum(Map(rows, (r: OwnershipRow) => r.all.squad)) == 15 * |withPicks|
  {
    OwnershipConserves(SQUAD, squads, withPicks, me, rows);
    var counts := Map(withPicks, (id: int) => if id in squads then SquadTotal(SQUAD, squads[id]) else 0);
    forall k | 0 <= k < |counts| ensures counts[k] == 15 {
      SumOfConstant(Map(squads[withPicks[k]].picks, (p: OutPick) => PickValue(SQUAD, squads[withPicks[k]], p)), 1);
    }
    SumOfConstant(counts, 15);
    assert Map(rows, (r: OwnershipRow) => r.all.squad) == Map(rows, (r: OwnershipRow) => Field(r.all, SQUAD));
  }

  lemma {:induction false} PickTotals(squad: Squad, picks: seq<OutPick>, sorted: seq<Pick>, m: Multipliers)
    requires |picks| == |sorted| && Covers(m, sorted)
    requires forall k | 0 <= k < |sorted| :: picks[k].effectiveMultiplier == m[sorted[k].elementId]
    ensures Sum(Map(picks, (p: OutPick) => PickValue(EFFECTIVE, squad, p))) == Total(sorted, m)
  {
    if picks != [] {
      var n := |picks| - 1;
      PickTotals(squad, picks[..n], sorted[..n], m);
      SumOfMapLast(picks, (p: OutPick) => PickValue(EFFECTIVE, squad, p));
    }
  }

  /** A derived squad contributes 11 or 15, plus capMult - 1 when somebody is multiplied, to effective ownership. */
  lemma DerivedSquadTotal(squad: Squad, picks: seq<Pick>, chip: Option<string>, subs: seq<AutoSub>, live: map<int, Stat>)
    requires ValidSquad(picks) && |squad.picks| == |picks|
    requires var sorted := SortByKey(picks, PositionOf());
      && (!IsBenchBoost(chip) ==> WellFormedSubs(BaseOf(sorted, false), sorted, subs))
      && forall k | 0 <= k < |sorted| :: squad.picks[k].effectiveMultiplier == Effective(sorted, chip, subs, live)[sorted[k].elementId]
    ensures var c := Captain(SortByKey(picks, PositionOf()), chip, subs, live);
      SquadTotal(EFFECTIVE, squad) == (if IsBenchBoost(chip) then 15 else 11) + (if c.multiplied.Some? then CapMult(chip) - 1 else 0)
  {
    var sorted := SortByKey(picks, PositionOf());
    PickTotals(squad, squad.picks, sorted, Effective(sorted, chip, subs, live));
    EffectiveTotal(picks, chip, subs, live);
  }

  // ---- rivals and me ----

  lemma {:induction false} SumOfFilters(s: seq<int>, p: int -> bool, f: int -> int)
    ensures Sum(Map(s, f)) == Sum(Map(Filter(s, p), f)) + Sum(Map(Filter(s, (x: int) => !p(x)), f))
  {
    if s != [] {
      SumOfFilters(s[1..], p, f);
      SumOfMapFirst(s, f);
      var kept := if p(s[0]) then Filter(s, p) else Filter(s, (x: int) => !p(x));
      SumOfMapFirst(kept, f);
    }
  }

  lemma {:induction false} OnlyOne(s: seq<int>, x: int)
    requires NoRepeats(s)
    ensures Filter(s, (y: int) => y == x) == if x in s then [x] else []
  {
    if s != [] {
      OnlyOne(s[1..], x);
    }
  }

  /** Every field over all managers is the field over the rivals plus my own share. */
  lemma AllIsRivalsAndMe(metric: Metric, squads: Squads, withPicks: seq<int>, me: Option<int>, elementId: int)
    requires NoRepeats(withPicks)
    ensures OverScope(metric, squads, withPicks, elementId)
         == OverScope(metric, squads, Rivals(withPicks, me), elementId) + Mine(squads, withPicks, me, elementId, metric).GetOr(0)
  {
    var f := (id: int) => ValueIn(metric, squads, id, elementId);
    var p := IsRival(withPicks, me);
    SumOfFilters(withPicks, p, f);
    var others := Filter(withPicks, (x: int) => !p(x));
    if me.Some? && me.value in withPicks {
      FilterCongruence(withPicks, (x: int) => !p(x), (y: int) => y == me.value);
      OnlyOne(withPicks, me.value);
      assert Map(others, f) == [f(me.value)] && [f(me.value)][..0] == [];
    } else {
      NothingPasses(withPicks, (x: int) => !p(x));
    }
  }
}
