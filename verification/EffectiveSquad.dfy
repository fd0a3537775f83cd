/** Effective multipliers of one squad (server/src/analytics/effectiveSquad.js). */
module EffectiveSquad {
  import opened Wrappers
  import opened Sorting

  datatype Pick = Pick(elementId: int, squadPosition: int, isCaptain: bool, isViceCaptain: bool, fplMultiplier: int)

  datatype SubSource = FPL | SIMULATED | NO_SUBS

  datatype AutoSub = AutoSub(elementIn: int, elementOut: int, source: SubSource)

  datatype Direction = IN | OUT

  datatype Stat = Stat(minutes: int, totalPoints: int, fixturesSettled: bool)

  datatype Via = CAPTAIN | VICE | PENDING | NOBODY

  datatype EffectiveCaptain = EffectiveCaptain(elementId: Option<int>, via: Via)

  datatype Warning = UNKNOWN_CHIP | FPL_MULTIPLIER_DIFFERS | EFFECTIVE_POINTS_MISMATCH

  datatype OutPick = OutPick(elementId: int, squadPosition: int, pickedMultiplier: int, effectiveMultiplier: int, autoSubbed: Option<Direction>)

  datatype Squad = Squad(
    picks: seq<OutPick>,
    pickedCaptain: Option<int>,
    pickedVice: Option<int>,
    capMult: int,
    effectiveCaptain: EffectiveCaptain,
    benchBoost: bool,
    autoSubSource: SubSource,
    reconstructedPoints: int,
    captainPoints: Option<int>,
    warnings: seq<Warning>)

  type Multipliers = map<int, int>

  function PositionOf(): Pick -> int {
    (p: Pick) => p.squadPosition
  }

  function Starts(p: Pick, benchBoost: bool): int {
    if benchBoost || p.squadPosition <= 11 then 1 else 0
  }

  function BaseOf(sorted: seq<Pick>, benchBoost: bool): (m: Multipliers)
    ensures forall k | 0 <= k < |sorted| :: sorted[k].elementId in m
    ensures forall id | id in m :: m[id] == 0 || m[id] == 1
  {
    if sorted == [] then map[]
    else
      var n := |sorted| - 1;
      BaseOf(sorted[..n], benchBoost)[sorted[n].elementId := Starts(sorted[n], benchBoost)]
  }

  /** `if (base.has(id)) base.set(id, v)` */
  function SetIfThere(m: Multipliers, id: int, v: int): Multipliers {
    if id in m then m[id := v] else m
  }

  function Substituted(m: Multipliers, subs: seq<AutoSub>): (r: Multipliers)
    ensures r.Keys == m.Keys
    ensures (forall id | id in m :: m[id] == 0 || m[id] == 1) ==> forall id | id in r :: r[id] == 0 || r[id] == 1
  {
    if subs == [] then m
    else
      var s := subs[|subs| - 1];
      SetIfThere(SetIfThere(Substituted(m, subs[..|subs| - 1]), s.elementOut, 0), s.elementIn, 1)
  }

  function Marks(m: Multipliers, subs: seq<AutoSub>): map<int, Direction> {
    if subs == [] then map[]
    else
      var s := subs[|subs| - 1];
      var before := Marks(m, subs[..|subs| - 1]);
      var out := if s.elementOut in m then before[s.elementOut := OUT] else before;
      if s.elementIn in m then out[s.elementIn := IN] else out
  }

  /** What the last auto-sub that names the element does to it. */
  function LastSub(subs: seq<AutoSub>, id: int): Option<Direction> {
    if subs == [] then None
    else
      var s := subs[|subs| - 1];
      if s.elementIn == id then Some(IN)
      else if s.elementOut == id then Some(OUT)
      else LastSub(subs[..|subs| - 1], id)
  }

  lemma {:induction false} MarksAreLast(m: Multipliers, subs: seq<AutoSub>, id: int)
    requires id in m
    ensures LastSub(subs, id) == if id in Marks(m, subs) then Some(Marks(m, subs)[id]) else None
  {
    if subs != [] {
      MarksAreLast(m, subs[..|subs| - 1], id);
    }
  }

  function StatAt(live: map<int, Stat>, id: int): Stat {
    if id in live then live[id] else Stat(0, 0, false)
  }

  predicate Played(live: map<int, Stat>, id: Option<int>) {
    id.Some? && StatAt(live, id.value).minutes > 0
  }

  predicate Settled(live: map<int, Stat>, id: Option<int>) {
    id.Some? && (StatAt(live, id.value).fixturesSettled || Played(live, id))
  }

  predicate Active(m: Multipliers, id: Option<int>) {
    id.Some? && id.value in m && m[id.value] > 0
  }

  /** The captaincy and the one element it multiplies, if any. */
  datatype Captaincy = Captaincy(captain: EffectiveCaptain, multiplied: Option<int>)

  function Resolve(m: Multipliers, captain: Option<int>, vice: Option<int>, live: map<int, Stat>): (c: Captaincy)
    ensures c.multiplied.Some? ==> Active(m, c.multiplied)
    ensures c.captain.via != PENDING ==> c.captain.elementId == c.multiplied
  {
    if Played(live, captain) && Active(m, captain) then Captaincy(EffectiveCaptain(captain, CAPTAIN), captain)
    else if !Settled(live, captain) then Captaincy(EffectiveCaptain(captain, PENDING), if Active(m, captain) then captain else None)
    else if Played(live, vice) && Active(m, vice) then Captaincy(EffectiveCaptain(vice, VICE), vice)
    else if !Settled(live, vice) then Captaincy(EffectiveCaptain(None, PENDING), None)
    else Captaincy(EffectiveCaptain(None, NOBODY), None)
  }

  function WithCaptain(m: Multipliers, c: Captaincy, capMult: int): (r: Multipliers)
    requires c.multiplied.Some? ==> c.multiplied.value in m
    ensures r.Keys == m.Keys
  {
    if c.multiplied.Some? then m[c.multiplied.value := capMult] else m
  }

  function FirstWith(sorted: seq<Pick>, p: Pick -> bool): Option<int> {
    if sorted == [] then None else if p(sorted[0]) then Some(sorted[0].elementId) else FirstWith(sorted[1..], p)
  }

  function CaptainOf(sorted: seq<Pick>): Option<int> {
    FirstWith(sorted, (p: Pick) => p.isCaptain)
  }

  function ViceOf(sorted: seq<Pick>): Option<int> {
    FirstWith(sorted, (p: Pick) => p.isViceCaptain)
  }

  function CapMult(chip: Option<string>): int {
    if chip == Some("3xc") then 3 else 2
  }

  predicate IsBenchBoost(chip: Option<string>) {
    chip == Some("bboost")
  }

  predicate IsKnownChip(chip: string) {
    chip == "bboost" || chip == "3xc" || chip == "wildcard" || chip == "freehit"
  }

  /** Bench boost disables auto-subs. */
  function SubsUsed(chip: Option<string>, subs: seq<AutoSub>): seq<AutoSub> {
    if IsBenchBoost(chip) then [] else subs
  }

  /** Base multipliers after auto-subs. */
  function Base(sorted: seq<Pick>, chip: Option<string>, subs: seq<AutoSub>): (m: Multipliers)
    ensures m.Keys == BaseOf(sorted, IsBenchBoost(chip)).Keys
    ensures forall id | id in m :: m[id] == 0 || m[id] == 1
  {
    Substituted(BaseOf(sorted, IsBenchBoost(chip)), SubsUsed(chip, subs))
  }

  function Captain(sorted: seq<Pick>, chip: Option<string>, subs: seq<AutoSub>, live: map<int, Stat>): (c: Captaincy)
    ensures c.multiplied.Some? ==> Active(Base(sorted, chip, subs), c.multiplied)
  {
    Resolve(Base(sorted, chip, subs), CaptainOf(sorted), ViceOf(sorted), live)
  }

  function Effective(sorted: seq<Pick>, chip: Option<string>, subs: seq<AutoSub>, live: map<int, Stat>): (m: Multipliers)
    ensures forall k | 0 <= k < |sorted| :: sorted[k].elementId in m
  {
    WithCaptain(Base(sorted, chip, subs), Captain(sorted, chip, subs, live), CapMult(chip))
  }

  function OutPicks(sorted: seq<Pick>, effective: Multipliers, marks: map<int, Direction>, capMult: int, benchBoost: bool): (out: seq<OutPick>)
    requires forall k | 0 <= k < |sorted| :: sorted[k].elementId in effective
    ensures |out| == |sorted|
    ensures forall k | 0 <= k < |out| :: out[k].elementId == sorted[k].elementId && out[k].squadPosition == sorted[k].squadPosition
    ensures forall k | 0 <= k < |out| :: out[k].effectiveMultiplier == effective[sorted[k].elementId]
    ensures forall k | 0 <= k < |out| :: out[k].pickedMultiplier == if sorted[k].isCaptain then capMult else Starts(sorted[k], benchBoost)
    ensures forall k | 0 <= k < |out| :: out[k].autoSubbed == if sorted[k].elementId in marks then Some(marks[sorted[k].elementId]) else None
  {
    seq(|sorted|, k requires 0 <= k < |sorted| =>
      OutPick(sorted[k].elementId, sorted[k].squadPosition,
              if sorted[k].isCaptain then capMult else Starts(sorted[k], benchBoost),
              effective[sorted[k].elementId],
              if sorted[k].elementId in marks then Some(marks[sorted[k].elementId]) else None))
  }

  function Points(out: seq<OutPick>, live: map<int, Stat>): int {
    if out == [] then 0
    else Points(out[..|out| - 1], live) + out[|out| - 1].effectiveMultiplier * StatAt(live, out[|out| - 1].elementId).totalPoints
  }

  /** None while pending, 0 when nobody is multiplied. */
  function CaptainPoints(c: Captaincy, effective: Multipliers, live: map<int, Stat>): (r: Option<int>)
    requires c.captain.via != PENDING && c.captain.elementId.Some? ==> c.captain.elementId.value in effective
    ensures r.None? <==> c.captain.via == PENDING
  {
    if c.captain.via == PENDING then None
    else if c.captain.elementId.None? then Some(0)
    else Some(StatAt(live, c.captain.elementId.value).totalPoints * effective[c.captain.elementId.value])
  }

  /** The auto-sub loop over the two Maps. */
  method ApplyAutoSubs(start: Multipliers, subs: seq<AutoSub>) returns (base: Multipliers, marks: map<int, Direction>)
    ensures base == Substituted(start, subs) && marks == Marks(start, subs)
  {
    base, marks := start, map[];
    for k := 0 to |subs|
      invariant base == Substituted(start, subs[..k]) && marks == Marks(start, subs[..k])
    {
      var s := subs[k];
      assert subs[..k + 1][..k] == subs[..k];
      if s.elementOut in base {
        base := base[s.elementOut := 0];
        marks := marks[s.elementOut := OUT];
      }
      if s.elementIn in base {
        base := base[s.elementIn := 1];
        marks := marks[s.elementIn := IN];
      }
    }
    assert subs[..|subs|] == subs;
  }

  // ---- what a derived squad says ----

  /** A pick counts: under bench boost always, else by the last auto-sub that names it, else by its position. */
  predicate Counts(p: Pick, chip: Option<string>, subs: seq<AutoSub>) {
    || chip == Some("bboost")
    || LastSub(subs, p.elementId) == Some(IN)
    || (LastSub(subs, p.elementId) == None && p.squadPosition <= 11)
  }

  predicate CountsIn(picks: seq<Pick>, chip: Option<string>, subs: seq<AutoSub>, id: Option<int>) {
    id.Some? && exists k :: 0 <= k < |picks| && picks[k].elementId == id.value && Counts(picks[k], chip, subs)
  }

  predicate HasPlayed(live: map<int, Stat>, id: Option<int>) {
    id.Some? && id.value in live && live[id.value].minutes > 0
  }

  predicate IsOver(live: map<int, Stat>, id: Option<int>) {
    id.Some? && id.value in live && (live[id.value].fixturesSettled || live[id.value].minutes > 0)
  }

  /** The captaincy of a squad: who, and on what ground. */
  predicate CaptaincyShown(s: Squad, picks: seq<Pick>, chip: Option<string>, subs: seq<AutoSub>, live: map<int, Stat>) {
    var c, v := s.pickedCaptain, s.pickedVice;
    var captainCounts, viceCounts := HasPlayed(live, c) && CountsIn(picks, chip, subs, c), HasPlayed(live, v) && CountsIn(picks, chip, subs, v);
    && (s.effectiveCaptain.via == CAPTAIN <==> captainCounts)
    && (s.effectiveCaptain.via == VICE <==> !captainCounts && IsOver(live, c) && viceCounts)
    && (s.effectiveCaptain.via == PENDING <==> !IsOver(live, c) || (!captainCounts && !viceCounts && !IsOver(live, v)))
    && (s.effectiveCaptain.via == NOBODY <==> IsOver(live, c) && !captainCounts && IsOver(live, v) && !viceCounts)
    && s.effectiveCaptain.elementId == (if captainCounts || !IsOver(live, c) then c else if viceCounts then v else None)
  }

  /** The captain keeps his multiplier while he is pending; nobody is multiplied who does not count. */
  predicate IsMultiplied(s: Squad, picks: seq<Pick>, chip: Option<string>, subs: seq<AutoSub>, p: Pick) {
    s.effectiveCaptain.elementId == Some(p.elementId) && CountsIn(picks, chip, subs, Some(p.elementId))
  }

  /** Each pick, in position order, with its multipliers. */
  predicate PicksShown(s: Squad, picks: seq<Pick>, sorted: seq<Pick>, chip: Option<string>, subs: seq<AutoSub>) {
    var capMult := if chip == Some("3xc") then 3 else 2;
    && s.capMult == capMult && |s.picks| == |sorted|
    && forall k | 0 <= k < |sorted| ::
         && s.picks[k].elementId == sorted[k].elementId && s.picks[k].squadPosition == sorted[k].squadPosition
         && s.picks[k].pickedMultiplier == (if sorted[k].isCaptain then capMult else if chip == Some("bboost") || sorted[k].squadPosition <= 11 then 1 else 0)
         && s.picks[k].effectiveMultiplier ==
              (if IsMultiplied(s, picks, chip, subs, sorted[k]) then capMult else if Counts(sorted[k], chip, subs) then 1 else 0)
  }

  /** The first pick by position that is marked so. */
  predicate FirstMarked(sorted: seq<Pick>, mark: Pick -> bool, id: Option<int>) {
    match id
    case Some(e) => exists k :: 0 <= k < |sorted| && sorted[k].elementId == e && mark(sorted[k]) && forall j | 0 <= j < k :: !mark(sorted[j])
    case None => forall k | 0 <= k < |sorted| :: !mark(sorted[k])
  }

  lemma {:induction false} FirstWithMeans(sorted: seq<Pick>, mark: Pick -> bool)
    ensures FirstMarked(sorted, mark, FirstWith(sorted, mark))
  {
    if sorted != [] && !mark(sorted[0]) {
      FirstWithMeans(sorted[1..], mark);
      match FirstWith(sorted[1..], mark)
      case Some(e) =>
        var k :| 0 <= k < |sorted| - 1 && sorted[1..][k].elementId == e && mark(sorted[1..][k]) && forall j | 0 <= j < k :: !mark(sorted[1..][j]);
        assert sorted[k + 1].elementId == e;
        forall j | 0 <= j < k + 1 ensures !mark(sorted[j]) {
          assert j > 0 ==> sorted[j] == sorted[1..][j - 1];
        }
      case None =>
        forall k | 0 <= k < |sorted| ensures !mark(sorted[k]) {
          assert k > 0 ==> sorted[k] == sorted[1..][k - 1];
        }
    } else if sorted != [] {
      assert sorted[0].elementId == FirstWith(sorted, mark).value;
    }
  }

  lemma {:induction false} BaseAt(sorted: seq<Pick>, benchBoost: bool, k: nat)
    requires DistinctElements(sorted) && k < |sorted|
    ensures sorted[k].elementId in BaseOf(sorted, benchBoost)
    ensures BaseOf(sorted, benchBoost)[sorted[k].elementId] == if benchBoost || sorted[k].squadPosition <= 11 then 1 else 0
  {
    if k < |sorted| - 1 {
      BaseAt(sorted[..|sorted| - 1], benchBoost, k);
    }
  }

  lemma {:induction false} SubstitutedAt(m: Multipliers, subs: seq<AutoSub>, id: int)
    requires id in m
    ensures Substituted(m, subs)[id] == match LastSub(subs, id) case Some(IN) => 1 case Some(OUT) => 0 case None => m[id]
  {
    if subs != [] {
      SubstitutedAt(m, subs[..|subs| - 1], id);
    }
  }

  lemma NoSubsAt(id: int)
    ensures LastSub([], id) == None
  {
  }

  /** The multiplier after auto-subs is 1 exactly for the picks that count. */
  lemma BaseCounts(sorted: seq<Pick>, chip: Option<string>, subs: seq<AutoSub>, k: nat)
    requires DistinctElements(sorted) && k < |sorted|
    ensures sorted[k].elementId in Base(sorted, chip, subs)
    ensures Base(sorted, chip, subs)[sorted[k].elementId] == if Counts(sorted[k], chip, subs) then 1 else 0
  {
    BaseAt(sorted, IsBenchBoost(chip), k);
    SubstitutedAt(BaseOf(sorted, IsBenchBoost(chip)), SubsUsed(chip, subs), sorted[k].elementId);
    NoSubsAt(sorted[k].elementId);
  }

  lemma ActiveCounts(sorted: seq<Pick>, chip: Option<string>, subs: seq<AutoSub>, id: Option<int>)
    requires DistinctElements(sorted) && (id.Some? ==> Has(sorted, id.value))
    ensures Active(Base(sorted, chip, subs), id) <==> CountsIn(sorted, chip, subs, id)
  {
    if id.Some? {
      var k :| 0 <= k < |sorted| && sorted[k].elementId == id.value;
      BaseCounts(sorted, chip, subs, k);
    }
  }

  /** The two stats predicates of the program read the same live map. */
  lemma LiveMeans(live: map<int, Stat>, id: Option<int>)
    ensures Played(live, id) <==> HasPlayed(live, id)
    ensures Settled(live, id) <==> IsOver(live, id)
  {
  }

  /** What the program puts together, in terms of its own steps. */
  ghost predicate Derived(s: Squad, sorted: seq<Pick>, chip: Option<string>, subs: seq<AutoSub>, live: map<int, Stat>) {
    && s.capMult == CapMult(chip) && s.benchBoost == IsBenchBoost(chip)
    && s.pickedCaptain == CaptainOf(sorted) && s.pickedVice == ViceOf(sorted)
    && s.effectiveCaptain == Captain(sorted, chip, subs, live).captain
    && PicksDerived(s.picks, sorted, chip, subs, live)
  }

  ghost predicate PicksDerived(out: seq<OutPick>, sorted: seq<Pick>, chip: Option<string>, subs: seq<AutoSub>, live: map<int, Stat>) {
    && |out| == |sorted|
    && (forall k | 0 <= k < |sorted| ::
          && out[k].elementId == sorted[k].elementId && out[k].squadPosition == sorted[k].squadPosition
          && out[k].effectiveMultiplier == Effective(sorted, chip, subs, live)[sorted[k].elementId]
          && out[k].pickedMultiplier == if sorted[k].isCaptain then CapMult(chip) else Starts(sorted[k], IsBenchBoost(chip)))
  }

  /** What FPL's own numbers are checked against, once the captaincy is settled, and what the chip is. */
  ghost predicate WarningsShown(s: Squad, sorted: seq<Pick>, chip: Option<string>, gross: Option<int>) {
    var settledNow := s.effectiveCaptain.via != PENDING;
    && |s.picks| == |sorted|
    && (UNKNOWN_CHIP in s.warnings <==>
          chip.Some? && chip.value != "bboost" && chip.value != "3xc" && chip.value != "wildcard" && chip.value != "freehit")
    && (FPL_MULTIPLIER_DIFFERS in s.warnings <==>
          settledNow && exists k :: 0 <= k < |sorted| && sorted[k].fplMultiplier != s.picks[k].effectiveMultiplier)
    && (EFFECTIVE_POINTS_MISMATCH in s.warnings <==> settledNow && gross.Some? && s.reconstructedPoints != gross.value)
  }

  /** Which auto-subs were made, and by whom. */
  ghost predicate SubsShown(source: SubSource, out: seq<OutPick>, sorted: seq<Pick>, chip: Option<string>, subs: seq<AutoSub>) {
    var used := if chip == Some("bboost") then [] else subs;
    && source == (if used == [] then NO_SUBS else used[0].source)
    && |out| == |sorted|
    && forall k | 0 <= k < |sorted| :: out[k].autoSubbed == LastSub(used, sorted[k].elementId)
  }

  /** The captain's points with the multiplier: none while pending, 0 when nobody is multiplied. */
  predicate CaptainPointsShown(s: Squad, chip: Option<string>, live: map<int, Stat>) {
    s.captainPoints ==
      if s.effectiveCaptain.via == PENDING then None
      else if s.effectiveCaptain.elementId.None? then Some(0)
      else Some((if chip == Some("3xc") then 3 else 2) * StatAt(live, s.effectiveCaptain.elementId.value).totalPoints)
  }

  /** What one pick scores. */
  function PickPoints(live: map<int, Stat>): OutPick -> int {
    (p: OutPick) => if p.elementId in live then p.effectiveMultiplier * live[p.elementId].totalPoints else 0
  }

  predicate PointsShown(s: Squad, live: map<int, Stat>) {
    s.reconstructedPoints == Sum(Map(s.picks, PickPoints(live)))
  }

  lemma {:induction false} PointsAreSum(out: seq<OutPick>, live: map<int, Stat>)
    ensures Points(out, live) == Sum(Map(out, PickPoints(live)))
  {
    if out != [] {
      PointsAreSum(out[..|out| - 1], live);
      SumOfMapLast(out, PickPoints(live));
    }
  }

  /** deriveEffectiveSquad */
  method DeriveEffectiveSquad(picks: seq<Pick>, chip: Option<string>, autoSubs: seq<AutoSub>, live: map<int, Stat>, gross: Option<int>)
    returns (s: Squad)
    ensures Derived(s, SortByKey(picks, PositionOf()), chip, autoSubs, live)
    ensures FirstMarked(SortByKey(picks, PositionOf()), (p: Pick) => p.isCaptain, s.pickedCaptain)
    ensures FirstMarked(SortByKey(picks, PositionOf()), (p: Pick) => p.isViceCaptain, s.pickedVice)
    ensures DistinctElements(picks) ==>
      CaptaincyShown(s, picks, chip, autoSubs, live) && PicksShown(s, picks, SortByKey(picks, PositionOf()), chip, autoSubs)
    ensures SubsShown(s.autoSubSource, s.picks, SortByKey(picks, PositionOf()), chip, autoSubs)
    ensures PointsShown(s, live) && CaptainPointsShown(s, chip, live)
    ensures WarningsShown(s, SortByKey(picks, PositionOf()), chip, gross)
  {
    var sorted := SortByKey(picks, PositionOf());
    s := DeriveFrom(sorted, chip, autoSubs, live, gross);
    FirstWithMeans(sorted, (p: Pick) => p.isCaptain);
    FirstWithMeans(sorted, (p: Pick) => p.isViceCaptain);
    if DistinctElements(picks) {
      SquadMeans(picks, chip, autoSubs, live, s);
    }
  }

  lemma CaptainPointsMean(base: Multipliers, captain: Option<int>, vice: Option<int>, chip: Option<string>, live: map<int, Stat>)
    ensures var c := Resolve(base, captain, vice, live);
      CaptainPoints(c, WithCaptain(base, c, CapMult(chip)), live) ==
        if c.captain.via == PENDING then None
        else if c.captain.elementId.None? then Some(0)
        else Some((if chip == Some("3xc") then 3 else 2) * StatAt(live, c.captain.elementId.value).totalPoints)
  {
  }

  /** Steps 1 to 4, on the picks in position order. */
  method DerivePicks(sorted: seq<Pick>, chip: Option<string>, autoSubs: seq<AutoSub>, live: map<int, Stat>)
    returns (out: seq<OutPick>, c: Captaincy, source: SubSource, captainPoints: Option<int>)
    ensures PicksDerived(out, sorted, chip, autoSubs, live) && SubsShown(source, out, sorted, chip, autoSubs)
    ensures c == Captain(sorted, chip, autoSubs, live)
    ensures captainPoints ==
      if c.captain.via == PENDING then None
      else if c.captain.elementId.None? then Some(0)
      else Some((if chip == Some("3xc") then 3 else 2) * StatAt(live, c.captain.elementId.value).totalPoints)
  {
    var base, marks;
    base, marks, source := BaseMultipliers(sorted, chip, autoSubs);
    c := Resolve(base, CaptainOf(sorted), ViceOf(sorted), live);
    var effective := WithCaptain(base, c, CapMult(chip));
    out := OutPicks(sorted, effective, marks, CapMult(chip), IsBenchBoost(chip));
    captainPoints := CaptainPoints(c, effective, live);
    CaptainPointsMean(base, CaptainOf(sorted), ViceOf(sorted), chip, live);
  }

  /** The squad put together. */
  method DeriveFrom(sorted: seq<Pick>, chip: Option<string>, autoSubs: seq<AutoSub>, live: map<int, Stat>, gross: Option<int>)
    returns (s: Squad)
    ensures Derived(s, sorted, chip, autoSubs, live) && SubsShown(s.autoSubSource, s.picks, sorted, chip, autoSubs)
    ensures PointsShown(s, live) && CaptainPointsShown(s, chip, live)
    ensures WarningsShown(s, sorted, chip, gross)
  {
    var out, c, source, captainPoints := DerivePicks(sorted, chip, autoSubs, live);
    var points := Points(out, live);
    PointsAreSum(out, live);
    var warnings := CrossChecks(chip, sorted, out, c.captain.via != PENDING, points, gross);
    s := Squad(out, CaptainOf(sorted), ViceOf(sorted), CapMult(chip), c.captain, IsBenchBoost(chip), source, points, captainPoints, warnings);
  }

  /** A squad put together so says what the picks and the live data say. */
  lemma SquadMeans(picks: seq<Pick>, chip: Option<string>, subs: seq<AutoSub>, live: map<int, Stat>, s: Squad)
    requires DistinctElements(picks) && Derived(s, SortByKey(picks, PositionOf()), chip, subs, live)
    ensures CaptaincyShown(s, picks, chip, subs, live) && PicksShown(s, picks, SortByKey(picks, PositionOf()), chip, subs)
  {
    CaptaincyMeans(picks, chip, subs, live, s);
    var sorted := SortByKey(picks, PositionOf());
    forall k | 0 <= k < |sorted|
      ensures s.picks[k].effectiveMultiplier ==
        if IsMultiplied(s, picks, chip, subs, sorted[k]) then CapMult(chip) else if Counts(sorted[k], chip, subs) then 1 else 0
    {
      PickMeans(picks, chip, subs, live, s, k);
    }
  }

  lemma CaptaincyMeans(picks: seq<Pick>, chip: Option<string>, subs: seq<AutoSub>, live: map<int, Stat>, s: Squad)
    requires DistinctElements(picks) && Derived(s, SortByKey(picks, PositionOf()), chip, subs, live)
    ensures CaptaincyShown(s, picks, chip, subs, live)
  {
    var sorted := SortByKey(picks, PositionOf());
    SortedElements(picks);
    FirstWithIsElement(sorted, (p: Pick) => p.isCaptain);
    FirstWithIsElement(sorted, (p: Pick) => p.isViceCaptain);
    ActiveCounts(sorted, chip, subs, s.pickedCaptain);
    ActiveCounts(sorted, chip, subs, s.pickedVice);
    SameCounts(picks, sorted, chip, subs, s.pickedCaptain);
    SameCounts(picks, sorted, chip, subs, s.pickedVice);
    ResolveMeans(s, Base(sorted, chip, subs), picks, chip, subs, live);
  }

  lemma ResolveMeans(s: Squad, base: Multipliers, picks: seq<Pick>, chip: Option<string>, subs: seq<AutoSub>, live: map<int, Stat>)
    requires s.effectiveCaptain == Resolve(base, s.pickedCaptain, s.pickedVice, live).captain
    requires Active(base, s.pickedCaptain) <==> CountsIn(picks, chip, subs, s.pickedCaptain)
    requires Active(base, s.pickedVice) <==> CountsIn(picks, chip, subs, s.pickedVice)
    ensures CaptaincyShown(s, picks, chip, subs, live)
  {
    LiveMeans(live, s.pickedCaptain);
    LiveMeans(live, s.pickedVice);
  }

  lemma MultipliedIs(base: Multipliers, captain: Option<int>, vice: Option<int>, live: map<int, Stat>, id: int)
    ensures var c := Resolve(base, captain, vice, live);
      c.multiplied == Some(id) <==> c.captain.elementId == Some(id) && Active(base, Some(id))
  {
  }

  lemma PickMeans(picks: seq<Pick>, chip: Option<string>, subs: seq<AutoSub>, live: map<int, Stat>, s: Squad, k: nat)
    requires DistinctElements(picks) && k < |picks| && Derived(s, SortByKey(picks, PositionOf()), chip, subs, live)
    ensures var p := SortByKey(picks, PositionOf())[k];
      s.picks[k].effectiveMultiplier == if IsMultiplied(s, picks, chip, subs, p) then CapMult(chip) else if Counts(p, chip, subs) then 1 else 0
  {
    var sorted := SortByKey(picks, PositionOf());
    SortedElements(picks);
    BaseCounts(sorted, chip, subs, k);
    ActiveCounts(sorted, chip, subs, Some(sorted[k].elementId));
    SameCounts(picks, sorted, chip, subs, Some(sorted[k].elementId));
    MultipliedIs(Base(sorted, chip, subs), CaptainOf(sorted), ViceOf(sorted), live, sorted[k].elementId);
  }

  lemma SortedElements(picks: seq<Pick>)
    requires DistinctElements(picks)
    ensures var sorted := SortByKey(picks, PositionOf());
      multiset(sorted) == multiset(picks) && DistinctElements(sorted)
  {
    var sorted, id := SortByKey(picks, PositionOf()), (p: Pick) => p.elementId;
    forall i, j | 0 <= i < j < |picks| ensures Map(picks, id)[i] != Map(picks, id)[j] {
    }
    MapPermutation(picks, sorted, id);
    NoRepeatsPermutation(Map(picks, id), Map(sorted, id));
    forall i, j | 0 <= i < j < |sorted| ensures sorted[i].elementId != sorted[j].elementId {
      assert Map(sorted, id)[i] != Map(sorted, id)[j];
    }
  }

  lemma SameCounts(picks: seq<Pick>, sorted: seq<Pick>, chip: Option<string>, subs: seq<AutoSub>, id: Option<int>)
    requires multiset(sorted) == multiset(picks)
    ensures CountsIn(picks, chip, subs, id) <==> CountsIn(sorted, chip, subs, id)
  {
    SameMembers(sorted, picks);
    if CountsIn(picks, chip, subs, id) {
      var k :| 0 <= k < |picks| && picks[k].elementId == id.value && Counts(picks[k], chip, subs);
      assert picks[k] in sorted;
    }
    if CountsIn(sorted, chip, subs, id) {
      var k :| 0 <= k < |sorted| && sorted[k].elementId == id.value && Counts(sorted[k], chip, subs);
      assert sorted[k] in picks;
    }
  }

  /** Steps 1 and 2: base multipliers, and auto-subs unless bench boost is played. */
  method BaseMultipliers(sorted: seq<Pick>, chip: Option<string>, autoSubs: seq<AutoSub>)
    returns (base: Multipliers, marks: map<int, Direction>, source: SubSource)
    ensures base == Base(sorted, chip, autoSubs)
    ensures forall k | 0 <= k < |sorted| ::
      LastSub(SubsUsed(chip, autoSubs), sorted[k].elementId) == if sorted[k].elementId in marks then Some(marks[sorted[k].elementId]) else None
    ensures source == if SubsUsed(chip, autoSubs) == [] then NO_SUBS else autoSubs[0].source
  {
    var start, used := BaseOf(sorted, IsBenchBoost(chip)), SubsUsed(chip, autoSubs);
    forall k | 0 <= k < |sorted|
      ensures LastSub(used, sorted[k].elementId) == if sorted[k].elementId in Marks(start, used) then Some(Marks(start, used)[sorted[k].elementId]) else None
    {
      MarksAreLast(start, used, sorted[k].elementId);
    }
    base, marks, source := BaseOf(sorted, IsBenchBoost(chip)), map[], NO_SUBS;
    if !IsBenchBoost(chip) && |autoSubs| > 0 {
      source := autoSubs[0].source;
      base, marks := ApplyAutoSubs(base, autoSubs);
    }
  }

  /** The warnings; the cross-checks against FPL wait until the captaincy is settled. */
  method CrossChecks(chip: Option<string>, sorted: seq<Pick>, out: seq<OutPick>, settledNow: bool, points: int, gross: Option<int>)
    returns (warnings: seq<Warning>)
    requires |out| == |sorted|
    ensures UNKNOWN_CHIP in warnings <==>
      chip.Some? && chip.value != "bboost" && chip.value != "3xc" && chip.value != "wildcard" && chip.value != "freehit"
    ensures FPL_MULTIPLIER_DIFFERS in warnings <==>
      settledNow && exists k :: 0 <= k < |sorted| && sorted[k].fplMultiplier != out[k].effectiveMultiplier
    ensures EFFECTIVE_POINTS_MISMATCH in warnings <==> settledNow && gross.Some? && points != gross.value
  {
    warnings := if chip.Some? && !IsKnownChip(chip.value) then [UNKNOWN_CHIP] else [];
    if settledNow && exists k :: 0 <= k < |sorted| && sorted[k].fplMultiplier != out[k].effectiveMultiplier {
      warnings := warnings + [FPL_MULTIPLIER_DIFFERS];
    }
    if settledNow && gross.Some? && points != gross.value {
      warnings := warnings + [EFFECTIVE_POINTS_MISMATCH];
    }
  }

  // ---- conservation of multipliers ----

  /** pickViolations: fifteen picks, distinct positions and elements; the schema keeps positions in 1..15. */
  predicate ValidSquad(picks: seq<Pick>) {
    && |picks| == 15
    && (forall k | 0 <= k < |picks| :: 1 <= picks[k].squadPosition <= 15)
    && DistinctKeys(picks, PositionOf())
    && DistinctElements(picks)
  }

  predicate DistinctElements(picks: seq<Pick>) {
    forall i, j | 0 <= i < j < |picks| :: picks[i].elementId != picks[j].elementId
  }

  /** The sum of the picks' multipliers. */
  function Total(sorted: seq<Pick>, m: Multipliers): int
    requires forall k | 0 <= k < |sorted| :: sorted[k].elementId in m
  {
    if sorted == [] then 0 else Total(sorted[..|sorted| - 1], m) + m[sorted[|sorted| - 1].elementId]
  }

  predicate Covers(m: Multipliers, sorted: seq<Pick>) {
    forall k | 0 <= k < |sorted| :: sorted[k].elementId in m
  }

  predicate Has(sorted: seq<Pick>, id: int) {
    exists k :: 0 <= k < |sorted| && sorted[k].elementId == id
  }

  /** Changing one element's multiplier changes the total by exactly that much. */
  lemma {:induction false} TotalAfterSet(sorted: seq<Pick>, m: Multipliers, id: int, v: int)
    requires DistinctElements(sorted) && Covers(m, sorted) && id in m
    ensures Covers(m[id := v], sorted)
    ensures Total(sorted, m[id := v]) == Total(sorted, m) + (if Has(sorted, id) then v - m[id] else 0)
  {
    if sorted != [] {
      var n := |sorted| - 1;
      TotalAfterSet(sorted[..n], m, id, v);
      HasSplit(sorted, id);
      if Has(sorted[..n], id) {
        var k :| 0 <= k < n && sorted[..n][k].elementId == id;
        assert sorted[k].elementId != sorted[n].elementId;
      }
    }
  }

  lemma HasSplit(sorted: seq<Pick>, id: int)
    requires sorted != []
    ensures Has(sorted, id) <==> Has(sorted[..|sorted| - 1], id) || sorted[|sorted| - 1].elementId == id
  {
  }

  /** A sub that takes a starter out and brings a benched pick in. */
  predicate Swaps(m: Multipliers, sorted: seq<Pick>, s: AutoSub) {
    && Has(sorted, s.elementOut) && Has(sorted, s.elementIn)
    && s.elementOut in m && m[s.elementOut] == 1
    && s.elementIn in m && m[s.elementIn] == 0
  }

  /** Every sub, in turn, is such a swap on what the earlier ones left. */
  predicate WellFormedSubs(m: Multipliers, sorted: seq<Pick>, subs: seq<AutoSub>) {
    forall k | 0 <= k < |subs| :: Swaps(Substituted(m, subs[..k]), sorted, subs[k])
  }

  lemma {:induction false} SubsKeepTotal(sorted: seq<Pick>, m: Multipliers, subs: seq<AutoSub>)
    requires DistinctElements(sorted) && Covers(m, sorted) && WellFormedSubs(m, sorted, subs)
    ensures Covers(Substituted(m, subs), sorted) && Total(sorted, Substituted(m, subs)) == Total(sorted, m)
  {
    if subs != [] {
      var n := |subs| - 1;
      var s, before := subs[n], Substituted(m, subs[..n]);
      assert forall k | 0 <= k < n :: subs[..n][..k] == subs[..k];
      SubsKeepTotal(sorted, m, subs[..n]);
      assert Swaps(before, sorted, s);
      TotalAfterSet(sorted, before, s.elementOut, 0);
      TotalAfterSet(sorted, before[s.elementOut := 0], s.elementIn, 1);
    }
  }

  lemma {:induction false} PositionsAtLeast(sorted: seq<Pick>, k: nat)
    requires k < |sorted| && sorted[0].squadPosition >= 1
    requires forall i, j | 0 <= i < j < |sorted| :: sorted[i].squadPosition < sorted[j].squadPosition
    ensures sorted[k].squadPosition >= k + 1
    ensures sorted[|sorted| - 1].squadPosition >= sorted[k].squadPosition + (|sorted| - 1 - k)
    decreases |sorted| - k
  {
    if k < |sorted| - 1 {
      PositionsAtLeast(sorted, k + 1);
    }
    PositionsFromStart(sorted, k);
  }

  lemma {:induction false} PositionsFromStart(sorted: seq<Pick>, k: nat)
    requires k < |sorted| && sorted[0].squadPosition >= 1
    requires forall i, j | 0 <= i < j < |sorted| :: sorted[i].squadPosition < sorted[j].squadPosition
    ensures sorted[k].squadPosition >= k + 1
  {
    if k > 0 {
      PositionsFromStart(sorted, k - 1);
    }
  }

  /** Fifteen distinct positions in 1..15, sorted, are 1, 2, ..., 15. */
  lemma PositionsAreRanks(picks: seq<Pick>)
    requires ValidSquad(picks)
    ensures var sorted := SortByKey(picks, PositionOf());
      |sorted| == 15 && DistinctElements(sorted) && forall k | 0 <= k < 15 :: sorted[k].squadPosition == k + 1
  {
    var sorted := SortByKey(picks, PositionOf());
    SortByKeyIsStrict(picks, PositionOf());
    assert forall i, j | 0 <= i < j < 15 :: PositionOf()(sorted[i]) < PositionOf()(sorted[j]);
    SameMembers(sorted, picks);
    forall k | 0 <= k < 15 ensures 1 <= sorted[k].squadPosition <= 15 {
      assert sorted[k] in picks;
    }
    forall k | 0 <= k < 15 ensures sorted[k].squadPosition == k + 1 {
      PositionsAtLeast(sorted, k);
    }
    forall i, j | 0 <= i < j < 15 ensures sorted[i].elementId != sorted[j].elementId {
      assert sorted[i] in picks && sorted[j] in picks;
      var a :| 0 <= a < 15 && picks[a] == sorted[i];
      var b :| 0 <= b < 15 && picks[b] == sorted[j];
      assert a != b;
    }
  }

  lemma {:induction false} BaseTotal(sorted: seq<Pick>, benchBoost: bool)
    requires DistinctElements(sorted) && forall k | 0 <= k < |sorted| :: sorted[k].squadPosition == k + 1
    ensures Total(sorted, BaseOf(sorted, benchBoost)) == if benchBoost || |sorted| <= 11 then |sorted| else 11
  {
    if sorted != [] {
      var n := |sorted| - 1;
      var before := BaseOf(sorted[..n], benchBoost);
      var last := sorted[n];
      BaseTotal(sorted[..n], benchBoost);
      TotalOfOthers(sorted[..n], before, last.elementId, Starts(last, benchBoost));
    }
  }

  lemma {:induction false} TotalOfOthers(sorted: seq<Pick>, m: Multipliers, id: int, v: int)
    requires Covers(m, sorted) && forall k | 0 <= k < |sorted| :: sorted[k].elementId != id
    ensures Covers(m[id := v], sorted) && Total(sorted, m[id := v]) == Total(sorted, m)
  {
    if sorted != [] {
      TotalOfOthers(sorted[..|sorted| - 1], m, id, v);
    }
  }

  /**
   Conservation: with well-formed auto-subs a squad's effective multipliers add up to 11, or 15 under
   bench boost, plus capMult - 1 exactly when somebody is multiplied; and nobody else exceeds 1.
   */
  lemma EffectiveTotal(picks: seq<Pick>, chip: Option<string>, subs: seq<AutoSub>, live: map<int, Stat>)
    requires ValidSquad(picks)
    requires var sorted := SortByKey(picks, PositionOf());
      !IsBenchBoost(chip) ==> WellFormedSubs(BaseOf(sorted, false), sorted, subs)
    ensures var sorted := SortByKey(picks, PositionOf());
      var c, m := Captain(sorted, chip, subs, live), Effective(sorted, chip, subs, live);
      && Total(sorted, m) == (if IsBenchBoost(chip) then 15 else 11) + (if c.multiplied.Some? then CapMult(chip) - 1 else 0)
      && forall k | 0 <= k < |sorted| :: m[sorted[k].elementId] > 1 <==> c.multiplied == Some(sorted[k].elementId)
  {
    var sorted := SortByKey(picks, PositionOf());
    var bb := IsBenchBoost(chip);
    var c := Captain(sorted, chip, subs, live);
    PositionsAreRanks(picks);
    BaseTotal(sorted, bb);
    if !bb {
      SubsKeepTotal(sorted, BaseOf(sorted, bb), subs);
    }
    var base := Base(sorted, chip, subs);
    assert Covers(base, sorted);
    if c.multiplied.Some? {
      KeysAreElements(sorted, bb, c.multiplied.value);
      TotalAfterSet(sorted, base, c.multiplied.value, CapMult(chip));
    }
  }

  lemma {:induction false} KeysAreElements(sorted: seq<Pick>, benchBoost: bool, id: int)
    requires id in BaseOf(sorted, benchBoost)
    ensures Has(sorted, id)
  {
    var n := |sorted| - 1;
    if sorted[n].elementId != id {
      KeysAreElements(sorted[..n], benchBoost, id);
    }
    HasSplit(sorted, id);
  }

  lemma {:induction false} FirstWithIsElement(sorted: seq<Pick>, p: Pick -> bool)
    ensures FirstWith(sorted, p).Some? ==> Has(sorted, FirstWith(sorted, p).value)
  {
    if sorted != [] && !p(sorted[0]) {
      FirstWithIsElement(sorted[1..], p);
      if Has(sorted[1..], FirstWith(sorted[1..], p).GetOr(0)) {
        var k :| 0 <= k < |sorted| - 1 && sorted[1..][k].elementId == FirstWith(sorted[1..], p).GetOr(0);
        assert sorted[k + 1].elementId == FirstWith(sorted[1..], p).GetOr(0);
      }
    } else if sorted != [] {
      assert sorted[0].elementId == FirstWith(sorted, p).value;
    }
  }

  /**
   Who of the two is multiplied, in the derived multipliers. The captain is, unless he is settled without
   having played or stands outside the eleven after auto-subs; the vice is, exactly when the captain is
   settled and is not, and the vice played and is in. Never both.
   */
  lemma ViceOnlyForMissingCaptain(picks: seq<Pick>, chip: Option<string>, subs: seq<AutoSub>, live: map<int, Stat>, captain: int, vice: int)
    requires var sorted := SortByKey(picks, PositionOf());
      CaptainOf(sorted) == Some(captain) && ViceOf(sorted) == Some(vice) && captain != vice
    ensures var sorted := SortByKey(picks, PositionOf());
      var base, m := Base(sorted, chip, subs), Effective(sorted, chip, subs, live);
      && captain in base && vice in base && captain in m && vice in m
      && (m[captain] > 1 <==> base[captain] == 1 && (StatAt(live, captain).minutes > 0 || !StatAt(live, captain).fixturesSettled))
      && (m[vice] > 1 <==>
            && Settled(live, Some(captain)) && m[captain] <= 1
            && StatAt(live, vice).minutes > 0 && base[vice] == 1)
  {
    var sorted := SortByKey(picks, PositionOf());
    FirstWithIsElement(sorted, (p: Pick) => p.isCaptain);
    FirstWithIsElement(sorted, (p: Pick) => p.isViceCaptain);
    ElementsAreKeys(sorted, IsBenchBoost(chip), captain);
    ElementsAreKeys(sorted, IsBenchBoost(chip), vice);
  }

  lemma ElementsAreKeys(sorted: seq<Pick>, benchBoost: bool, id: int)
    requires Has(sorted, id)
    ensures id in BaseOf(sorted, benchBoost)
  {
  }
}
