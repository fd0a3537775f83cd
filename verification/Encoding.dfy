/**
 The payloads of a stored result as JavaScript objects, with the source's field names, and how
 recomputeFromSnapshot reads them back (server/src/services/resultModel.js, lines 119-155). Each `…Value`
 is an object as the program builds it; each `…From` reads its fields from what is stored.
 */
module Encoding {
  import opened Wrappers
  import opened Sorting
  import opened Points
  import opened TieBreakers
  import opened Ranking
  import opened Winner
  import opened Eligibility
  import opened Results
  import opened Traces
  import C = Canonical

  type Value = C.Value
  type Json = C.Json
  type Form = C.Form

  // ---- objects and their fields ----

  /** The object with these fields, assigned in this order. */
  function ObjectOf(names: seq<string>, values: seq<Value>): Value
    requires |names| == |values|
  {
    if names == [] then C.Obj([])
    else
      var n := |names| - 1;
      WithField(ObjectOf(names[..n], values[..n]), names[n], values[n])
  }

  function WithField(v: Value, name: string, value: Value): Value {
    if v.Obj? then C.Obj(v.members + [(name, value)]) else v
  }

  lemma {:induction false} ObjectShape(names: seq<string>, values: seq<Value>)
    requires |names| == |values|
    ensures ObjectOf(names, values).Obj?
    ensures var members := ObjectOf(names, values).members;
      |members| == |names| && forall k | 0 <= k < |names| :: members[k] == (names[k], values[k])
  {
    if names != [] {
      ObjectShape(names[..|names| - 1], values[..|names| - 1]);
    }
  }

  /** `value[name]`; None for undefined. */
  function Field(j: Json, name: string): Option<Json> {
    if j.JObj? && name in j.members then Some(j.members[name]) else None
  }

  predicate Plain(v: Value) {
    v == C.Undefined || C.Canonicalizable(v)
  }

  function Shown(v: Value): Option<Json>
    requires Plain(v)
  {
    if v == C.Undefined then None else Some(C.MeaningOf(v, false))
  }

  /** Names that an object may be stored under: all different, none of them lost. */
  predicate Storable(names: seq<string>) {
    NoRepeats(names) && C.PROTO !in names
  }

  /** What the fields of an object read as. */
  function Columns(j: Json, names: seq<string>): (r: seq<Option<Json>>)
    ensures |r| == |names| && forall k | 0 <= k < |r| :: r[k] == Field(j, names[k])
  {
    seq(|names|, k requires 0 <= k < |names| => Field(j, names[k]))
  }

  function AllShown(values: seq<Value>): (r: seq<Option<Json>>)
    requires forall k | 0 <= k < |values| :: Plain(values[k])
    ensures |r| == |values| && forall k | 0 <= k < |r| :: r[k] == Shown(values[k])
  {
    seq(|values|, k requires 0 <= k < |values| => Shown(values[k]))
  }

  /** A stored object gives back each of its fields; one that was undefined is undefined again. */
  lemma ObjectReads(names: seq<string>, values: seq<Value>)
    requires |names| == |values| && Storable(names)
    requires forall k | 0 <= k < |values| :: Plain(values[k])
    ensures C.Canonicalizable(ObjectOf(names, values))
    ensures Columns(C.MeaningOf(ObjectOf(names, values), false), names) == AllShown(values)
  {
    var v := ObjectOf(names, values);
    ObjectShape(names, values);
    assert C.DistinctNames(v.members);
    forall k | 0 <= k < |names| ensures Field(C.MeaningOf(v, false), names[k]) == Shown(values[k]) {
      FieldReads(v, k);
    }
  }

  lemma FieldReads(v: Value, k: nat)
    requires v.Obj? && C.Canonicalizable(v) && k < |v.members| && v.members[k].0 != C.PROTO
    ensures Plain(v.members[k].1)
    ensures Field(C.MeaningOf(v, false), v.members[k].0) == Shown(v.members[k].1)
  {
    if v.members[k].1 == C.Undefined {
      UndefinedIsMissing(v, k);
    } else {
      DefinedIsShown(v, k);
    }
  }

  lemma DefinedIsShown(v: Value, k: nat)
    requires v.Obj? && C.Canonicalizable(v) && k < |v.members| && v.members[k].0 != C.PROTO && v.members[k].1 != C.Undefined
    ensures Field(C.MeaningOf(v, false), v.members[k].0) == Some(C.MeaningOf(v.members[k].1, false))
  {
    var name, value := v.members[k].0, v.members[k].1;
    var listed := C.Listed(v.members, false);
    var shown := C.Meanings(v, listed, false);
    C.ListedIsDistinct(v.members, false);
    assert v.members[k] in listed;
    var i :| 0 <= i < |listed| && listed[i] == v.members[k];
    assert shown[i] == (name, C.MeaningOf(value, false));
    C.TableHolds(shown, name, C.MeaningOf(value, false));
  }

  lemma UndefinedIsMissing(v: Value, k: nat)
    requires v.Obj? && C.Canonicalizable(v) && k < |v.members| && v.members[k].1 == C.Undefined
    ensures Field(C.MeaningOf(v, false), v.members[k].0) == None
  {
    var name := v.members[k].0;
    var shown := C.Meanings(v, C.Listed(v.members, false), false);
    C.ListedIsDistinct(v.members, false);
    if name in C.Table(shown) {
      C.TableHolds(shown, name, C.Table(shown)[name]);
    }
  }

  // ---- lists ----

  function ListValue<T(!new)>(xs: seq<T>, enc: T -> Value): Value {
    C.Arr(Map(xs, enc))
  }

  function ListFrom<T(!new)>(o: Option<Json>, dec: Json -> T): seq<T> {
    match o
    case Some(JArr(items)) => Map(items, dec)
    case _ => []
  }

  /** The object made of x reads back as x. */
  ghost predicate Reads<T(!new)>(x: T, enc: T -> Value, dec: Json -> T) {
    C.Canonicalizable(enc(x)) && dec(C.MeaningOf(enc(x), false)) == x
  }

  lemma ListReads<T(!new)>(xs: seq<T>, enc: T -> Value, dec: Json -> T)
    requires forall k | 0 <= k < |xs| :: Reads(xs[k], enc, dec)
    ensures C.Canonicalizable(ListValue(xs, enc))
    ensures ListFrom(Shown(ListValue(xs, enc)), dec) == xs
  {
    var v := ListValue(xs, enc);
    forall k | 0 <= k < |xs| ensures C.Canonicalizable(v.items[k]) {
      assert Reads(xs[k], enc, dec);
    }
    var back := ListFrom(Shown(v), dec);
    assert |back| == |xs|;
    forall k | 0 <= k < |xs| ensures back[k] == xs[k] {
      assert Reads(xs[k], enc, dec);
    }
  }

  lemma ListIsPlain<T(!new)>(xs: seq<T>, enc: T -> Value)
    requires forall k | 0 <= k < |xs| :: C.Canonicalizable(enc(xs[k]))
    ensures C.Canonicalizable(ListValue(xs, enc))
  {
  }

  // ---- numbers, texts and enums ----

  function Num(n: int): Value {
    C.Number(n as real)
  }

  function NumOrNull(o: Option<int>): Value {
    match o case Some(n) => Num(n) case None => C.Null
  }

  function TextOrNull(o: Option<string>): Value {
    match o case Some(s) => C.Text(s) case None => C.Null
  }

  function IntOf(o: Option<Json>): int {
    match o case Some(JNumber(n)) => n.Floor case _ => 0
  }

  function IntOrNullOf(o: Option<Json>): Option<int> {
    match o case Some(JNumber(n)) => Some(n.Floor) case _ => None
  }

  function BoolOf(o: Option<Json>): bool {
    match o case Some(JBool(b)) => b case _ => false
  }

  function TextOf(o: Option<Json>): string {
    match o case Some(JText(s)) => s case _ => ""
  }

  function TextOrNullOf(o: Option<Json>): Option<string> {
    match o case Some(JText(s)) => Some(s) case _ => None
  }

  function IntFrom(j: Json): int {
    IntOf(Some(j))
  }

  lemma IntsRead(ids: seq<int>)
    ensures C.Canonicalizable(ListValue(ids, Num))
    ensures ListFrom(Shown(ListValue(ids, Num)), IntFrom) == ids
  {
    forall k | 0 <= k < |ids| ensures Reads(ids[k], Num, IntFrom) {
    }
    ListReads(ids, Num, IntFrom);
  }

  function RuleName(r: Rule): string {
    match r
    case FewerTransferCost => "FEWER_TRANSFER_COST"
    case HigherGrossPoints => "HIGHER_GROSS_POINTS"
    case HigherCaptainPoints => "HIGHER_CAPTAIN_POINTS"
    case FewerPointsOnBench => "FEWER_POINTS_ON_BENCH"
    case NoChipPlayed => "NO_CHIP_PLAYED"
    case HigherSeasonTotal => "HIGHER_SEASON_TOTAL"
    case BetterOverallRank => "BETTER_OVERALL_RANK"
    case Shared => "SHARED"
  }

  function RuleOf(s: string): Rule {
    if s == "FEWER_TRANSFER_COST" then FewerTransferCost
    else if s == "HIGHER_GROSS_POINTS" then HigherGrossPoints
    else if s == "HIGHER_CAPTAIN_POINTS" then HigherCaptainPoints
    else if s == "FEWER_POINTS_ON_BENCH" then FewerPointsOnBench
    else if s == "NO_CHIP_PLAYED" then NoChipPlayed
    else if s == "HIGHER_SEASON_TOTAL" then HigherSeasonTotal
    else if s == "BETTER_OVERALL_RANK" then BetterOverallRank
    else Shared
  }

  function EventStateName(s: EventState): string {
    match s
    case UPCOMING => "UPCOMING"
    case LIVE => "LIVE"
    case MATCHES_FINISHED => "MATCHES_FINISHED"
    case FPL_PROCESSING => "FPL_PROCESSING"
    case DATA_CHECKED => "DATA_CHECKED"
  }

  function EventStateOf(o: Option<string>): Option<EventState> {
    match o
    case None => None
    case Some(s) =>
      if s == "UPCOMING" then Some(UPCOMING)
      else if s == "LIVE" then Some(LIVE)
      else if s == "MATCHES_FINISHED" then Some(MATCHES_FINISHED)
      else if s == "FPL_PROCESSING" then Some(FPL_PROCESSING)
      else Some(DATA_CHECKED)
  }

  function StatusName(s: ReconciliationStatus): string {
    match s
    case RECONCILED => "RECONCILED"
    case RECONCILED_NO_COST => "RECONCILED_NO_COST"
    case MISMATCH => "MISMATCH"
    case SEMANTICS_CONFLICT => "SEMANTICS_CONFLICT"
    case SOURCE_DISAGREEMENT => "SOURCE_DISAGREEMENT"
    case INCOMPLETE => "INCOMPLETE"
  }

  function ReconciliationOf(s: string): ReconciliationStatus {
    if s == "RECONCILED" then RECONCILED
    else if s == "RECONCILED_NO_COST" then RECONCILED_NO_COST
    else if s == "MISMATCH" then MISMATCH
    else if s == "SEMANTICS_CONFLICT" then SEMANTICS_CONFLICT
    else if s == "SOURCE_DISAGREEMENT" then SOURCE_DISAGREEMENT
    else INCOMPLETE
  }

  function SemanticsName(s: PointsSemantics): string {
    match s
    case UNVERIFIED => "UNVERIFIED"
    case GROSS_BEFORE_HITS => "GROSS_BEFORE_HITS"
    case NET_AFTER_HITS => "NET_AFTER_HITS"
    case CONFLICTED => "CONFLICTED"
  }

  function SemanticsOf(s: string): PointsSemantics {
    if s == "UNVERIFIED" then UNVERIFIED
    else if s == "GROSS_BEFORE_HITS" then GROSS_BEFORE_HITS
    else if s == "NET_AFTER_HITS" then NET_AFTER_HITS
    else CONFLICTED
  }

  lemma RuleReads(r: Rule)
    ensures RuleOf(RuleName(r)) == r
  {
  }

  lemma EventStateReads(e: Option<EventState>)
    ensures EventStateOf(EventStateText(e)) == e
  {
  }

  lemma StatusReads(s: ReconciliationStatus)
    ensures ReconciliationOf(StatusName(s)) == s
  {
  }

  lemma SemanticsReads(p: PointsSemantics)
    ensures SemanticsOf(SemanticsName(p)) == p
  {
  }

  function EventStateText(e: Option<EventState>): Option<string> {
    match e case Some(s) => Some(EventStateName(s)) case None => None
  }

  function RuleValue(r: Rule): Value {
    C.Text(RuleName(r))
  }

  function RuleFrom(j: Json): Rule {
    RuleOf(TextOf(Some(j)))
  }

  lemma RulesRead(rules: seq<Rule>)
    ensures C.Canonicalizable(ListValue(rules, RuleValue))
    ensures ListFrom(Shown(ListValue(rules, RuleValue)), RuleFrom) == rules
  {
    forall k | 0 <= k < |rules| ensures Reads(rules[k], RuleValue, RuleFrom) {
      RuleReads(rules[k]);
    }
    ListReads(rules, RuleValue, RuleFrom);
  }

  lemma NumReads(n: int)
    ensures Plain(Num(n)) && IntOf(Shown(Num(n))) == n
  {
  }

  lemma NumOrNullReads(o: Option<int>)
    ensures Plain(NumOrNull(o)) && IntOrNullOf(Shown(NumOrNull(o))) == o
  {
  }

  lemma TextReads(s: string)
    ensures Plain(C.Text(s)) && TextOf(Shown(C.Text(s))) == s
  {
  }

  lemma TextOrNullReads(o: Option<string>)
    ensures Plain(TextOrNull(o)) && TextOrNullOf(Shown(TextOrNull(o))) == o
  {
  }

  // ---- the engine inputs ----

  const GROUP: seq<string> := ["winnerRule", "tieBreakRules", "myEntryId"]

  function GroupFields(g: Group): seq<Value> {
    [C.Text(if g.winnerRule == NET_POINTS then "NET_POINTS" else "GROSS_POINTS"),
     ListValue(g.tieBreakRules, RuleValue), NumOrNull(g.myEntryId)]
  }

  function GroupValue(g: Group): Value {
    ObjectOf(GROUP, GroupFields(g))
  }

  function GroupOf(c: seq<Option<Json>>): Group
    requires |c| == 3
  {
    Group(if TextOf(c[0]) == "NET_POINTS" then NET_POINTS else GROSS_POINTS, ListFrom(c[1], RuleFrom), IntOrNullOf(c[2]))
  }

  function GroupFrom(j: Json): Group {
    GroupOf(Columns(j, GROUP))
  }

  lemma GroupOfFields(g: Group)
    ensures forall k | 0 <= k < 3 :: Plain(GroupFields(g)[k])
    ensures GroupOf(AllShown(GroupFields(g))) == g
  {
    RulesRead(g.tieBreakRules);
    NumOrNullReads(g.myEntryId);
    TextReads(if g.winnerRule == NET_POINTS then "NET_POINTS" else "GROSS_POINTS");
  }

  lemma GroupReads(g: Group)
    ensures Reads(g, GroupValue, GroupFrom)
  {
    GroupOfFields(g);
    ObjectReads(GROUP, GroupFields(g));
  }

  const MEMBER: seq<string> := ["entryId", "isExcluded", "joinedEvent", "synced"]

  function MemberFields(m: Member): seq<Value> {
    [Num(m.entryId), C.Bool(m.isExcluded), NumOrNull(m.joinedEvent), C.Bool(m.synced)]
  }

  function MemberValue(m: Member): Value {
    ObjectOf(MEMBER, MemberFields(m))
  }

  function MemberOf(c: seq<Option<Json>>): Member
    requires |c| == 4
  {
    Member(IntOf(c[0]), BoolOf(c[1]), IntOrNullOf(c[2]), BoolOf(c[3]))
  }

  function MemberFrom(j: Json): Member {
    MemberOf(Columns(j, MEMBER))
  }

  lemma MemberOfFields(m: Member)
    ensures forall k | 0 <= k < 4 :: Plain(MemberFields(m)[k])
    ensures MemberOf(AllShown(MemberFields(m))) == m
  {
    NumReads(m.entryId);
    NumOrNullReads(m.joinedEvent);
  }

  lemma MemberReads(m: Member)
    ensures Reads(m, MemberValue, MemberFrom)
  {
    MemberOfFields(m);
    ObjectReads(MEMBER, MemberFields(m));
  }

  /** null and undefined are different chips. */
  function ChipValue(c: ChipField): Value {
    match c
    case Undefined => C.Undefined
    case NoChip => C.Null
    case Chip(name) => C.Text(name)
  }

  function ChipOf(o: Option<Json>): ChipField {
    match o
    case None => Undefined
    case Some(JText(name)) => Chip(name)
    case _ => NoChip
  }

  lemma ChipReads(c: ChipField)
    ensures Plain(ChipValue(c)) && ChipOf(Shown(ChipValue(c))) == c
  {
  }

  const GW_ROW: seq<string> := [
    "entryId", "event", "reportedGwPoints", "transferCost", "netGwPoints", "grossGwPoints",
    "totalPoints", "pointsOnBench", "activeChip", "overallRank", "pointsSemantics", "reconciliationStatus"]

  function GwRowFields(r: GwRow): seq<Value> {
    [Num(r.entryId), Num(r.event), Num(r.reportedGwPoints), Num(r.transferCost), NumOrNull(r.netGwPoints), NumOrNull(r.grossGwPoints),
     NumOrNull(r.totalPoints), NumOrNull(r.pointsOnBench), ChipValue(r.activeChip), NumOrNull(r.overallRank),
     C.Text(SemanticsName(r.pointsSemantics)), C.Text(StatusName(r.reconciliationStatus))]
  }

  function GwRowValue(r: GwRow): Value {
    ObjectOf(GW_ROW, GwRowFields(r))
  }

  function GwRowOf(c: seq<Option<Json>>): GwRow
    requires |c| == 12
  {
    GwRow(IntOf(c[0]), IntOf(c[1]), IntOf(c[2]), IntOf(c[3]), IntOrNullOf(c[4]), IntOrNullOf(c[5]),
          IntOrNullOf(c[6]), IntOrNullOf(c[7]), ChipOf(c[8]), IntOrNullOf(c[9]), SemanticsOf(TextOf(c[10])), ReconciliationOf(TextOf(c[11])))
  }

  function GwRowFrom(j: Json): GwRow {
    GwRowOf(Columns(j, GW_ROW))
  }

  predicate GwRowIsPlain(r: GwRow) {
    |GwRowFields(r)| == 12 && forall k | 0 <= k < 12 :: Plain(GwRowFields(r)[k])
  }

  lemma GwRowNumbers(r: GwRow, c: seq<Option<Json>>)
    requires GwRowIsPlain(r) && c == AllShown(GwRowFields(r))
    ensures IntOf(c[0]) == r.entryId && IntOf(c[1]) == r.event && IntOf(c[2]) == r.reportedGwPoints && IntOf(c[3]) == r.transferCost
  {
  }

  lemma GwRowOptions(r: GwRow, c: seq<Option<Json>>)
    requires GwRowIsPlain(r) && c == AllShown(GwRowFields(r))
    ensures IntOrNullOf(c[4]) == r.netGwPoints && IntOrNullOf(c[5]) == r.grossGwPoints && IntOrNullOf(c[6]) == r.totalPoints
    ensures IntOrNullOf(c[7]) == r.pointsOnBench && IntOrNullOf(c[9]) == r.overallRank
  {
  }

  lemma GwRowTexts(r: GwRow, c: seq<Option<Json>>)
    requires GwRowIsPlain(r) && c == AllShown(GwRowFields(r))
    ensures ChipOf(c[8]) == r.activeChip && SemanticsOf(TextOf(c[10])) == r.pointsSemantics && ReconciliationOf(TextOf(c[11])) == r.reconciliationStatus
  {
    ChipReads(r.activeChip);
    SemanticsReads(r.pointsSemantics);
    StatusReads(r.reconciliationStatus);
  }

  lemma GwRowPlain(r: GwRow)
    ensures GwRowIsPlain(r)
  {
    ChipReads(r.activeChip);
  }

  lemma GwRowOfFields(r: GwRow, c: seq<Option<Json>>)
    requires GwRowIsPlain(r) && c == AllShown(GwRowFields(r))
    ensures GwRowOf(c) == r
  {
    GwRowNumbers(r, c);
    GwRowOptions(r, c);
    GwRowTexts(r, c);
  }

  lemma GwRowNames()
    ensures Storable(GW_ROW)
  {
  }

  lemma GwRowReads(r: GwRow)
    ensures Reads(r, GwRowValue, GwRowFrom)
  {
    GwRowPlain(r);
    GwRowNames();
    GwRowOfFields(r, AllShown(GwRowFields(r)));
    ObjectReads(GW_ROW, GwRowFields(r));
  }

  const SQUAD: seq<string> := ["entryId", "captainPoints"]

  function SquadFields(s: (int, Option<int>)): seq<Value> {
    [Num(s.0), NumOrNull(s.1)]
  }

  function SquadValue(s: (int, Option<int>)): Value {
    ObjectOf(SQUAD, SquadFields(s))
  }

  function SquadFrom(j: Json): (int, Option<int>) {
    var c := Columns(j, SQUAD);
    (IntOf(c[0]), IntOrNullOf(c[1]))
  }

  lemma SquadReads(s: (int, Option<int>))
    ensures Reads(s, SquadValue, SquadFrom)
  {
    NumReads(s.0);
    NumOrNullReads(s.1);
    ObjectReads(SQUAD, SquadFields(s));
  }

  const MANAGER: seq<string> := ["entryId", "playerName", "teamName"]

  function ManagerFields(m: (int, Names)): seq<Value> {
    [Num(m.0), TextOrNull(m.1.playerName), TextOrNull(m.1.teamName)]
  }

  function ManagerValue(m: (int, Names)): Value {
    ObjectOf(MANAGER, ManagerFields(m))
  }

  function ManagerFrom(j: Json): (int, Names) {
    var c := Columns(j, MANAGER);
    (IntOf(c[0]), Names(TextOrNullOf(c[1]), TextOrNullOf(c[2])))
  }

  lemma ManagerReads(m: (int, Names))
    ensures Reads(m, ManagerValue, ManagerFrom)
  {
    NumReads(m.0);
    TextOrNullReads(m.1.playerName);
    TextOrNullReads(m.1.teamName);
    ObjectReads(MANAGER, ManagerFields(m));
  }

  lemma MembersRead(members: seq<Member>)
    ensures Plain(ListValue(members, MemberValue))
    ensures ListFrom(Shown(ListValue(members, MemberValue)), MemberFrom) == members
  {
    forall k | 0 <= k < |members| ensures Reads(members[k], MemberValue, MemberFrom) {
      MemberReads(members[k]);
    }
    ListReads(members, MemberValue, MemberFrom);
  }

  lemma GwRowsRead(rows: seq<GwRow>)
    ensures Plain(ListValue(rows, GwRowValue))
    ensures ListFrom(Shown(ListValue(rows, GwRowValue)), GwRowFrom) == rows
  {
    forall k | 0 <= k < |rows| ensures Reads(rows[k], GwRowValue, GwRowFrom) {
      GwRowReads(rows[k]);
    }
    ListReads(rows, GwRowValue, GwRowFrom);
  }

  lemma SquadsRead(squads: seq<(int, Option<int>)>)
    ensures Plain(ListValue(squads, SquadValue))
    ensures ListFrom(Shown(ListValue(squads, SquadValue)), SquadFrom) == squads
  {
    forall k | 0 <= k < |squads| ensures Reads(squads[k], SquadValue, SquadFrom) {
      SquadReads(squads[k]);
    }
    ListReads(squads, SquadValue, SquadFrom);
  }

  lemma ManagersRead(managers: seq<(int, Names)>)
    ensures Plain(ListValue(managers, ManagerValue))
    ensures ListFrom(Shown(ListValue(managers, ManagerValue)), ManagerFrom) == managers
  {
    forall k | 0 <= k < |managers| ensures Reads(managers[k], ManagerValue, ManagerFrom) {
      ManagerReads(managers[k]);
    }
    ListReads(managers, ManagerValue, ManagerFrom);
  }

  const INPUTS: seq<string> := ["group", "event", "eventState", "members", "gwRows", "effectiveSquads"]

  function InputsFields(i: EngineInputs): seq<Value> {
    [GroupValue(i.group), Num(i.event), TextOrNull(EventStateText(i.eventState)),
     ListValue(i.members, MemberValue), ListValue(i.gwRows, GwRowValue), ListValue(i.effectiveSquads, SquadValue)]
  }

  /** `result.inputs` */
  function InputsValue(i: EngineInputs): Value {
    ObjectOf(INPUTS, InputsFields(i))
  }

  const SAVED: seq<string> := INPUTS + ["managers"]

  function SavedFields(i: EngineInputs, managers: seq<(int, Names)>): seq<Value> {
    InputsFields(i) + [ListValue(managers, ManagerValue)]
  }

  /** `{ ...result.inputs, managers: managersList(inputs.managers) }` */
  function SavedValue(i: EngineInputs, managers: seq<(int, Names)>): Value {
    ObjectOf(SAVED, SavedFields(i, managers))
  }

  function InputsOf(c: seq<Option<Json>>): EngineInputs
    requires |c| == 6
  {
    EngineInputs(
      match c[0] case Some(g) => GroupFrom(g) case None => Group(NET_POINTS, [], None),
      IntOf(c[1]), EventStateOf(TextOrNullOf(c[2])),
      ListFrom(c[3], MemberFrom), ListFrom(c[4], GwRowFrom), ListFrom(c[5], SquadFrom))
  }

  function InputsFrom(j: Json): EngineInputs {
    InputsOf(Columns(j, INPUTS))
  }

  /** `i.managers ?? []` */
  function ManagersFrom(j: Json): seq<(int, Names)> {
    ListFrom(Field(j, "managers"), ManagerFrom)
  }

  predicate InputsArePlain(i: EngineInputs) {
    |InputsFields(i)| == 6 && forall k | 0 <= k < 6 :: Plain(InputsFields(i)[k])
  }

  lemma SixArePlain(f: seq<Value>)
    requires |f| == 6 && Plain(f[0]) && Plain(f[1]) && Plain(f[2]) && Plain(f[3]) && Plain(f[4]) && Plain(f[5])
    ensures forall k | 0 <= k < 6 :: Plain(f[k])
  {
  }

  lemma GroupIsPlain(g: Group)
    ensures Plain(GroupValue(g))
  {
    GroupReads(g);
  }

  lemma InputsPlain(i: EngineInputs)
    ensures InputsArePlain(i)
  {
    GroupIsPlain(i.group);
    NumReads(i.event);
    TextOrNullReads(EventStateText(i.eventState));
    MembersRead(i.members);
    GwRowsRead(i.gwRows);
    SquadsRead(i.effectiveSquads);
    SixArePlain(InputsFields(i));
  }

  lemma InputsHead(i: EngineInputs, c: seq<Option<Json>>)
    requires InputsArePlain(i) && c == AllShown(InputsFields(i))
    ensures c[0].Some? && GroupFrom(c[0].value) == i.group
    ensures IntOf(c[1]) == i.event && EventStateOf(TextOrNullOf(c[2])) == i.eventState
  {
    GroupReads(i.group);
    NumReads(i.event);
    TextOrNullReads(EventStateText(i.eventState));
    EventStateReads(i.eventState);
  }

  lemma InputsLists(i: EngineInputs, c: seq<Option<Json>>)
    requires InputsArePlain(i) && c == AllShown(InputsFields(i))
    ensures ListFrom(c[3], MemberFrom) == i.members && ListFrom(c[4], GwRowFrom) == i.gwRows && ListFrom(c[5], SquadFrom) == i.effectiveSquads
  {
    MembersRead(i.members);
    GwRowsRead(i.gwRows);
    SquadsRead(i.effectiveSquads);
  }

  lemma InputsOfFields(i: EngineInputs, c: seq<Option<Json>>)
    requires InputsArePlain(i) && c == AllShown(InputsFields(i))
    ensures InputsOf(c) == i
  {
    InputsHead(i, c);
    InputsLists(i, c);
  }

  lemma InputsNames()
    ensures Storable(INPUTS) && Storable(SAVED)
    ensures |SAVED| == 7 && SAVED[..6] == INPUTS && SAVED[6] == "managers"
  {
  }

  lemma InputsRead(i: EngineInputs)
    ensures Reads(i, InputsValue, InputsFrom)
  {
    InputsPlain(i);
    InputsNames();
    InputsOfFields(i, AllShown(InputsFields(i)));
    ObjectReads(INPUTS, InputsFields(i));
  }

  lemma SavedReads(i: EngineInputs, managers: seq<(int, Names)>)
    ensures C.Canonicalizable(SavedValue(i, managers))
    ensures InputsFrom(C.MeaningOf(SavedValue(i, managers), false)) == i
    ensures ManagersFrom(C.MeaningOf(SavedValue(i, managers), false)) == managers
  {
    InputsPlain(i);
    ManagersRead(managers);
    InputsNames();
    ObjectReads(SAVED, SavedFields(i, managers));
    SavedColumns(i, managers, C.MeaningOf(SavedValue(i, managers), false));
  }

  lemma SavedColumns(i: EngineInputs, managers: seq<(int, Names)>, j: Json)
    requires InputsArePlain(i) && Plain(ListValue(managers, ManagerValue))
    requires Columns(j, SAVED) == AllShown(SavedFields(i, managers))
    ensures InputsFrom(j) == i && ManagersFrom(j) == managers
  {
    InputsNames();
    ColumnsSplit(j, INPUTS, SAVED, InputsFields(i), SavedFields(i, managers));
    InputsOfFields(i, AllShown(InputsFields(i)));
    ManagersRead(managers);
    assert Columns(j, SAVED)[6] == AllShown(SavedFields(i, managers))[6];
  }

  /** An object with more fields shows the first ones as an object without them would. */
  lemma ColumnsSplit(j: Json, names: seq<string>, more: seq<string>, values: seq<Value>, moreValues: seq<Value>)
    requires names <= more && values <= moreValues && |names| == |values| && |more| == |moreValues|
    requires forall k | 0 <= k < |moreValues| :: Plain(moreValues[k])
    requires Columns(j, more) == AllShown(moreValues)
    ensures Columns(j, names) == AllShown(values)
  {
    forall k | 0 <= k < |names| ensures Columns(j, names)[k] == AllShown(values)[k] {
      assert Columns(j, more)[k] == AllShown(moreValues)[k];
    }
  }

  // ---- the stored forms of the inputs ----

  /** What inputsHash is taken of. */
  function InputsForm(i: EngineInputs): Form {
    InputsRead(i);
    C.FormOf(InputsValue(i))
  }

  /** snapshot.inputs */
  function SavedForm(i: EngineInputs, managers: seq<(int, Names)>): Form {
    SavedReads(i, managers);
    C.FormOf(SavedValue(i, managers))
  }

  function InputsIn(f: Form): EngineInputs {
    InputsFrom(C.Read(f))
  }

  function ManagersIn(f: Form): seq<(int, Names)> {
    ManagersFrom(C.Read(f))
  }

  /** The stored inputs are read back exactly: numbers, names, nulls, and a chip that was undefined. */
  lemma SavedInputsReadBack(i: EngineInputs, managers: seq<(int, Names)>)
    ensures InputsIn(SavedForm(i, managers)) == i && ManagersIn(SavedForm(i, managers)) == managers
    ensures InputsIn(InputsForm(i)) == i
  {
    SavedReads(i, managers);
    C.FormReadsAsShown(SavedValue(i, managers));
    InputsRead(i);
    C.FormReadsAsShown(InputsValue(i));
  }

  /** Different engine inputs have different canonical text, and so do different stored inputs. */
  lemma FormsAreInjective(i: EngineInputs, managers: seq<(int, Names)>, j: EngineInputs, others: seq<(int, Names)>)
    ensures InputsForm(i) == InputsForm(j) <==> i == j
    ensures SavedForm(i, managers) == SavedForm(j, others) <==> i == j && managers == others
  {
    SavedInputsReadBack(i, managers);
    SavedInputsReadBack(j, others);
  }

  // ---- the trace and the standings ----

  function ReasonName(r: IneligibleReason): string {
    match r case EXCLUDED => "EXCLUDED" case JOINED_LATER => "JOINED_LATER" case NO_TEAM => "NO_TEAM"
  }

  const INELIGIBLE: seq<string> := ["entryId", "reason"]

  function IneligibleValue(i: Ineligible): Value {
    ObjectOf(INELIGIBLE, [Num(i.entryId), C.Text(ReasonName(i.reason))])
  }

  const BLOCKED: seq<string> := ["entryId", "reconciliationStatus"]

  function BlockedValue(b: Blocked): Value {
    ObjectOf(BLOCKED, [Num(b.entryId), C.Text(match b.reconciliationStatus case Some(s) => StatusName(s) case None => "NOT_SYNCED")])
  }

  const STEP: seq<string> := ["rule", "remaining", "note"]

  function StepValue(s: TraceStep): Value {
    ObjectOf(STEP, [RuleValue(s.rule), ListValue(s.remaining, Num), if s.missing then C.Text("TIE_BREAK_DATA_MISSING") else C.Undefined])
  }

  function RuleOrNull(r: Option<Rule>): Value {
    match r case Some(rule) => RuleValue(rule) case None => C.Null
  }

  const TRACE: seq<string> := [
    "status", "eligible", "ineligible", "blockedBy", "winningScore", "topScoreTied", "steps", "decidedBy", "outcome", "winners"]

  function TraceFields(t: DecisionTrace): seq<Value> {
    [C.Text(if t.blocked then "BLOCKED" else "PROVISIONAL"), ListValue(t.eligible, Num), ListValue(t.ineligible, IneligibleValue),
     ListValue(t.blockedBy, BlockedValue), NumOrNull(t.winningScore), ListValue(t.topScoreTied, Num), ListValue(t.steps, StepValue),
     RuleOrNull(t.decidedBy), C.Text(match t.outcome case NONE => "NONE" case SINGLE => "SINGLE" case SHARED => "SHARED"),
     ListValue(t.winners, Num)]
  }

  function TraceValue(t: DecisionTrace): Value {
    ObjectOf(TRACE, TraceFields(t))
  }

  const STANDING: seq<string> := [
    "entryId", "playerName", "teamName", "reportedGwPoints", "grossGwPoints", "netGwPoints", "transferCost", "score",
    "reconciliationStatus", "competitionRank", "resolvedPosition", "positionDecidedBy", "tiedWith", "ineligibleReason", "isWinner", "isMe"]

  /** `r?.reconciliationStatus ?? (ineligibleReason.has(entryId) ? null : 'NOT_SYNCED')` */
  function RowStatus(s: Standing): Option<string> {
    match s.row
    case Some(r) => Some(StatusName(r.reconciliationStatus))
    case None => if s.ineligibleReason.Some? then None else Some("NOT_SYNCED")
  }

  function DecidedByText(p: Option<Position>): Option<string> {
    match p
    case None => None
    case Some(position) => match position.positionDecidedBy
      case Nothing => None
      case ByRule(rule) => Some(RuleName(rule))
      case EntryIdFallback => Some("ENTRY_ID_FALLBACK")
  }

  function RowInts(r: Option<GwRow>): seq<Option<int>> {
    match r
    case None => [None, None, None, None]
    case Some(row) => [Some(row.reportedGwPoints), row.grossGwPoints, row.netGwPoints, Some(row.transferCost)]
  }

  function StandingHead(s: Standing): seq<Value> {
    [Num(s.entryId), TextOrNull(s.names.playerName), TextOrNull(s.names.teamName)] + Map(RowInts(s.row), NumOrNull)
  }

  function StandingPlace(s: Standing): seq<Value> {
    [NumOrNull(s.score), TextOrNull(RowStatus(s)), NumOrNull(s.competitionRank),
     NumOrNull(match s.position case Some(p) => Some(p.resolvedPosition) case None => None), TextOrNull(DecidedByText(s.position))]
  }

  function StandingTail(s: Standing): seq<Value> {
    [ListValue(s.tiedWith, Num), TextOrNull(match s.ineligibleReason case Some(r) => Some(ReasonName(r)) case None => None),
     C.Bool(s.isWinner), C.Bool(s.isMe)]
  }

  function StandingFields(s: Standing): seq<Value> {
    StandingHead(s) + StandingPlace(s) + StandingTail(s)
  }

  function StandingValue(s: Standing): Value {
    ObjectOf(STANDING, StandingFields(s))
  }

  lemma NamesAreStorable()
    ensures Storable(INELIGIBLE) && Storable(BLOCKED) && Storable(STEP)
  {
  }

  lemma TraceNames()
    ensures Storable(TRACE)
  {
  }

  lemma StandingNames()
    ensures Storable(STANDING)
  {
  }

  lemma StepsArePlain(steps: seq<TraceStep>)
    ensures Plain(ListValue(steps, StepValue))
  {
    forall k | 0 <= k < |steps| ensures C.Canonicalizable(StepValue(steps[k])) {
      NamesAreStorable();
      IntsRead(steps[k].remaining);
      ObjectReads(STEP, [RuleValue(steps[k].rule), ListValue(steps[k].remaining, Num), if steps[k].missing then C.Text("TIE_BREAK_DATA_MISSING") else C.Undefined]);
    }
    ListIsPlain(steps, StepValue);
  }

  lemma BlockersArePlain(ineligible: seq<Ineligible>, blockedBy: seq<Blocked>)
    ensures Plain(ListValue(ineligible, IneligibleValue)) && Plain(ListValue(blockedBy, BlockedValue))
  {
    NamesAreStorable();
    forall k | 0 <= k < |ineligible| ensures C.Canonicalizable(IneligibleValue(ineligible[k])) {
      ObjectReads(INELIGIBLE, [Num(ineligible[k].entryId), C.Text(ReasonName(ineligible[k].reason))]);
    }
    ListIsPlain(ineligible, IneligibleValue);
    forall k | 0 <= k < |blockedBy| ensures C.Canonicalizable(BlockedValue(blockedBy[k])) {
      ObjectReads(BLOCKED, [Num(blockedBy[k].entryId), C.Text(match blockedBy[k].reconciliationStatus case Some(s) => StatusName(s) case None => "NOT_SYNCED")]);
    }
    ListIsPlain(blockedBy, BlockedValue);
  }

  lemma TraceIsPlain(t: DecisionTrace)
    ensures C.Canonicalizable(TraceValue(t))
  {
    IntsRead(t.eligible);
    IntsRead(t.topScoreTied);
    IntsRead(t.winners);
    BlockersArePlain(t.ineligible, t.blockedBy);
    StepsArePlain(t.steps);
    TraceNames();
    ObjectReads(TRACE, TraceFields(t));
  }

  lemma StandingHeadIsPlain(s: Standing)
    ensures |StandingHead(s)| == 7 && forall k | 0 <= k < 7 :: Plain(StandingHead(s)[k])
  {
  }

  lemma StandingPlaceIsPlain(s: Standing)
    ensures |StandingPlace(s)| == 5 && forall k | 0 <= k < 5 :: Plain(StandingPlace(s)[k])
  {
  }

  lemma StandingTailIsPlain(s: Standing)
    ensures |StandingTail(s)| == 4 && forall k | 0 <= k < 4 :: Plain(StandingTail(s)[k])
  {
    IntsRead(s.tiedWith);
  }

  lemma StandingFieldsArePlain(s: Standing)
    ensures |StandingFields(s)| == 16 && forall k | 0 <= k < 16 :: Plain(StandingFields(s)[k])
  {
    StandingHeadIsPlain(s);
    StandingPlaceIsPlain(s);
    StandingTailIsPlain(s);
  }

  lemma StandingsArePlain(rows: seq<Standing>)
    ensures C.Canonicalizable(ListValue(rows, StandingValue))
  {
    StandingNames();
    forall k | 0 <= k < |rows| ensures C.Canonicalizable(StandingValue(rows[k])) {
      StandingFieldsArePlain(rows[k]);
      ObjectReads(STANDING, StandingFields(rows[k]));
    }
    ListIsPlain(rows, StandingValue);
  }

  /** snapshot.tieBreakTrace */
  function TraceForm(t: DecisionTrace): Form {
    TraceIsPlain(t);
    C.FormOf(TraceValue(t))
  }

  /** snapshot.standings */
  function StandingsForm(rows: seq<Standing>): Form {
    StandingsArePlain(rows);
    C.FormOf(ListValue(rows, StandingValue))
  }
}
