/**
 What a computed result says in terms of what was stored (server/src/analytics/winner.js,
 server/src/analytics/tieBreakers.js): which points decide, what each rule compares, how the trace leads
 from the top score to the winners, and what a standing shows. The statements look at rows, squads and the
 group alone, never at the engine's own intermediate rows.
 */
module ResultMeaning {
  import opened Wrappers
  import opened Sorting
  import opened Points
  import opened TieBreakers
  import opened Winner
  import opened Eligibility
  import opened Results
  import opened Ranking

  // ---- who plays, and with what ----

  predicate Matches(r: GwRow, event: int, id: int) {
    r.entryId == id && r.event == event
  }

  predicate LastRow(gwRows: seq<GwRow>, event: int, id: int, r: GwRow) {
    exists k | 0 <= k < |gwRows| :: gwRows[k] == r && Matches(r, event, id)
      && forall j | k < j < |gwRows| :: !Matches(gwRows[j], event, id)
  }

  /** The row the engine uses for an entry: the last one of this event. */
  predicate IsRowOf(input: Input, id: int, r: GwRow) {
    LastRow(input.gwRows, input.event, id, r)
  }

  /** A member who is not excluded, had joined, and has this row. */
  predicate Plays(input: Input, m: Member, r: GwRow) {
    && m in input.members && !m.isExcluded
    && (m.joinedEvent.Some? ==> m.joinedEvent.value <= input.event)
    && IsRowOf(input, m.entryId, r)
  }

  function CaptainPointsOf(input: Input, id: int): Option<int> {
    if id in input.effectiveSquads then input.effectiveSquads[id] else None
  }

  /** What a rule compares, higher being better: a column of the member's own row, or its captain's points. */
  function OwnValue(rule: Rule, r: GwRow, captainPoints: Option<int>): Option<int> {
    match rule
    case FewerTransferCost => Some(0 - r.transferCost)
    case HigherGrossPoints => r.grossGwPoints
    case HigherCaptainPoints => captainPoints
    case FewerPointsOnBench => if r.pointsOnBench.Some? then Some(0 - r.pointsOnBench.value) else None
    case NoChipPlayed => if r.activeChip == Undefined then None else Some(if r.activeChip == NoChip then 1 else 0)
    case HigherSeasonTotal => r.totalPoints
    case BetterOverallRank => if r.overallRank.Some? then Some(0 - r.overallRank.value) else None
    case Shared => None
  }

  /** The same of an entry's own row; None without one. */
  ghost function OwnValueAt(input: Input, rule: Rule, id: int): Option<int> {
    if r :| IsRowOf(input, id, r) then OwnValue(rule, r, CaptainPointsOf(input, id)) else None
  }

  lemma LastRowOfNext(gwRows: seq<GwRow>, event: int, id: int, r: GwRow)
    requires gwRows != []
    ensures var n := |gwRows| - 1;
      LastRow(gwRows, event, id, r) <==>
        if Matches(gwRows[n], event, id) then r == gwRows[n] else LastRow(gwRows[..n], event, id, r)
  {
    var n := |gwRows| - 1;
    if LastRow(gwRows[..n], event, id, r) && !Matches(gwRows[n], event, id) {
      var k :| 0 <= k < n && gwRows[..n][k] == r && Matches(r, event, id) && forall j | k < j < n :: !Matches(gwRows[..n][j], event, id);
      assert gwRows[k] == r;
      forall j | k < j < |gwRows| ensures !Matches(gwRows[j], event, id) {
        assert j < n ==> gwRows[..n][j] == gwRows[j];
      }
    }
    if LastRow(gwRows, event, id, r) && !Matches(gwRows[n], event, id) {
      var k :| 0 <= k < |gwRows| && gwRows[k] == r && Matches(r, event, id) && forall j | k < j < |gwRows| :: !Matches(gwRows[j], event, id);
      assert gwRows[..n][k] == r;
    }
  }

  lemma {:induction false} RowsByEntryIs(gwRows: seq<GwRow>, event: int, id: int, r: GwRow)
    ensures id in RowsByEntry(gwRows, event) && RowsByEntry(gwRows, event)[id] == r <==> LastRow(gwRows, event, id, r)
  {
    if gwRows != [] {
      RowsByEntryIs(gwRows[..|gwRows| - 1], event, id, r);
      LastRowOfNext(gwRows, event, id, r);
    }
  }

  lemma RowIsStored(input: Input, id: int, r: GwRow)
    ensures var rows := RowsByEntry(input.gwRows, input.event);
      id in rows && rows[id] == r <==> IsRowOf(input, id, r)
  {
    RowsByEntryIs(input.gwRows, input.event, id, r);
  }

  lemma OwnValueIs(input: Input, rule: Rule, id: int, r: GwRow)
    requires IsRowOf(input, id, r)
    ensures OwnValueAt(input, rule, id) == OwnValue(rule, r, CaptainPointsOf(input, id))
  {
    forall x | IsRowOf(input, id, x) ensures x == r {
      RowIsStored(input, id, x);
      RowIsStored(input, id, r);
    }
  }

  // ---- the engine's rows are the players' ----

  ghost predicate Reflects(input: Input, x: Row, r: GwRow) {
    && x.entryId == r.entryId
    && (input.group.winnerRule == NET_POINTS ==> r.netGwPoints == Some(x.score))
    && (input.group.winnerRule == GROSS_POINTS ==> r.grossGwPoints == Some(x.score))
    && forall rule :: Value(rule, x) == OwnValue(rule, r, CaptainPointsOf(input, r.entryId))
  }

  lemma TieRowReflects(input: Input, r: GwRow)
    requires WellFormed(r) && (r.reconciliationStatus == RECONCILED || r.reconciliationStatus == RECONCILED_NO_COST)
    ensures Reflects(input, TieRow(input.group, r, CaptainPointsOf(input, r.entryId)), r)
  {
    var x := TieRow(input.group, r, CaptainPointsOf(input, r.entryId));
    forall rule ensures Value(rule, x) == OwnValue(rule, r, CaptainPointsOf(input, r.entryId)) {
    }
  }

  lemma {:induction false} ScoredRowAt(ids: seq<int>, rows: map<int, GwRow>, group: Group, squads: map<int, Option<int>>, k: nat)
    requires forall i | 0 <= i < |ids| :: ids[i] in rows && rows[ids[i]].entryId == ids[i]
    requires k < |ids|
    ensures ScoredRows(ids, rows, group, squads)[k] == TieRow(group, rows[ids[k]], if ids[k] in squads then squads[ids[k]] else None)
  {
    if k < |ids| - 1 {
      ScoredRowAt(ids[..|ids| - 1], rows, group, squads, k);
    }
  }

  /** The ids the engine ranks. */
  function EngineIds(input: Input): seq<int> {
    EligibleIds(SortByKey(input.members, MemberId()), RowsByEntry(input.gwRows, input.event), input.event)
  }

  predicate Unblocked(input: Input) {
    BlockedBy(EngineIds(input), RowsByEntry(input.gwRows, input.event)) == []
  }

  lemma UnblockedRows(input: Input)
    requires WellFormedInput(input) && Unblocked(input)
    ensures |Scored(input)| == |EngineIds(input)|
    ensures forall k | 0 <= k < |EngineIds(input)| ::
      var id, rows := EngineIds(input)[k], RowsByEntry(input.gwRows, input.event);
      && id in rows && IsReconciled(rows[id].reconciliationStatus)
      && Scored(input)[k] == TieRow(input.group, rows[id], CaptainPointsOf(input, id))
  {
    var ids, rows := EngineIds(input), RowsByEntry(input.gwRows, input.event);
    NotBlocked(ids, rows);
    forall k | 0 <= k < |ids| ensures Scored(input)[k] == TieRow(input.group, rows[ids[k]], CaptainPointsOf(input, ids[k])) {
      ScoredRowAt(ids, rows, input.group, input.effectiveSquads, k);
    }
  }

  lemma ReconciledMeans(s: ReconciliationStatus)
    ensures IsReconciled(s) <==> s == RECONCILED || s == RECONCILED_NO_COST
  {
  }

  /** Position k of the engine's rows is a player's. */
  lemma ScoredIsPlayer(input: Input, k: nat) returns (m: Member, r: GwRow)
    requires WellFormedInput(input) && Unblocked(input) && k < |Scored(input)|
    ensures Plays(input, m, r) && m.entryId == Scored(input)[k].entryId && Reflects(input, Scored(input)[k], r)
  {
    var ids, rows := EngineIds(input), RowsByEntry(input.gwRows, input.event);
    UnblockedRows(input);
    EligibleFacts(input.members, rows, input.event);
    assert ids[k] in ids;
    m :| m in input.members && m.entryId == ids[k] && ReasonFor(m, rows, input.event).None?;
    r := rows[ids[k]];
    RowIsStored(input, ids[k], r);
    ReconciledMeans(r.reconciliationStatus);
    TieRowReflects(input, r);
  }

  lemma PlayerIsScored(input: Input, m: Member, r: GwRow) returns (k: nat)
    requires WellFormedInput(input) && Unblocked(input) && Plays(input, m, r)
    ensures k < |Scored(input)| && Scored(input)[k].entryId == m.entryId && Reflects(input, Scored(input)[k], r)
  {
    var ids, rows := EngineIds(input), RowsByEntry(input.gwRows, input.event);
    UnblockedRows(input);
    RowIsStored(input, m.entryId, r);
    EligibleFacts(input.members, rows, input.event);
    assert m.entryId in ids;
    k :| 0 <= k < |ids| && ids[k] == m.entryId;
    ReconciledMeans(r.reconciliationStatus);
    TieRowReflects(input, r);
  }

  // ---- which points decide ----

  /** The points of the column that the group's rule names. */
  ghost predicate HasPoints(input: Input, r: GwRow, points: int) {
    && (input.group.winnerRule == NET_POINTS ==> r.netGwPoints == Some(points))
    && (input.group.winnerRule == GROSS_POINTS ==> r.grossGwPoints == Some(points))
  }

  lemma TopScore(scored: seq<Row>, rules: seq<Rule>)
    requires DistinctIds(scored)
    ensures scored == [] ==> ChainNarrowing(scored, rules) == Outcome([], None, None, [], [])
    ensures scored != [] ==> ChainNarrowing(scored, rules).winningScore.Some?
    ensures scored != [] ==> var best := ChainNarrowing(scored, rules).winningScore.value;
      && (forall x | x in scored :: x.score <= best && (x in TopRows(scored) <==> x.score == best))
  {
    if scored == [] {
      NothingScored(rules, 0);
    } else {
      TopRowsAreTopScore(scored, ChainOf(rules));
      var first := TopRows(scored)[0];
      assert first in TopRows(scored);
      TopRowIsTopScore(scored, ChainOf(rules), first);
      forall x | x in scored ensures x.score <= first.score && (x in TopRows(scored) <==> x.score == first.score) {
        TopRowIsTopScore(scored, ChainOf(rules), x);
      }
    }
  }

  lemma WinnersAreTop(scored: seq<Row>, rules: seq<Rule>, id: int)
    requires DistinctIds(scored) && scored != [] && id in ChainNarrowing(scored, rules).winners
    ensures exists x :: x in TopRows(scored) && x.entryId == id
  {
    WinnersAreKeptIds(scored, rules, id);
    var x :| x in Kept(scored, rules) && x.entryId == id;
    KeptRuleOverDropped(TopRows(scored), rules, 0, x, x);
  }

  lemma SomebodyPlays(input: Input)
    requires WellFormedInput(input) && Unblocked(input)
    ensures Scored(input) != [] <==> exists m, r :: Plays(input, m, r)
  {
    if Scored(input) != [] {
      var m, r := ScoredIsPlayer(input, 0);
    }
    if m, r :| Plays(input, m, r) {
      var k := PlayerIsScored(input, m, r);
    }
  }

  /** Nobody who plays has more points. */
  ghost predicate NoneHasMore(input: Input, best: int) {
    forall m, r | Plays(input, m, r) :: exists points :: HasPoints(input, r, points) && points <= best
  }

  lemma BestIsBest(input: Input)
    requires WellFormedInput(input) && Unblocked(input) && Scored(input) != []
    ensures var best := ChainNarrowing(Scored(input), input.group.tieBreakRules).winningScore;
      best.Some? && NoneHasMore(input, best.value)
  {
    var scored, rules := Scored(input), input.group.tieBreakRules;
    ScoredHasDistinctIds(input);
    TopScore(scored, rules);
    forall m, r | Plays(input, m, r)
      ensures exists points :: HasPoints(input, r, points) && points <= ChainNarrowing(scored, rules).winningScore.value
    {
      var k := PlayerIsScored(input, m, r);
      assert scored[k] in scored && HasPoints(input, r, scored[k].score);
    }
  }

  lemma WinnerHasBest(input: Input, id: int) returns (m: Member, r: GwRow)
    requires WellFormedInput(input) && Unblocked(input) && Scored(input) != []
    requires id in ChainNarrowing(Scored(input), input.group.tieBreakRules).winners
    ensures Plays(input, m, r) && m.entryId == id
    ensures HasPoints(input, r, ChainNarrowing(Scored(input), input.group.tieBreakRules).winningScore.GetOr(0))
  {
    var scored, rules := Scored(input), input.group.tieBreakRules;
    ScoredHasDistinctIds(input);
    TopScore(scored, rules);
    WinnersAreTop(scored, rules, id);
    var x :| x in TopRows(scored) && x.entryId == id;
    var k :| 0 <= k < |scored| && scored[k] == x;
    m, r := ScoredIsPlayer(input, k);
  }

  /**
   Which points decide. In an unblocked result there is a winner exactly when somebody plays; nobody who plays
   has more points than the winning score, and every winner plays and has exactly that many: net points in
   a NET_POINTS group, gross points in a GROSS_POINTS group.
   */
  lemma WinnersHaveMostPoints(input: Input, nameKey: string -> real)
    requires WellFormedInput(input) && !Computed(input, nameKey).IsBlocked()
    ensures var o := Computed(input, nameKey).outcome;
      && (o.winners != [] <==> exists m, r :: Plays(input, m, r))
      && (o.winningScore.Some? <==> o.winners != [])
      && (o.winningScore.Some? ==> NoneHasMore(input, o.winningScore.value))
      && forall id | id in o.winners :: exists m, r :: Plays(input, m, r) && m.entryId == id && HasPoints(input, r, o.winningScore.GetOr(0))
  {
    var outcome := ChainNarrowing(Scored(input), input.group.tieBreakRules);
    ScoredHasDistinctIds(input);
    TopScore(Scored(input), input.group.tieBreakRules);
    SomebodyPlays(input);
    WinnersExistIff(input);
    UnblockedRows(input);
    if Scored(input) != [] {
      BestIsBest(input);
      forall id | id in outcome.winners
        ensures exists m, r :: Plays(input, m, r) && m.entryId == id && HasPoints(input, r, outcome.winningScore.GetOr(0))
      {
        var m, r := WinnerHasBest(input, id);
      }
    }
  }

  // ---- how the trace leads to the winners ----

  type Values = (Rule, int) -> Option<int>

  /** No one left has more, and nobody's value is missing. */
  predicate Beats(val: Values, rule: Rule, before: seq<int>, id: int) {
    forall o | o in before :: val(rule, o).Some? && val(rule, id).Some? && val(rule, o).value <= val(rule, id).value
  }

  /** One comparing step: the best stay in order, or everybody when a value is missing. */
  ghost predicate StepOk(val: Values, before: seq<int>, step: TraceStep) {
    && (step.missing <==> exists id | id in before :: val(step.rule, id).None?)
    && step.remaining == (if step.missing then before else Filter(before, (id: int) => Beats(val, step.rule, before, id)))
  }

  /** The trace from these ids to the last ones: a step per rule while several are left, Shared ending it. */
  ghost predicate TraceOk(val: Values, rules: seq<Rule>, before: seq<int>, trace: seq<TraceStep>, last: seq<int>)
    decreases |rules|
  {
    if rules == [] || |before| == 1 then trace == [] && last == before
    else if rules[0] == Shared then trace == [TraceStep(Shared, before, false)] && last == before
    else
      && trace != [] && trace[0].rule == rules[0]
      && StepOk(val, before, trace[0])
      && TraceOk(val, rules[1..], trace[0].remaining, trace[1..], last)
  }

  /** The rule that decided: Shared for several winners, else the one that left a single one. */
  predicate DecidedBy(applied: Option<Rule>, trace: seq<TraceStep>, last: seq<int>) {
    applied == if |last| > 1 then Some(Shared) else if trace == [] then None else Some(trace[|trace| - 1].rule)
  }

  function MissingRules(trace: seq<TraceStep>): seq<Rule> {
    if trace == [] then []
    else (if trace[0].missing then [trace[0].rule] else []) + MissingRules(trace[1..])
  }

  ghost predicate ValuesOf(val: Values, rows: seq<Row>) {
    forall r, rule | r in rows :: val(rule, r.entryId) == Value(rule, r)
  }

  lemma IdsOfFirst(rows: seq<Row>)
    requires rows != []
    ensures Ids(rows) == [rows[0].entryId] + Ids(rows[1..])
  {
  }

  lemma {:induction false} FilterIds(rows: seq<Row>, p: Row -> bool, q: int -> bool)
    requires forall k | 0 <= k < |rows| :: p(rows[k]) == q(rows[k].entryId)
    ensures Ids(Filter(rows, p)) == Filter(Ids(rows), q)
  {
    if rows != [] {
      FilterIds(rows[1..], p, q);
      IdsOfFirst(rows);
      assert Ids(rows)[1..] == Ids(rows[1..]);
      if p(rows[0]) {
        IdsOfFirst(Filter(rows, p));
      }
    }
  }

  lemma IdsOfRows(rows: seq<Row>, id: int)
    ensures id in Ids(rows) <==> exists r :: r in rows && r.entryId == id
  {
    if r :| r in rows && r.entryId == id {
      var k :| 0 <= k < |rows| && rows[k] == r;
      assert Ids(rows)[k] == id;
    }
    if id in Ids(rows) {
      var k :| 0 <= k < |rows| && Ids(rows)[k] == id;
      assert rows[k] in rows;
    }
  }

  lemma MissingMeans(val: Values, rows: seq<Row>, rule: Rule)
    requires ValuesOf(val, rows)
    ensures HasData(rule, SetOf(rows)) <==> forall id | id in Ids(rows) :: val(rule, id).Some?
  {
    forall id | id in Ids(rows) ensures exists r :: r in rows && r.entryId == id {
      IdsOfRows(rows, id);
    }
    forall r | r in rows ensures r.entryId in Ids(rows) {
      IdsOfRows(rows, r.entryId);
    }
  }

  lemma BestBeats(val: Values, rows: seq<Row>, rule: Rule, r: Row)
    requires rows != [] && ValuesOf(val, rows) && HasData(rule, SetOf(rows)) && r in rows
    ensures Value(rule, r) == Some(Best(rule, rows)) <==> Beats(val, rule, Ids(rows), r.entryId)
  {
    var w := BestIsMaximum(rule, rows);
    IdsOfRows(rows, w.entryId);
    forall o | o in Ids(rows) ensures val(rule, o).Some? && val(rule, o).value <= Best(rule, rows) {
      IdsOfRows(rows, o);
    }
  }

  /** One turn of the loop is a step on ids. */
  lemma TurnIsStep(val: Values, rows: seq<Row>, rule: Rule)
    requires rows != [] && ValuesOf(val, rows)
    ensures StepOk(val, Ids(rows), TraceStep(rule, Ids(TieBreak(rule, rows)), !HasData(rule, SetOf(rows))))
  {
    MissingMeans(val, rows, rule);
    if HasData(rule, SetOf(rows)) {
      var best := Best(rule, rows);
      forall k | 0 <= k < |rows| ensures (Value(rule, rows[k]) == Some(best)) == Beats(val, rule, Ids(rows), rows[k].entryId) {
        BestBeats(val, rows, rule, rows[k]);
      }
      FilterIds(rows, (r: Row) => Value(rule, r) == Some(best), (id: int) => Beats(val, rule, Ids(rows), id));
    }
  }

  /** What the loop does from some point on, in these steps. */
  ghost predicate Explained(val: Values, n: Narrowing, rules: seq<Rule>, steps: seq<TraceStep>, end: Narrowing) {
    && end.trace == n.trace + steps
    && TraceOk(val, rules, Ids(n.candidates), steps, Ids(end.candidates))
    && end.warnings == n.warnings + MissingRules(steps)
    && (|end.candidates| == 1 ==> end.applied == if steps == [] then n.applied else Some(steps[|steps| - 1].rule))
  }

  lemma TraceOfNext(val: Values, rules: seq<Rule>, before: seq<int>, step: TraceStep, rest: seq<TraceStep>, last: seq<int>)
    requires rules != [] && |before| != 1 && rules[0] != Shared && step.rule == rules[0]
    requires StepOk(val, before, step) && TraceOk(val, rules[1..], step.remaining, rest, last)
    ensures TraceOk(val, rules, before, [step] + rest, last)
    ensures MissingRules([step] + rest) == (if step.missing then [step.rule] else []) + MissingRules(rest)
  {
    assert ([step] + rest)[1..] == rest;
  }

  /** If nothing follows, this turn left the one winner. */
  lemma AppliedOfNext(val: Values, n: Narrowing, rules: seq<Rule>, rest: seq<TraceStep>, end: Narrowing)
    requires n.candidates != [] && rules != [] && |n.candidates| != 1
    requires Explained(val, ApplyRule(n, rules[0]), rules[1..], rest, end) && |end.candidates| == 1
    ensures end.applied == Some(if rest == [] then rules[0] else rest[|rest| - 1].rule)
  {
    var next := ApplyRule(n, rules[0]);
    if rest == [] {
      assert |Ids(end.candidates)| == |Ids(next.candidates)|;
      assert |next.candidates| < |n.candidates|;
    }
  }

  lemma Regroup<T>(a: seq<T>, x: T, b: seq<T>)
    ensures (a + [x]) + b == a + ([x] + b)
  {
  }

  lemma NextExplained(val: Values, n: Narrowing, rules: seq<Rule>, rest: seq<TraceStep>, end: Narrowing) returns (steps: seq<TraceStep>)
    requires n.candidates != [] && rules != [] && |n.candidates| != 1 && rules[0] != Shared && ValuesOf(val, n.candidates)
    requires Explained(val, ApplyRule(n, rules[0]), rules[1..], rest, end)
    ensures Explained(val, n, rules, steps, end)
  {
    var step := TraceStep(rules[0], Ids(TieBreak(rules[0], n.candidates)), !HasData(rules[0], SetOf(n.candidates)));
    steps := [step] + rest;
    assert end.trace == n.trace + steps by {
      Regroup(n.trace, step, rest);
    }
    assert TraceOk(val, rules, Ids(n.candidates), steps, Ids(end.candidates)) by {
      TurnIsStep(val, n.candidates, rules[0]);
      TraceOfNext(val, rules, Ids(n.candidates), step, rest, Ids(end.candidates));
    }
    assert end.warnings == n.warnings + MissingRules(steps) by {
      WarningsOfNext(n, rules[0], step, rest, end.warnings);
    }
    if |end.candidates| == 1 {
      AppliedOfNext(val, n, rules, rest, end);
    }
  }

  lemma WarningsOfNext(n: Narrowing, rule: Rule, step: TraceStep, rest: seq<TraceStep>, warnings: seq<Rule>)
    requires n.candidates != [] && step.rule == rule && step.missing == !HasData(rule, SetOf(n.candidates))
    requires warnings == ApplyRule(n, rule).warnings + MissingRules(rest)
    ensures warnings == n.warnings + MissingRules([step] + rest)
  {
    assert ([step] + rest)[1..] == rest;
  }

  lemma {:induction false} NarrowExplained(val: Values, n: Narrowing, rules: seq<Rule>, i: nat) returns (steps: seq<TraceStep>)
    requires n.candidates != [] && ValuesOf(val, n.candidates) && i <= |rules|
    ensures Explained(val, n, rules[i..], steps, Narrow(n, rules, i))
    decreases |rules| - i
  {
    if i < |rules| && |n.candidates| != 1 && rules[i] != Shared {
      assert rules[i..][1..] == rules[i + 1..];
      var rest := NarrowExplained(val, ApplyRule(n, rules[i]), rules, i + 1);
      steps := NextExplained(val, n, rules[i..], rest, Narrow(n, rules, i));
    } else {
      steps := if i < |rules| && |n.candidates| != 1 then [TraceStep(Shared, Ids(n.candidates), false)] else [];
      assert MissingRules([TraceStep(Shared, Ids(n.candidates), false)]) == [];
    }
  }

  // ---- the whole outcome ----

  /** These ids play and have the winning score, and nobody else does. */
  ghost predicate IsTop(input: Input, best: int, first: seq<int>) {
    && NoRepeats(first)
    && forall id :: id in first <==> exists m, r :: Plays(input, m, r) && m.entryId == id && HasPoints(input, r, best)
  }

  lemma TopIsTop(input: Input)
    requires WellFormedInput(input) && Unblocked(input) && Scored(input) != []
    ensures IsTop(input, ChainNarrowing(Scored(input), input.group.tieBreakRules).winningScore.GetOr(0), Ids(TopRows(Scored(input))))
  {
    var scored := Scored(input);
    var best := ChainNarrowing(scored, input.group.tieBreakRules).winningScore.GetOr(0);
    ScoredHasDistinctIds(input);
    TopScore(scored, input.group.tieBreakRules);
    FilterKeepsDistinct(scored, (r: Row) => HigherScores(scored, r.score) == [], IdOf());
    assert forall i, j | 0 <= i < j < |TopRows(scored)| :: IdOf()(TopRows(scored)[i]) != IdOf()(TopRows(scored)[j]);
    forall id ensures id in Ids(TopRows(scored)) <==> exists m, r :: Plays(input, m, r) && m.entryId == id && HasPoints(input, r, best) {
      TopMember(input, best, id);
    }
  }

  lemma TopMember(input: Input, best: int, id: int)
    requires WellFormedInput(input) && Unblocked(input) && DistinctIds(Scored(input))
    requires forall x | x in Scored(input) :: x in TopRows(Scored(input)) <==> x.score == best
    ensures id in Ids(TopRows(Scored(input))) <==> exists m, r :: Plays(input, m, r) && m.entryId == id && HasPoints(input, r, best)
  {
    var scored := Scored(input);
    IdsOfRows(TopRows(scored), id);
    if x :| x in TopRows(scored) && x.entryId == id {
      var k :| 0 <= k < |scored| && scored[k] == x;
      var m, r := ScoredIsPlayer(input, k);
    }
    if m, r :| Plays(input, m, r) && m.entryId == id && HasPoints(input, r, best) {
      var k := PlayerIsScored(input, m, r);
      assert scored[k] in scored;
    }
  }

  lemma ScoredValues(input: Input)
    requires WellFormedInput(input) && Unblocked(input)
    ensures ValuesOf((rule: Rule, id: int) => OwnValueAt(input, rule, id), Scored(input))
  {
    var scored := Scored(input);
    forall x, rule | x in scored ensures OwnValueAt(input, rule, x.entryId) == Value(rule, x) {
      var k :| 0 <= k < |scored| && scored[k] == x;
      var m, r := ScoredIsPlayer(input, k);
      OwnValueIs(input, rule, m.entryId, r);
    }
  }

  /** How the winners follow from the entries with the winning score. */
  ghost predicate Follows(input: Input, o: Outcome, first: seq<int>, last: seq<int>) {
    && TraceOk((rule: Rule, id: int) => OwnValueAt(input, rule, id), input.group.tieBreakRules, first, o.tieBreakTrace, last)
    && multiset(o.winners) == multiset(last)
    && DecidedBy(o.tieBreakApplied, o.tieBreakTrace, last)
    && o.missing == MissingRules(o.tieBreakTrace)
  }

  /**
   Why the winners win. From the entries that share the winning score each rule of the chain, in its order and
   while several are left, keeps those with the best value of its own: the least transferCost or pointsOnBench,
   the most grossGwPoints, captain's points or totalPoints, no chip, the best overallRank, each read from the
   member's own row or squad. A rule with a value missing keeps everybody and is reported; Shared ends the chain.
   */
  lemma TraceLeadsToWinners(input: Input, nameKey: string -> real) returns (first: seq<int>, last: seq<int>)
    requires WellFormedInput(input) && !Computed(input, nameKey).IsBlocked() && Computed(input, nameKey).outcome.winners != []
    ensures IsTop(input, Computed(input, nameKey).outcome.winningScore.GetOr(0), first)
    ensures Follows(input, Computed(input, nameKey).outcome, first, last)
  {
    WinnersExistIff(input);
    UnblockedRows(input);
    first, last := OutcomeFollows(input);
  }

  lemma OutcomeFollows(input: Input) returns (first: seq<int>, last: seq<int>)
    requires WellFormedInput(input) && Unblocked(input) && Scored(input) != []
    ensures var o := ChainNarrowing(Scored(input), input.group.tieBreakRules);
      IsTop(input, o.winningScore.GetOr(0), first) && Follows(input, o, first, last)
  {
    var scored, rules := Scored(input), input.group.tieBreakRules;
    var val := (rule: Rule, id: int) => OwnValueAt(input, rule, id);
    ScoredHasDistinctIds(input);
    TopScore(scored, rules);
    TopRowsAreTopScore(scored, ChainOf(rules));
    TopIsTop(input);
    ScoredValues(input);
    first := Ids(TopRows(scored));
    last := NarrowFollows(val, scored, rules);
  }

  lemma NarrowFollows(val: Values, scored: seq<Row>, rules: seq<Rule>) returns (last: seq<int>)
    requires TopRows(scored) != [] && ValuesOf(val, scored)
    ensures var o := ChainNarrowing(scored, rules);
      && TraceOk(val, rules, Ids(TopRows(scored)), o.tieBreakTrace, last)
      && multiset(o.winners) == multiset(last)
      && DecidedBy(o.tieBreakApplied, o.tieBreakTrace, last)
      && o.missing == MissingRules(o.tieBreakTrace)
  {
    var top := TopRows(scored);
    assert rules[0..] == rules;
    var steps := NarrowExplained(val, Start(top), rules, 0);
    assert Narrow(Start(top), rules, 0).trace == steps;
    last := Ids(Narrow(Start(top), rules, 0).candidates);
  }

  // ---- who blocks a result ----

  predicate Counts(input: Input, m: Member) {
    m in input.members && !m.isExcluded && (m.joinedEvent.Some? ==> m.joinedEvent.value <= input.event)
  }

  /** A member who counts blocks with an unreconciled row, or with none while its sync has not succeeded. */
  ghost predicate Blocks(input: Input, m: Member, b: Blocked) {
    && Counts(input, m) && b.entryId == m.entryId
    && match b.reconciliationStatus
       case Some(s) => s != RECONCILED && s != RECONCILED_NO_COST && exists r :: IsRowOf(input, m.entryId, r) && r.reconciliationStatus == s
       case None => !m.synced && forall r :: !IsRowOf(input, m.entryId, r)
  }

  lemma {:induction false} BlockedByIs(ids: seq<int>, rows: map<int, GwRow>, b: Blocked)
    ensures b in BlockedBy(ids, rows) <==>
      && b.entryId in ids
      && match b.reconciliationStatus
         case Some(s) => b.entryId in rows && rows[b.entryId].reconciliationStatus == s && s != RECONCILED && s != RECONCILED_NO_COST
         case None => b.entryId !in rows
  {
    if ids != [] {
      var n := |ids| - 1;
      BlockedByIs(ids[..n], rows, b);
      assert ids == ids[..n] + [ids[n]];
      if ids[n] in rows {
        ReconciledMeans(rows[ids[n]].reconciliationStatus);
      }
    }
  }

  lemma BlockerLacks(input: Input, b: Blocked) returns (m: Member)
    requires WellFormedInput(input)
    requires b in BlockedBy(EngineIds(input), RowsByEntry(input.gwRows, input.event))
    ensures Blocks(input, m, b)
  {
    var ids, rows := EngineIds(input), RowsByEntry(input.gwRows, input.event);
    BlockedByIs(ids, rows, b);
    EligibleFacts(input.members, rows, input.event);
    m :| m in input.members && m.entryId == b.entryId && ReasonFor(m, rows, input.event).None?;
    if b.entryId in rows {
      RowIsStored(input, b.entryId, rows[b.entryId]);
    } else {
      forall r ensures !IsRowOf(input, b.entryId, r) {
        RowIsStored(input, b.entryId, r);
      }
    }
  }

  lemma LackingBlocks(input: Input, m: Member, b: Blocked)
    requires WellFormedInput(input) && Blocks(input, m, b)
    ensures b in BlockedBy(EngineIds(input), RowsByEntry(input.gwRows, input.event))
  {
    var ids, rows := EngineIds(input), RowsByEntry(input.gwRows, input.event);
    BlockedByIs(ids, rows, b);
    EligibleFacts(input.members, rows, input.event);
    if r :| IsRowOf(input, m.entryId, r) {
      RowIsStored(input, m.entryId, r);
    }
    if m.entryId in rows {
      RowIsStored(input, m.entryId, rows[m.entryId]);
    }
  }

  /** The blockers are exactly the members who count and are not reconciled, each with what it lacks. */
  lemma BlockersAre(input: Input, nameKey: string -> real, b: Blocked)
    requires WellFormedInput(input)
    ensures b in Computed(input, nameKey).blockedBy <==> exists m :: Blocks(input, m, b)
  {
    if b in Computed(input, nameKey).blockedBy {
      var m := BlockerLacks(input, b);
    }
    if m :| Blocks(input, m, b) {
      LackingBlocks(input, m, b);
    }
  }

  // ---- what a standing shows ----

  /** Members who play with other points than m: more of them, or the same. */
  ghost predicate HasMore(input: Input, id: int, points: int) {
    exists m, r, p :: Plays(input, m, r) && m.entryId == id && HasPoints(input, r, p) && p > points
  }

  ghost predicate HasSame(input: Input, id: int, points: int) {
    exists m, r :: Plays(input, m, r) && m.entryId == id && HasPoints(input, r, points)
  }

  lemma PointsAreOne(input: Input, r: GwRow, p: int, q: int)
    requires HasPoints(input, r, p) && HasPoints(input, r, q)
    ensures p == q
  {
    assert input.group.winnerRule == NET_POINTS || input.group.winnerRule == GROSS_POINTS;
  }

  lemma RowIsOne(input: Input, id: int, r: GwRow, s: GwRow)
    requires IsRowOf(input, id, r) && IsRowOf(input, id, s)
    ensures r == s
  {
    RowIsStored(input, id, r);
    RowIsStored(input, id, s);
  }

  /** The rank of a player is one more than the number of players with more points, and ties are the others with as many. */
  lemma RankShows(input: Input, m: Member, r: GwRow, points: int) returns (higher: seq<int>)
    requires WellFormedInput(input) && Unblocked(input) && Plays(input, m, r) && HasPoints(input, r, points)
    ensures NoRepeats(higher) && forall id :: id in higher <==> HasMore(input, id, points)
    ensures RankOf(Scored(input), m.entryId) == Some(1 + |higher|)
    ensures forall id :: id in TiedWith(Scored(input), m.entryId) <==> id != m.entryId && HasSame(input, id, points)
  {
    var scored := Scored(input);
    ScoredHasDistinctIds(input);
    var k := PlayerIsScored(input, m, r);
    PointsAreOne(input, r, points, scored[k].score);
    assert scored[k] in scored;
    var above := HigherScores(scored, points);
    higher := Ids(above);
    FilterKeepsDistinct(scored, (o: Row) => o.score > points, IdOf());
    assert forall i, j | 0 <= i < j < |above| :: IdOf()(above[i]) != IdOf()(above[j]);
    forall id ensures id in higher <==> HasMore(input, id, points) {
      HigherMeans(input, id, points);
    }
    forall x | x in scored && x.entryId == m.entryId ensures x == scored[k] {
      SameIdSameRow(scored, x, scored[k]);
    }
    forall id ensures id in TiedWith(scored, m.entryId) <==> id != m.entryId && HasSame(input, id, points) {
      TiedMeans(input, m.entryId, scored[k], id);
    }
  }

  lemma HigherMeans(input: Input, id: int, points: int)
    requires WellFormedInput(input) && Unblocked(input)
    ensures id in Ids(HigherScores(Scored(input), points)) <==> HasMore(input, id, points)
  {
    var scored := Scored(input);
    IdsOfRows(HigherScores(scored, points), id);
    if x :| x in HigherScores(scored, points) && x.entryId == id {
      var k :| 0 <= k < |scored| && scored[k] == x;
      var m, r := ScoredIsPlayer(input, k);
      assert HasPoints(input, r, x.score);
    }
    if HasMore(input, id, points) {
      var m, r, p :| Plays(input, m, r) && m.entryId == id && HasPoints(input, r, p) && p > points;
      var k := PlayerIsScored(input, m, r);
      PointsAreOne(input, r, p, scored[k].score);
      assert scored[k] in HigherScores(scored, points);
    }
  }

  lemma TiedMeans(input: Input, mine: int, me: Row, id: int)
    requires WellFormedInput(input) && Unblocked(input) && DistinctIds(Scored(input))
    requires me in Scored(input) && me.entryId == mine
    ensures id in TiedWith(Scored(input), mine) <==> id != mine && HasSame(input, id, me.score)
  {
    var scored := Scored(input);
    var p := (o: Row) => o.entryId != mine && exists r | r in scored :: r.entryId == mine && r.score == o.score;
    var tied := Filter(scored, p);
    SortByKeySorts(Ids(tied), (x: int) => x);
    IdsOfRows(tied, id);
    if x :| x in tied && x.entryId == id {
      var r :| r in scored && r.entryId == mine && r.score == x.score;
      SameIdSameRow(scored, r, me);
      var k :| 0 <= k < |scored| && scored[k] == x;
      var m, row := ScoredIsPlayer(input, k);
    }
    if id != mine && HasSame(input, id, me.score) {
      var m, row :| Plays(input, m, row) && m.entryId == id && HasPoints(input, row, me.score);
      var k := PlayerIsScored(input, m, row);
      PointsAreOne(input, row, me.score, scored[k].score);
      assert scored[k] in scored && p(scored[k]);
    }
  }

  /** The score column and the reason of a member. */
  ghost predicate ScoreShown(input: Input, m: Member, s: Standing) {
    && (forall r | IsRowOf(input, m.entryId, r) ::
          && s.row == Some(r)
          && (s.score.Some? <==> r.reconciliationStatus == RECONCILED || r.reconciliationStatus == RECONCILED_NO_COST)
          && (s.score.Some? ==> HasPoints(input, r, s.score.value)))
    && ((forall r :: !IsRowOf(input, m.entryId, r)) ==> s.row == None && s.score == None)
  }

  ghost predicate ReasonShown(input: Input, m: Member, s: Standing) {
    && (s.ineligibleReason == Some(EXCLUDED) <==> m.isExcluded)
    && (s.ineligibleReason == Some(JOINED_LATER) <==> !m.isExcluded && m.joinedEvent.Some? && input.event < m.joinedEvent.value)
    && (s.ineligibleReason == Some(NO_TEAM) <==> Counts(input, m) && m.synced && forall r :: !IsRowOf(input, m.entryId, r))
  }

  /** In an unblocked result a player is ranked, and tied, by the points of the deciding column. */
  ghost predicate RankShown(input: Input, m: Member, s: Standing, higher: seq<int>) {
    forall r, points | Plays(input, m, r) && HasPoints(input, r, points) ::
      && s.competitionRank == Some(1 + |higher|)
      && (forall id :: id in higher <==> HasMore(input, id, points))
      && (forall id :: id in s.tiedWith <==> id != m.entryId && HasSame(input, id, points))
  }

  lemma ScoreIsShown(input: Input, m: Member)
    requires WellFormedInput(input)
    ensures ScoreShown(input, m, StandingOf(m, input))
  {
    var rows, s := RowsByEntry(input.gwRows, input.event), StandingOf(m, input);
    forall r | IsRowOf(input, m.entryId, r)
      ensures s.row == Some(r) && (s.score.Some? ==> HasPoints(input, r, s.score.value))
      ensures s.score.Some? <==> r.reconciliationStatus == RECONCILED || r.reconciliationStatus == RECONCILED_NO_COST
    {
      RowIsStored(input, m.entryId, r);
      ReconciledMeans(r.reconciliationStatus);
    }
    if m.entryId in rows {
      RowIsStored(input, m.entryId, rows[m.entryId]);
    }
  }

  lemma ReasonIsShown(input: Input, m: Member)
    requires m in input.members
    ensures ReasonShown(input, m, StandingOf(m, input))
  {
    var rows := RowsByEntry(input.gwRows, input.event);
    forall r ensures IsRowOf(input, m.entryId, r) <==> m.entryId in rows && rows[m.entryId] == r {
      RowIsStored(input, m.entryId, r);
    }
    if m.entryId in rows {
      assert IsRowOf(input, m.entryId, rows[m.entryId]);
    }
  }

  /**
   What the standing of a member shows: the points of the deciding column, exactly when its row is reconciled;
   why it does not count, if it does not; whether it won and whether it is the group's own entry; and, in an
   unblocked result, its rank among the players' points and the others with as many.
   */
  lemma StandingShows(input: Input, nameKey: string -> real, m: Member, s: Standing) returns (higher: seq<int>)
    requires WellFormedInput(input) && m in input.members
    requires s in Computed(input, nameKey).rows && s.entryId == m.entryId
    ensures ScoreShown(input, m, s) && ReasonShown(input, m, s)
    ensures s.isWinner <==> m.entryId in Computed(input, nameKey).outcome.winners
    ensures s.isMe <==> input.group.myEntryId == Some(m.entryId)
    ensures s.names == if m.entryId in input.managers then input.managers[m.entryId] else Names(None, None)
    ensures !Computed(input, nameKey).IsBlocked() ==> NoRepeats(higher) && RankShown(input, m, s, higher)
  {
    StandingIsOf(input, nameKey, m, s);
    ScoreIsShown(input, m);
    ReasonIsShown(input, m);
    higher := [];
    if Unblocked(input) {
      higher := RankIsShown(input, m);
    }
  }

  lemma RankIsShown(input: Input, m: Member) returns (higher: seq<int>)
    requires WellFormedInput(input) && Unblocked(input) && m in input.members
    ensures NoRepeats(higher) && RankShown(input, m, StandingOf(m, input), higher)
  {
    higher := [];
    if r :| Plays(input, m, r) {
      var k := PlayerIsScored(input, m, r);
      var mine := Scored(input)[k].score;
      higher := RankShows(input, m, r, mine);
      forall q, points | Plays(input, m, q) && HasPoints(input, q, points) ensures q == r && points == mine {
        RowIsOne(input, m.entryId, q, r);
        PointsAreOne(input, r, points, mine);
      }
    }
  }

  lemma StandingIsOf(input: Input, nameKey: string -> real, m: Member, s: Standing)
    requires WellFormedInput(input) && m in input.members
    requires s in Computed(input, nameKey).rows && s.entryId == m.entryId
    ensures s == StandingOf(m, input)
  {
    var f := (o: Member) => StandingOf(o, input);
    var listed := Map(input.members, f);
    SameMembers(Computed(input, nameKey).rows, listed);
    var k :| 0 <= k < |listed| && listed[k] == s;
    SameKeySameMember(input.members, input.members[k], m);
  }

  // ---- the order of the table ----

  /** a stands before b: by position, then those without one, by name and then by id. */
  predicate StandsBefore(nameKey: string -> real, a: Standing, b: Standing) {
    && (b.position.Some? ==> a.position.Some? && a.position.value.resolvedPosition < b.position.value.resolvedPosition)
    && (a.position.None? && b.position.None? ==>
          var x, y := nameKey(a.names.playerName.GetOr("")), nameKey(b.names.playerName.GetOr(""));
          x < y || (x == y && a.entryId < b.entryId))
  }

  /** The rows of the result are in the order of the table. */
  lemma RowsStandInOrder(input: Input, nameKey: string -> real, i: nat, j: nat)
    requires WellFormedInput(input) && i < j < |Computed(input, nameKey).rows|
    ensures StandsBefore(nameKey, Computed(input, nameKey).rows[i], Computed(input, nameKey).rows[j])
  {
    var f := (m: Member) => StandingOf(m, input);
    var listed := Map(input.members, f);
    var rows := Computed(input, nameKey).rows;
    RowOrderOrders(listed, nameKey);
    SortBySorts(listed, RowOrder(nameKey));
    SameMembers(rows, listed);
    assert RowOrder(nameKey)(rows[i], rows[j]);
    RowsAreOthers(input, nameKey, i, j);
    var a := MemberOfRow(input, nameKey, i);
    var b := MemberOfRow(input, nameKey, j);
    ScoredHasDistinctIds(input);
    if rows[i].position.Some? && rows[j].position.Some? && rows[i].position.value.resolvedPosition == rows[j].position.value.resolvedPosition {
      SamePlaceSameEntry(Scored(input), input.group.tieBreakRules, a.entryId, b.entryId);
    }
  }

  lemma MemberOfRow(input: Input, nameKey: string -> real, i: nat) returns (m: Member)
    requires WellFormedInput(input) && i < |Computed(input, nameKey).rows|
    ensures m in input.members && StandingOf(m, input) == Computed(input, nameKey).rows[i]
  {
    var f := (m: Member) => StandingOf(m, input);
    var listed := Map(input.members, f);
    SameMembers(Computed(input, nameKey).rows, listed);
    assert Computed(input, nameKey).rows[i] in listed;
    var k :| 0 <= k < |listed| && listed[k] == Computed(input, nameKey).rows[i];
    m := input.members[k];
  }

  /** Two rows are two entries'. */
  lemma RowsAreOthers(input: Input, nameKey: string -> real, i: nat, j: nat)
    requires WellFormedInput(input) && i < j < |Computed(input, nameKey).rows|
    ensures Computed(input, nameKey).rows[i].entryId != Computed(input, nameKey).rows[j].entryId
  {
    var f := (m: Member) => StandingOf(m, input);
    var listed, ids := Map(input.members, f), (s: Standing) => s.entryId;
    forall a, b | 0 <= a < b < |listed| ensures Map(listed, ids)[a] != Map(listed, ids)[b] {
      assert MemberId()(input.members[a]) != MemberId()(input.members[b]);
    }
    MapPermutation(listed, Computed(input, nameKey).rows, ids);
    NoRepeatsPermutation(Map(listed, ids), Map(Computed(input, nameKey).rows, ids));
    assert Map(Computed(input, nameKey).rows, ids)[i] != Map(Computed(input, nameKey).rows, ids)[j];
  }

  /** Whoever plays has a position; more points of the deciding column give a smaller one. */
  lemma MorePointsStandHigher(input: Input, a: Member, ra: GwRow, pa: int, b: Member, rb: GwRow, pb: int)
    requires WellFormedInput(input) && Unblocked(input)
    requires Plays(input, a, ra) && HasPoints(input, ra, pa) && Plays(input, b, rb) && HasPoints(input, rb, pb)
    ensures StandingOf(a, input).position.Some? && StandingOf(b, input).position.Some?
    ensures pa > pb ==> StandingOf(a, input).position.value.resolvedPosition < StandingOf(b, input).position.value.resolvedPosition
  {
    var scored, rules := Scored(input), input.group.tieBreakRules;
    var order := Ranked(scored, ChainOf(rules));
    ScoredHasDistinctIds(input);
    RankedArranges(scored, ChainOf(rules));
    var i := PlaceInOrder(input, a, ra, pa);
    var j := PlaceInOrder(input, b, rb, pb);
    ScoresDescend(scored, ChainOf(rules));
  }

  lemma PlaceInOrder(input: Input, m: Member, r: GwRow, points: int) returns (k: nat)
    requires WellFormedInput(input) && Unblocked(input) && Plays(input, m, r) && HasPoints(input, r, points)
    ensures var order := Ranked(Scored(input), ChainOf(input.group.tieBreakRules));
      k < |order| && order[k].entryId == m.entryId && order[k].score == points
    ensures StandingOf(m, input).position.Some? && StandingOf(m, input).position.value.resolvedPosition == k + 1
  {
    var scored, rules := Scored(input), input.group.tieBreakRules;
    var order := Ranked(scored, ChainOf(rules));
    ScoredHasDistinctIds(input);
    RankedArranges(scored, ChainOf(rules));
    SameMembers(order, scored);
    var i := PlayerIsScored(input, m, r);
    PointsAreOne(input, r, points, scored[i].score);
    assert scored[i] in order;
    k :| 0 <= k < |order| && order[k] == scored[i];
    PlaceIsUnique(scored, rules, m.entryId, k);
  }
}
