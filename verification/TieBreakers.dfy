/** Tie-break rules (server/src/analytics/tieBreakers.js). */
module TieBreakers {
  import opened Wrappers
  import opened Sorting

  /** `Shared` terminates a chain; the others compare one field of a row. */
  datatype Rule =
    | FewerTransferCost
    | HigherGrossPoints
    | HigherCaptainPoints
    | FewerPointsOnBench
    | NoChipPlayed
    | HigherSeasonTotal
    | BetterOverallRank
    | Shared

  /** A JavaScript field that can be undefined, null or a chip name. */
  datatype ChipField = Undefined | NoChip | Chip(name: string)

  datatype Row = Row(
    entryId: int,
    score: int,
    grossGwPoints: Option<int>,
    transferCost: Option<int>,
    captainPoints: Option<int>,
    pointsOnBench: Option<int>,
    activeChip: ChipField,
    totalPoints: Option<int>,
    overallRank: Option<int>)

  function Negated(v: Option<int>): Option<int> {
    match v case Some(n) => Some(-n) case None => None
  }

  /** The value a rule compares (higher wins), None when its data is missing. Shared has no entry in the rule table. */
  function Value(rule: Rule, r: Row): Option<int> {
    match rule
    case FewerTransferCost => Negated(r.transferCost)
    case HigherGrossPoints => r.grossGwPoints
    case HigherCaptainPoints => r.captainPoints
    case FewerPointsOnBench => Negated(r.pointsOnBench)
    case NoChipPlayed => (match r.activeChip case Undefined => None case NoChip => Some(1) case Chip(_) => Some(0))
    case HigherSeasonTotal => r.totalPoints
    case BetterOverallRank => Negated(r.overallRank)
    case Shared => None
  }

  predicate HasData(rule: Rule, rows: set<Row>) {
    forall r | r in rows :: Value(rule, r).Some?
  }

  /** The rows whose value for `rule` is `v`, in order. */
  function WithValue(rule: Rule, v: int, rows: seq<Row>): seq<Row> {
    Filter(rows, (r: Row) => Value(rule, r) == Some(v))
  }

  /** Math.max over the candidates' values. */
  function Best(rule: Rule, rows: seq<Row>): int
    requires rows != [] && HasData(rule, SetOf(rows))
  {
    assert rows[0] in SetOf(rows);
    var v := Value(rule, rows[0]).value;
    if |rows| == 1 then v
    else
      assert forall r | r in SetOf(rows[1..]) :: r in SetOf(rows);
      var w := Best(rule, rows[1..]);
      if v < w then w else v
  }

  lemma {:induction false} BestIsMaximum(rule: Rule, rows: seq<Row>) returns (w: Row)
    requires rows != [] && HasData(rule, SetOf(rows))
    ensures w in rows && Value(rule, w) == Some(Best(rule, rows))
    ensures forall r | r in rows :: Value(rule, r).Some? && Value(rule, r).value <= Best(rule, rows)
  {
    assert rows[0] in SetOf(rows);
    w := rows[0];
    if |rows| > 1 {
      assert forall r | r in SetOf(rows[1..]) :: r in SetOf(rows);
      var x := BestIsMaximum(rule, rows[1..]);
      if Value(rule, w).value < Value(rule, x).value {
        w := x;
      }
      forall r | r in rows ensures Value(rule, r).Some? && Value(rule, r).value <= Best(rule, rows) {
        assert r == rows[0] || r in rows[1..];
      }
    }
  }

  /** TIE_BREAKERS[rule]: the best candidates, or all of them when a value is missing. */
  function TieBreak(rule: Rule, candidates: seq<Row>): (r: seq<Row>)
    requires candidates != []
    ensures r != []
  {
    if HasData(rule, SetOf(candidates)) then
      var best := Best(rule, candidates);
      assert WithValue(rule, best, candidates) != [] by {
        var w := BestIsMaximum(rule, candidates);
        assert w in WithValue(rule, best, candidates);
      }
      WithValue(rule, best, candidates)
    else candidates
  }

  /** isValidRuleChain over the whole vocabulary: known rules once each, ending with Shared. */
  predicate IsValidRuleChain(rules: seq<Rule>) {
    && rules != []
    && rules[|rules| - 1] == Shared
    && (forall i | 0 <= i < |rules| - 1 :: rules[i] != Shared)
    && (forall i, j | 0 <= i < j < |rules| :: rules[i] != rules[j])
  }

  function IdOf(): Row -> int {
    (r: Row) => r.entryId
  }

  predicate DistinctIds(rows: seq<Row>) {
    DistinctKeys(rows, IdOf())
  }

  lemma TieBreakKeepsDistinctIds(rule: Rule, candidates: seq<Row>)
    requires candidates != [] && DistinctIds(candidates)
    ensures DistinctIds(TieBreak(rule, candidates))
  {
    if HasData(rule, SetOf(candidates)) {
      var best := Best(rule, candidates);
      FilterKeepsDistinct(candidates, (r: Row) => Value(rule, r) == Some(best), IdOf());
    }
  }
}
