/**
 The winner narrowing loop (server/src/analytics/winner.js, lines 58-92) and its agreement with
 the bucket sort of Ranking. The two algorithms share only the rule table.
 */
module Winner {
  import opened Wrappers
  import opened Sorting
  import opened TieBreakers
  import opened Ranking

  datatype TraceStep = TraceStep(rule: Rule, remaining: seq<int>, missing: bool)

  datatype Narrowing = Narrowing(candidates: seq<Row>, applied: Option<Rule>, trace: seq<TraceStep>, warnings: seq<Rule>)

  function Ids(rows: seq<Row>): (ids: seq<int>)
    ensures |ids| == |rows| && forall k | 0 <= k < |rows| :: ids[k] == rows[k].entryId
  {
    seq(|rows|, k requires 0 <= k < |rows| => rows[k].entryId)
  }

  /** One turn of the loop with a comparing rule. */
  function ApplyRule(n: Narrowing, rule: Rule): (r: Narrowing)
    requires n.candidates != []
    ensures r.candidates != []
  {
    var missing := !HasData(rule, SetOf(n.candidates));
    var next := TieBreak(rule, n.candidates);
    Narrowing(
      next,
      if |next| < |n.candidates| then Some(rule) else n.applied,
      n.trace + [TraceStep(rule, Ids(next), missing)],
      if missing then n.warnings + [rule] else n.warnings)
  }

  function ApplyShared(n: Narrowing): Narrowing {
    n.(applied := Some(Shared), trace := n.trace + [TraceStep(Shared, Ids(n.candidates), false)])
  }

  /** The loop from rule i on: stop at a single candidate or at Shared. */
  function Narrow(n: Narrowing, rules: seq<Rule>, i: nat): (r: Narrowing)
    requires n.candidates != []
    ensures r.candidates != []
    decreases |rules| - i
  {
    if i >= |rules| || |n.candidates| == 1 then n
    else if rules[i] == Shared then ApplyShared(n)
    else Narrow(ApplyRule(n, rules[i]), rules, i + 1)
  }

  function Start(candidates: seq<Row>): Narrowing {
    Narrowing(candidates, None, [], [])
  }

  /** Several candidates left without reaching Shared still share the win. */
  function AppliedRule(n: Narrowing): Option<Rule> {
    if |n.candidates| > 1 then Some(Shared) else n.applied
  }

  function WinnersOf(n: Narrowing): seq<int> {
    SortByKey(Ids(n.candidates), (id: int) => id)
  }

  /** One turn of the narrowing loop with a comparing rule. */
  method Turn(before: Narrowing, rule: Rule) returns (n: Narrowing)
    requires before.candidates != []
    ensures n == ApplyRule(before, rule)
  {
    var missing := !HasData(rule, SetOf(before.candidates));
    var next := TieBreak(rule, before.candidates);
    n := Narrowing(next, before.applied, before.trace + [TraceStep(rule, Ids(next), missing)], before.warnings);
    if missing {
      n := n.(warnings := before.warnings + [rule]);
    }
    if |next| < |before.candidates| {
      n := n.(applied := Some(rule));
    }
  }

  /** What is left to do from rule i on comes to `end`. */
  ghost predicate Leads(n: Narrowing, rules: seq<Rule>, i: nat, end: Narrowing) {
    n.candidates != [] && Narrow(n, rules, i) == end
  }

  lemma TurnLeads(n: Narrowing, rules: seq<Rule>, i: nat, end: Narrowing)
    requires Leads(n, rules, i, end) && i < |rules| && |n.candidates| != 1 && rules[i] != Shared
    ensures Leads(ApplyRule(n, rules[i]), rules, i + 1, end)
  {
  }

  lemma StopLeads(n: Narrowing, rules: seq<Rule>, i: nat, end: Narrowing)
    requires Leads(n, rules, i, end)
    ensures i >= |rules| || |n.candidates| == 1 ==> n == end
    ensures i < |rules| && |n.candidates| != 1 && rules[i] == Shared ==> ApplyShared(n) == end
  {
  }

  /** A turn with a comparing rule leads to the same end. */
  method NextTurn(before: Narrowing, rules: seq<Rule>, i: nat, ghost end: Narrowing) returns (n: Narrowing)
    requires Leads(before, rules, i, end) && i < |rules| && |before.candidates| != 1 && rules[i] != Shared
    ensures Leads(n, rules, i + 1, end)
  {
    TurnLeads(before, rules, i, end);
    n := Turn(before, rules[i]);
  }

  /** The turn at Shared is the end. */
  method LastTurn(before: Narrowing, rules: seq<Rule>, i: nat, ghost end: Narrowing) returns (n: Narrowing)
    requires Leads(before, rules, i, end) && i < |rules| && |before.candidates| != 1 && rules[i] == Shared
    ensures n == end
  {
    StopLeads(before, rules, i, end);
    n := before.(applied := Some(Shared), trace := before.trace + [TraceStep(Shared, Ids(before.candidates), false)]);
  }

  /** The loop over the rules: it stops at a single candidate or at Shared. */
  method NarrowLoop(candidates: seq<Row>, rules: seq<Rule>, ghost end: Narrowing) returns (n: Narrowing)
    requires Leads(Start(candidates), rules, 0, end)
    ensures n == end
  {
    n := Start(candidates);
    var i := 0;
    while i < |rules| && |n.candidates| != 1
      invariant 0 <= i <= |rules| && Leads(n, rules, i, end)
    {
      if rules[i] == Shared {
        n := LastTurn(n, rules, i, end);
        return;
      }
      n := NextTurn(n, rules, i, end);
      i := i + 1;
    }
    StopLeads(n, rules, i, end);
  }

  method NarrowWinners(candidates: seq<Row>, rules: seq<Rule>)
    returns (winners: seq<int>, applied: Option<Rule>, trace: seq<TraceStep>, warnings: seq<Rule>)
    requires candidates != []
    ensures var n := Narrow(Start(candidates), rules, 0);
      winners == WinnersOf(n) && applied == AppliedRule(n) && trace == n.trace && warnings == n.warnings
  {
    var n := NarrowLoop(candidates, rules, Narrow(Start(candidates), rules, 0));
    applied, trace, warnings := n.applied, n.trace, n.warnings;
    if |n.candidates| > 1 && applied != Some(Shared) {
      applied := Some(Shared);
    }
    winners := SortByKey(Ids(n.candidates), (id: int) => id);
  }

  /** The candidates alone: what the loop keeps from rule i on. */
  function KeepFrom(candidates: seq<Row>, rules: seq<Rule>, i: nat): (r: seq<Row>)
    requires candidates != []
    ensures r != []
    decreases |rules| - i
  {
    if i >= |rules| || |candidates| == 1 || rules[i] == Shared then candidates
    else KeepFrom(TieBreak(rules[i], candidates), rules, i + 1)
  }

  lemma {:induction false} NarrowKeeps(n: Narrowing, rules: seq<Rule>, i: nat)
    requires n.candidates != []
    ensures Narrow(n, rules, i).candidates == KeepFrom(n.candidates, rules, i)
    decreases |rules| - i
  {
    if i < |rules| && |n.candidates| != 1 && rules[i] != Shared {
      NarrowKeeps(ApplyRule(n, rules[i]), rules, i + 1);
    }
  }

  // ---- the loop keeps an upper set of the reference order ----

  /** Until Shared, the chain of the bucket sort and the loop's rules are the same. */
  lemma {:induction false} ChainFollowsRules(rules: seq<Rule>, i: nat)
    requires i <= |rules| && Shared !in rules[..i]
    ensures i <= |ChainOf(rules)| <= |rules|
    ensures i < |rules| && rules[i] != Shared ==> i < |ChainOf(rules)| && ChainOf(rules)[i] == rules[i]
    ensures i < |rules| && rules[i] == Shared && i == |rules| - 1 ==> |ChainOf(rules)| == i
  {
    if rules == [] {
    } else if i == 0 {
      assert rules[1..] == [] || |ChainOf(rules[1..])| <= |rules[1..]| by {
        if rules[1..] != [] {
          ChainFollowsRules(rules[1..], 0);
        }
      }
    } else {
      assert rules[..i][0] == rules[0];
      assert forall r | r in rules[1..][..i - 1] :: r in rules[..i];
      ChainFollowsRules(rules[1..], i - 1);
    }
  }

  lemma KeptHasBest(rule: Rule, candidates: seq<Row>, r: Row)
    requires candidates != [] && HasData(rule, SetOf(candidates)) && r in candidates
    ensures r in TieBreak(rule, candidates) <==> Value(rule, r) == Some(Best(rule, candidates))
  {
  }

  lemma {:induction false} OtherIsWorse(rule: Rule, candidates: seq<Row>, r: Row)
    requires candidates != [] && HasData(rule, SetOf(candidates)) && r in candidates
    requires Value(rule, r) != Some(Best(rule, candidates))
    ensures Better(Some(Best(rule, candidates)), Value(rule, r))
  {
    var w := BestIsMaximum(rule, candidates);
  }

  /** What one rule keeps: the peers of the best value, every other row being worse. */
  lemma {:induction false} TieBreakKeepsBest(rule: Rule, candidates: seq<Row>, r: Row)
    requires candidates != [] && HasData(rule, SetOf(candidates)) && r in candidates
    ensures r in TieBreak(rule, candidates) <==> Value(rule, r) == Some(Best(rule, candidates))
    ensures r !in TieBreak(rule, candidates) ==> Better(Some(Best(rule, candidates)), Value(rule, r))
  {
    KeptHasBest(rule, candidates, r);
    if Value(rule, r) != Some(Best(rule, candidates)) {
      OtherIsWorse(rule, candidates, r);
    }
  }

  lemma TieBreakPeers(rule: Rule, candidates: seq<Row>)
    requires candidates != [] && HasData(rule, SetOf(candidates))
    ensures SetOf(TieBreak(rule, candidates)) == Peers(SetOf(candidates), rule, Some(Best(rule, candidates)))
  {
  }

  ghost predicate RuledOver(a: Row, b: Row, g: set<Row>, chain: seq<Rule>, i: nat) {
    Above(a, b, g, chain, i) && Separator(a, b, g, chain, i).ByRule?
  }

  /** One rule: kept rows stand above dropped ones, and order among the kept is left to the later rules. */
  lemma OneRule(candidates: seq<Row>, chain: seq<Rule>, i: nat, a: Row, b: Row)
    requires candidates != [] && i < |chain| && a in candidates && b in candidates
    requires a in TieBreak(chain[i], candidates)
    ensures b !in TieBreak(chain[i], candidates) ==> RuledOver(a, b, SetOf(candidates), chain, i)
    ensures b in TieBreak(chain[i], candidates) ==>
      var next := SetOf(TieBreak(chain[i], candidates));
      Above(a, b, SetOf(candidates), chain, i) == Above(a, b, next, chain, i + 1)
      && Separator(a, b, SetOf(candidates), chain, i) == Separator(a, b, next, chain, i + 1)
  {
    if HasData(chain[i], SetOf(candidates)) {
      TieBreakPeers(chain[i], candidates);
      TieBreakKeepsBest(chain[i], candidates, a);
      TieBreakKeepsBest(chain[i], candidates, b);
    }
  }

  /** Whoever the loop keeps stands above, by a rule, whoever it drops. */
  lemma {:induction false} KeptRuleOverDropped(candidates: seq<Row>, rules: seq<Rule>, i: nat, a: Row, b: Row)
    requires candidates != [] && i <= |rules| && Shared !in rules[..i]
    requires a in KeepFrom(candidates, rules, i)
    ensures a in candidates
    ensures b in candidates && b !in KeepFrom(candidates, rules, i) ==>
      RuledOver(a, b, SetOf(candidates), ChainOf(rules), i)
    decreases |rules| - i
  {
    if i < |rules| && |candidates| != 1 && rules[i] != Shared {
      ChainFollowsRules(rules, i);
      assert rules[..i + 1] == rules[..i] + [rules[i]];
      KeptRuleOverDropped(TieBreak(rules[i], candidates), rules, i + 1, a, b);
      if b in candidates {
        OneRule(candidates, ChainOf(rules), i, a, b);
      }
    }
  }

  /** No rule comes after Shared; isValidRuleChain implies it. */
  predicate SharedIsLast(rules: seq<Rule>) {
    forall k | 0 <= k < |rules| && rules[k] == Shared :: k == |rules| - 1
  }

  /** Two rows the loop keeps together are ordered by entryId alone. */
  lemma {:induction false} KeptTieById(candidates: seq<Row>, rules: seq<Rule>, i: nat, a: Row, b: Row)
    requires candidates != [] && i <= |rules| && Shared !in rules[..i] && SharedIsLast(rules)
    requires a in KeepFrom(candidates, rules, i) && b in KeepFrom(candidates, rules, i) && a.entryId != b.entryId
    ensures Above(a, b, SetOf(candidates), ChainOf(rules), i) <==> a.entryId < b.entryId
    decreases |rules| - i
  {
    if i < |rules| && |candidates| != 1 && rules[i] != Shared {
      var next := TieBreak(rules[i], candidates);
      assert Shared !in rules[..i + 1] by {
        assert rules[..i + 1] == rules[..i] + [rules[i]];
      }
      KeptTieById(next, rules, i + 1, a, b);
      KeptStep(candidates, rules, i, a, b);
    } else {
      ChainFollowsRules(rules, i);
    }
  }

  /** One rule that keeps both leaves their order to the later rules. */
  lemma KeptStep(candidates: seq<Row>, rules: seq<Rule>, i: nat, a: Row, b: Row)
    requires candidates != [] && i < |rules| && Shared !in rules[..i + 1]
    requires var next := TieBreak(rules[i], candidates); a in KeepFrom(next, rules, i + 1) && b in KeepFrom(next, rules, i + 1)
    ensures Above(a, b, SetOf(candidates), ChainOf(rules), i)
       <==> Above(a, b, SetOf(TieBreak(rules[i], candidates)), ChainOf(rules), i + 1)
  {
    var next := TieBreak(rules[i], candidates);
    KeptRuleOverDropped(next, rules, i + 1, a, b);
    KeptRuleOverDropped(next, rules, i + 1, b, a);
    assert rules[..i + 1] == rules[..i] + [rules[i]];
    ChainFollowsRules(rules, i);
    OneRule(candidates, ChainOf(rules), i, a, b);
  }

  // ---- the winners are the head of the table ----

  /** scored.filter(r => ranks.get(r.entryId) === 1) */
  function TopRows(scored: seq<Row>): seq<Row> {
    Filter(scored, (r: Row) => HigherScores(scored, r.score) == [])
  }

  lemma {:induction false} KeepFromKeepsDistinctIds(candidates: seq<Row>, rules: seq<Rule>, i: nat)
    requires candidates != [] && DistinctIds(candidates)
    ensures DistinctIds(KeepFrom(candidates, rules, i))
    decreases |rules| - i
  {
    if i < |rules| && |candidates| != 1 && rules[i] != Shared {
      TieBreakKeepsDistinctIds(rules[i], candidates);
      KeepFromKeepsDistinctIds(TieBreak(rules[i], candidates), rules, i + 1);
    }
  }

  lemma FirstRowHasTopScore(scored: seq<Row>, chain: seq<Rule>, r: Row)
    requires DistinctIds(scored) && r in scored
    ensures Ranked(scored, chain) != [] && Ranked(scored, chain)[0] in scored
    ensures r.score <= Ranked(scored, chain)[0].score
  {
    var order := Ranked(scored, chain);
    RankedArranges(scored, chain);
    ScoresDescend(scored, chain);
    SameMembers(order, scored);
    assert r in order;
    var k :| 0 <= k < |order| && order[k] == r;
  }

  lemma TopRowIsTopScore(scored: seq<Row>, chain: seq<Rule>, r: Row)
    requires DistinctIds(scored) && r in scored
    ensures Ranked(scored, chain) != []
    ensures r in TopRows(scored) <==> r.score == Ranked(scored, chain)[0].score
    ensures r.score <= Ranked(scored, chain)[0].score
  {
    FirstRowHasTopScore(scored, chain, r);
    var top := Ranked(scored, chain)[0];
    var higher := HigherScores(scored, r.score);
    assert higher != [] ==> higher[0] in higher;
    if r.score < top.score {
      assert top in higher;
    } else {
      forall x | x in scored ensures x.score <= r.score {
        FirstRowHasTopScore(scored, chain, x);
      }
      assert forall x :: x !in higher;
    }
  }

  lemma TopRowsAreTopScore(scored: seq<Row>, chain: seq<Rule>)
    requires DistinctIds(scored) && scored != []
    ensures Ranked(scored, chain) != [] && TopRows(scored) != []
    ensures SetOf(TopRows(scored)) == ScoreGroup(SetOf(scored), Ranked(scored, chain)[0].score)
  {
    forall r | r in scored ensures r in TopRows(scored) <==> r.score == Ranked(scored, chain)[0].score {
      TopRowIsTopScore(scored, chain, r);
    }
    TopRowIsTopScore(scored, chain, scored[0]);
    SameMembers(Ranked(scored, chain), scored);
    assert Ranked(scored, chain)[0] in scored;
  }

  /** The first row of the table that is not in `kept`. */
  function FirstOutside(order: seq<Row>, kept: set<Row>): (c: nat)
    ensures c <= |order| && SetOf(order[..c]) <= kept
    ensures c < |order| ==> order[c] !in kept
  {
    if order == [] || order[0] !in kept then 0
    else
      var c := FirstOutside(order[1..], kept);
      assert order[..c + 1] == [order[0]] + order[1..][..c];
      c + 1
  }

  /** A set of rows that stands above every other row is the head of the table. */
  lemma UpperSetIsHead(order: seq<Row>, kept: set<Row>, g: set<Row>, chain: seq<Rule>)
    requires UniqueIds(g) && Arranges(order, g, chain) && NoRepeats(order) && kept <= g
    requires forall a, b | a in kept && b in g && b !in kept :: Ahead(a, b, g, chain)
    ensures |kept| <= |order| && SetOf(order[..|kept|]) == kept
    ensures forall k | 0 <= k < |order| :: order[k] in kept <==> k < |kept|
  {
    var c := FirstOutside(order, kept);
    forall k | c <= k < |order| ensures order[k] !in kept {
      assert order[c] in SetOf(order) && order[k] in SetOf(order);
      if k > c && order[k] in kept {
        AheadIsStrictOrder(order[c], order[k], order[c], g, chain);
      }
    }
    assert SetOf(order[..c]) == kept by {
      forall r | r in kept ensures r in order[..c] {
        assert r in SetOf(order);
        var k :| 0 <= k < |order| && order[k] == r;
        assert k < c;
      }
    }
    assert NoRepeats(order[..c]);
    NoRepeatsCount(order[..c]);
  }

  function Kept(scored: seq<Row>, rules: seq<Rule>): seq<Row>
    requires TopRows(scored) != []
  {
    KeepFrom(TopRows(scored), rules, 0)
  }

  lemma KeptStandAheadOfAll(scored: seq<Row>, rules: seq<Rule>, a: Row, b: Row)
    requires DistinctIds(scored) && scored != [] && TopRows(scored) != []
    requires a in Kept(scored, rules)
    ensures a in scored && a.score == Ranked(scored, ChainOf(rules))[0].score
    ensures b in scored && b !in Kept(scored, rules) ==> Ahead(a, b, SetOf(scored), ChainOf(rules))
    ensures b in scored && b !in Kept(scored, rules) && a.score == b.score ==>
      Explanation(a, b, SetOf(scored), ChainOf(rules)).ByRule?
  {
    var top := TopRows(scored);
    KeptRuleOverDropped(top, rules, 0, a, b);
    assert a in top;
    TopRowsAreTopScore(scored, ChainOf(rules));
    TopRowIsTopScore(scored, ChainOf(rules), a);
    if b in scored {
      TopRowIsTopScore(scored, ChainOf(rules), b);
    }
  }

  lemma KeptIsHead(scored: seq<Row>, rules: seq<Rule>)
    requires DistinctIds(scored) && scored != [] && TopRows(scored) != []
    ensures var order := Ranked(scored, ChainOf(rules));
      && 0 < |Kept(scored, rules)| <= |order|
      && forall k | 0 <= k < |order| :: order[k] in Kept(scored, rules) <==> k < |Kept(scored, rules)|
  {
    var chain, kept := ChainOf(rules), Kept(scored, rules);
    var order := Ranked(scored, chain);
    RankedArranges(scored, chain);
    DistinctIdsAreUnique(scored);
    DistinctIdsAreUnique(order);
    forall a, b | a in SetOf(kept) && b in SetOf(scored) && b !in SetOf(kept) ensures Ahead(a, b, SetOf(scored), chain) {
      KeptStandAheadOfAll(scored, rules, a, b);
    }
    forall a | a in SetOf(kept) ensures a in SetOf(scored) {
      KeptStandAheadOfAll(scored, rules, a, a);
    }
    UpperSetIsHead(order, SetOf(kept), SetOf(scored), chain);
    FilterKeepsDistinct(scored, (r: Row) => HigherScores(scored, r.score) == [], IdOf());
    KeepFromKeepsDistinctIds(TopRows(scored), rules, 0);
    DistinctIdsAreUnique(kept);
    NoRepeatsCount(kept);
  }

  /**
   The narrowing loop refines the bucket sort, for every rule chain: the rows it keeps are exactly
   the first ones of the resolved table, and if the next row has the same score a rule put it
   there, never the entryId fallback.
   */
  lemma WinnersHeadTheTable(scored: seq<Row>, rules: seq<Rule>)
    requires DistinctIds(scored) && scored != []
    ensures TopRows(scored) != []
    ensures var order, m := Ranked(scored, ChainOf(rules)), |Kept(scored, rules)|;
      && 0 < m <= |order|
      && (forall k | 0 <= k < |order| :: order[k] in Kept(scored, rules) <==> k < m)
      && (m < |order| && order[m].score == order[0].score ==>
            PositionAt(order, m, SetOf(scored), ChainOf(rules)).positionDecidedBy.ByRule?)
  {
    var chain := ChainOf(rules);
    var order := Ranked(scored, chain);
    TopRowsAreTopScore(scored, chain);
    KeptIsHead(scored, rules);
    SameMembers(order, scored);
    var m := |Kept(scored, rules)|;
    if m < |order| {
      assert order[m - 1] in Kept(scored, rules) && order[m] in scored;
      KeptStandAheadOfAll(scored, rules, order[m - 1], order[m]);
    }
  }

  /**
   With Shared last, as isValidRuleChain demands, the winner list is literally the entry ids of
   the first rows of the table, in table order.
   */
  lemma WinnersAreTableHead(scored: seq<Row>, rules: seq<Rule>)
    requires DistinctIds(scored) && scored != [] && SharedIsLast(rules)
    ensures TopRows(scored) != []
    ensures var order, n := Ranked(scored, ChainOf(rules)), Narrow(Start(TopRows(scored)), rules, 0);
      && |WinnersOf(n)| <= |order|
      && WinnersOf(n) == Ids(order[..|WinnersOf(n)|])
  {
    var chain := ChainOf(rules);
    var order := Ranked(scored, chain);
    WinnersHeadTheTable(scored, rules);
    var kept := Kept(scored, rules);
    var m := |kept|;
    RankedArranges(scored, chain);
    TopRowsAreTopScore(scored, chain);
    forall j, k | 0 <= j < k < m ensures order[j].entryId < order[k].entryId {
      assert order[j] in kept && order[k] in kept;
      KeptStandAheadOfAll(scored, rules, order[j], order[j]);
      KeptStandAheadOfAll(scored, rules, order[k], order[k]);
      assert IdOf()(order[j]) != IdOf()(order[k]);
      KeptTieById(TopRows(scored), rules, 0, order[j], order[k]);
      assert Ahead(order[j], order[k], SetOf(scored), chain);
    }
    NarrowKeeps(Start(TopRows(scored)), rules, 0);
    KeptSet(scored, rules);
    assert DistinctIds(order[..m]);
    IdsOfSameRows(kept, order[..m]);
    SortByKeyOfSorted(Ids(kept), Ids(order[..m]), (id: int) => id);
  }

  lemma KeptSet(scored: seq<Row>, rules: seq<Rule>)
    requires DistinctIds(scored) && scored != [] && TopRows(scored) != []
    ensures |Kept(scored, rules)| <= |Ranked(scored, ChainOf(rules))|
    ensures SetOf(Kept(scored, rules)) == SetOf(Ranked(scored, ChainOf(rules))[..|Kept(scored, rules)|])
    ensures DistinctIds(Kept(scored, rules))
  {
    var order, kept := Ranked(scored, ChainOf(rules)), Kept(scored, rules);
    KeptIsHead(scored, rules);
    RankedArranges(scored, ChainOf(rules));
    FilterKeepsDistinct(scored, (r: Row) => HigherScores(scored, r.score) == [], IdOf());
    KeepFromKeepsDistinctIds(TopRows(scored), rules, 0);
    SameMembers(order, scored);
    assert SetOf(kept) == SetOf(order[..|kept|]) by {
      forall r | r in kept ensures r in order[..|kept|] {
        KeptStandAheadOfAll(scored, rules, r, r);
        var k :| 0 <= k < |order| && order[k] == r;
        assert order[..|kept|][k] == r;
      }
    }
  }

  lemma IdsOfSameRows(a: seq<Row>, b: seq<Row>)
    requires DistinctIds(a) && DistinctIds(b) && SetOf(a) == SetOf(b)
    ensures multiset(Ids(a)) == multiset(Ids(b))
  {
    assert forall i, j | 0 <= i < j < |a| :: IdOf()(a[i]) != IdOf()(a[j]);
    assert forall i, j | 0 <= i < j < |b| :: IdOf()(b[i]) != IdOf()(b[j]);
    NoRepeatsCount(Ids(a));
    NoRepeatsCount(Ids(b));
    IdsIncluded(a, b);
    IdsIncluded(b, a);
    assert SetOf(Ids(a)) == SetOf(Ids(b));
  }

  lemma IdsIncluded(a: seq<Row>, b: seq<Row>)
    requires SetOf(a) == SetOf(b)
    ensures SetOf(Ids(a)) <= SetOf(Ids(b))
  {
    forall k | 0 <= k < |a| ensures a[k].entryId in Ids(b) {
      assert a[k] in SetOf(b);
      var m :| 0 <= m < |b| && b[m] == a[k];
      assert Ids(b)[m] == a[k].entryId;
    }
  }
}
