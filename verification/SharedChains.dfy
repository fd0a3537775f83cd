/**
 Rules after SHARED (server/src/analytics/ranking.js, lines 40-45, against
 server/src/analytics/winner.js, lines 72-78): the table still uses them, the narrowing loop does not.
 */
module SharedChains {
  import opened Wrappers
  import opened Sorting
  import opened TieBreakers
  import opened Ranking
  import opened Winner

  /** The winner list is, as a sequence, the entry ids of the first rows of the table. */
  ghost predicate HeadIsLiteral(scored: seq<Row>, rules: seq<Rule>) {
    TopRows(scored) != [] ==>
      var order, winners := Ranked(scored, ChainOf(rules)), WinnersOf(Narrow(Start(TopRows(scored)), rules, 0));
      |winners| <= |order| && winners == Ids(order[..|winners|])
  }

  /** Two rows that differ in one rule's field only; the one with the higher id is the better. */
  function Worse(rule: Rule): Row {
    Row(1, 0, Some(if rule == HigherGrossPoints then 0 else 4), Some(4), Some(if rule == HigherCaptainPoints then 0 else 4), Some(4),
        if rule == NoChipPlayed then Chip("wildcard") else NoChip, Some(if rule == HigherSeasonTotal then 0 else 4), Some(4))
  }

  function BetterRow(rule: Rule): Row {
    Row(2, 0, Some(4), Some(if rule == FewerTransferCost then 0 else 4), Some(4), Some(if rule == FewerPointsOnBench then 0 else 4),
        NoChip, Some(4), Some(if rule == BetterOverallRank then 0 else 4))
  }

  function Pair(rule: Rule): seq<Row> {
    [Worse(rule), BetterRow(rule)]
  }

  lemma PairDiffersInOneRule(rule: Rule, other: Rule)
    requires rule != Shared
    ensures HasData(other, SetOf(Pair(rule))) <==> other != Shared
    ensures other != Shared && other != rule ==> Value(other, Worse(rule)) == Value(other, BetterRow(rule))
    ensures Better(Value(rule, BetterRow(rule)), Value(rule, Worse(rule)))
  {
    var g := SetOf(Pair(rule));
    assert g == {Worse(rule), BetterRow(rule)};
    assert Worse(rule) in g && BetterRow(rule) in g;
  }

  lemma {:induction false} PairOrder(rule: Rule, chain: seq<Rule>, i: nat)
    requires rule != Shared && Shared !in chain && i <= |chain| && rule in chain[i..]
    ensures Above(BetterRow(rule), Worse(rule), SetOf(Pair(rule)), chain, i)
    decreases |chain| - i
  {
    PairDiffersInOneRule(rule, chain[i]);
    assert chain[i] in chain;
    if chain[i] != rule {
      assert chain[i..] == [chain[i]] + chain[i + 1..];
      assert SetOf(Pair(rule)) == {Worse(rule), BetterRow(rule)};
      assert Peers(SetOf(Pair(rule)), chain[i], Value(chain[i], BetterRow(rule))) == SetOf(Pair(rule));
      PairOrder(rule, chain, i + 1);
    }
  }

  lemma {:induction false} InChain(rules: seq<Rule>, rule: Rule)
    requires rule in rules && rule != Shared
    ensures rule in ChainOf(rules)
  {
    if rules[0] != rule {
      InChain(rules[1..], rule);
    }
  }

  /** The loop stops at Shared with both rows, when the rule that tells them apart comes later. */
  lemma {:induction false} PairIsShared(rule: Rule, rules: seq<Rule>, i: nat, k: nat)
    requires rule != Shared && i <= k < |rules| && rules[k] == Shared && rule !in rules[..k]
    ensures KeepFrom(Pair(rule), rules, i) == Pair(rule)
    decreases k - i
  {
    if rules[i] != Shared {
      assert rules[i] == rules[..k][i];
      PairDiffersInOneRule(rule, rules[i]);
      BestOfPair(rule, rules[i]);
      PairIsShared(rule, rules, i + 1, k);
    }
  }

  lemma BestOfPair(rule: Rule, other: Rule)
    requires rule != Shared && other != Shared && other != rule
    ensures TieBreak(other, Pair(rule)) == Pair(rule)
  {
    PairDiffersInOneRule(rule, other);
    var pair := Pair(rule);
    var w := BestIsMaximum(other, pair);
    assert w == pair[0] || w == pair[1];
    KeepsBoth(pair, (r: Row) => Value(other, r) == Some(Best(other, pair)));
  }

  lemma KeepsBoth(pair: seq<Row>, p: Row -> bool)
    requires |pair| == 2 && p(pair[0]) && p(pair[1])
    ensures Filter(pair, p) == pair
  {
    assert pair[1..] == [pair[1]] && pair[1..][1..] == [];
    assert Filter(pair[1..], p) == [pair[1]];
  }

  lemma PairTops(rule: Rule)
    ensures DistinctIds(Pair(rule)) && TopRows(Pair(rule)) == Pair(rule)
  {
    var pair := Pair(rule);
    var higher := (o: Row) => o.score > 0;
    NothingPasses(pair, higher);
    var top := (r: Row) => HigherScores(pair, r.score) == [];
    KeepsBoth(pair, top);
  }

  lemma PairTable(rule: Rule, chain: seq<Rule>)
    requires rule != Shared && Shared !in chain && rule in chain
    ensures Ranked(Pair(rule), chain) == [BetterRow(rule), Worse(rule)]
  {
    var pair, order := Pair(rule), [BetterRow(rule), Worse(rule)];
    PairTops(rule);
    assert chain[0..] == chain;
    PairOrder(rule, chain, 0);
    assert SetOf(order) == SetOf(pair) == ScoreGroup(SetOf(pair), 0);
    assert Ahead(order[0], order[1], SetOf(pair), chain);
    ArrangementIsRanked(order, pair, chain);
  }

  lemma PairWinners(rule: Rule, rules: seq<Rule>, k: nat)
    requires rule != Shared && k < |rules| && rules[k] == Shared && rule !in rules[..k]
    ensures TopRows(Pair(rule)) == Pair(rule)
    ensures WinnersOf(Narrow(Start(Pair(rule)), rules, 0)) == [1, 2]
  {
    PairTops(rule);
    var n := Narrow(Start(Pair(rule)), rules, 0);
    assert n.candidates == Pair(rule) by {
      PairIsShared(rule, rules, 0, k);
      NarrowKeeps(Start(Pair(rule)), rules, 0);
    }
    assert Ids(n.candidates) == [1, 2];
    SortByKeyOfSorted([1, 2], [1, 2], (id: int) => id);
  }

  /** A rule after Shared still orders the table, so the pair it separates is listed the other way round. */
  lemma RuleAfterSharedShows(rules: seq<Rule>, k: nat, rule: Rule)
    requires k < |rules| && rules[k] == Shared && rule in rules && rule !in rules[..k] && rule != Shared
    ensures !HeadIsLiteral(Pair(rule), rules)
  {
    InChain(rules, rule);
    PairTable(rule, ChainOf(rules));
    PairWinners(rule, rules, k);
    assert Ids([BetterRow(rule), Worse(rule)][..2])[0] == 2;
  }

  /**
   Exactly when the comment on resolvePositions is right: in a chain without repeated rules the winners
   are literally the head of every table if and only if nothing follows SHARED.
   */
  lemma HeadIsLiteralIffSharedIsLast(rules: seq<Rule>)
    requires NoRepeats(rules)
    ensures SharedIsLast(rules) <==> forall scored | DistinctIds(scored) && scored != [] :: HeadIsLiteral(scored, rules)
  {
    if SharedIsLast(rules) {
      forall scored | DistinctIds(scored) && scored != [] ensures HeadIsLiteral(scored, rules) {
        WinnersAreTableHead(scored, rules);
      }
    } else {
      var k :| 0 <= k < |rules| - 1 && rules[k] == Shared;
      var rule := rules[k + 1];
      assert rule !in rules[..k] && rule != Shared by {
        assert forall i | 0 <= i < k :: rules[..k][i] == rules[i] != rules[k + 1];
      }
      RuleAfterSharedShows(rules, k, rule);
      PairTops(rule);
    }
  }

  /** isValidRuleChain implies the condition. */
  lemma ValidChainEndsWithShared(rules: seq<Rule>)
    requires IsValidRuleChain(rules)
    ensures SharedIsLast(rules) && NoRepeats(rules)
  {
  }
}
