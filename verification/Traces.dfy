/**
 The decision trace (explainDecision in server/src/services/resultModel.js), built from the engine's output
 alone, and what it says about the engine's decision.
 */
module Traces {
  import opened Wrappers
  import opened Sorting
  import opened TieBreakers
  import opened Ranking
  import opened Winner
  import opened Eligibility
  import opened Results

  datatype Verdict = NONE | SINGLE | SHARED

  /** snapshot.tieBreakTrace */
  datatype DecisionTrace = DecisionTrace(
    blocked: bool,
    eligible: seq<int>,
    ineligible: seq<Ineligible>,
    blockedBy: seq<Blocked>,
    winningScore: Option<int>,
    topScoreTied: seq<int>,
    steps: seq<TraceStep>,
    decidedBy: Option<Rule>,
    outcome: Verdict,
    winners: seq<int>)

  function SortedIds(ids: seq<int>): seq<int> {
    SortByKey(ids, (id: int) => id)
  }

  function EntryIds(rows: seq<Standing>): seq<int> {
    Map(rows, (r: Standing) => r.entryId)
  }

  function IneligibleKey(): Ineligible -> int {
    (i: Ineligible) => i.entryId
  }

  /** explainDecision, which sees nothing but the engine's output. */
  function ExplainDecision(result: GwResult): DecisionTrace {
    DecisionTrace(
      result.IsBlocked(),
      SortedIds(EntryIds(Filter(result.rows, (r: Standing) => r.ineligibleReason.None?))),
      SortByKey(
        Map(Filter(result.rows, (r: Standing) => IsOut(r)),
            (r: Standing) => AsIneligible(r)),
        IneligibleKey()),
      result.blockedBy,
      result.outcome.winningScore,
      SortedIds(EntryIds(Filter(result.rows, (r: Standing) => r.competitionRank == Some(1)))),
      result.outcome.tieBreakTrace,
      result.outcome.tieBreakApplied,
      if |result.outcome.winners| == 0 then NONE else if |result.outcome.winners| == 1 then SINGLE else SHARED,
      result.outcome.winners)
  }

  // ---- the trace says what the engine did ----

  /** A list without repeated keys, sorted, is the ascending list of the same elements. */
  lemma ListingIsSorted<T(!new)>(s: seq<T>, t: seq<T>, key: T -> int)
    requires DistinctKeys(s, key) && (forall i, j | 0 <= i < j < |t| :: key(t[i]) < key(t[j]))
    requires forall x :: x in s <==> x in t
    ensures SortByKey(s, key) == t
  {
    NoRepeatsCount(s);
    NoRepeatsCount(t);
    assert SetOf(s) == SetOf(t);
    SortByKeyOfSorted(s, t, key);
  }

  function StandingId(): Standing -> int {
    (r: Standing) => r.entryId
  }

  lemma MappedMembers<T, U>(s: seq<T>, f: T -> U, x: U)
    ensures x in Map(s, f) <==> exists m | m in s :: f(m) == x
  {
  }

  lemma DistinctAfterSorting<T(!new)>(s: seq<T>, t: seq<T>, key: T -> int)
    requires DistinctKeys(s, key) && multiset(s) == multiset(t)
    ensures DistinctKeys(t, key)
  {
    NoRepeatsPermutation(s, t);
    SameMembers(s, t);
    forall i, j | 0 <= i < j < |t| ensures key(t[i]) != key(t[j]) {
      assert t[i] in s && t[j] in s && t[i] != t[j];
    }
  }

  /** Each member has one row, in some order. */
  lemma RowsOfComputed(input: Input, nameKey: string -> real)
    requires WellFormedInput(input)
    ensures DistinctKeys(Computed(input, nameKey).rows, StandingId())
  {
    var f := (m: Member) => StandingOf(m, input);
    var listed := Map(input.members, f);
    forall i, j | 0 <= i < j < |listed| ensures StandingId()(listed[i]) != StandingId()(listed[j]) {
      assert MemberId()(input.members[i]) != MemberId()(input.members[j]);
    }
    DistinctAfterSorting(listed, Computed(input, nameKey).rows, StandingId());
  }

  lemma RowOfMember(input: Input, nameKey: string -> real, x: Standing)
    ensures x in Computed(input, nameKey).rows <==> exists m | m in input.members :: StandingOf(m, input) == x
  {
    var f := (m: Member) => StandingOf(m, input);
    SameMembers(Computed(input, nameKey).rows, Map(input.members, f));
    MappedMembers(input.members, f, x);
  }

  /** The id occurs among the rows that satisfy p exactly when a member with that id has such a row. */
  lemma FilteredId(input: Input, nameKey: string -> real, p: Standing -> bool, id: int)
    ensures id in EntryIds(Filter(Computed(input, nameKey).rows, p)) <==>
      exists m | m in input.members :: m.entryId == id && p(StandingOf(m, input))
  {
    var rows := Computed(input, nameKey).rows;
    var kept := Filter(rows, p);
    MappedMembers(kept, (r: Standing) => r.entryId, id);
    if m :| m in input.members && m.entryId == id && p(StandingOf(m, input)) {
      RowOfMember(input, nameKey, StandingOf(m, input));
      assert StandingOf(m, input) in kept;
    }
    if r :| r in kept && r.entryId == id {
      RowOfMember(input, nameKey, r);
    }
  }

  lemma FilteredRowsAreDistinct(input: Input, nameKey: string -> real, p: Standing -> bool)
    requires WellFormedInput(input)
    ensures DistinctKeys(EntryIds(Filter(Computed(input, nameKey).rows, p)), (id: int) => id)
  {
    var kept := Filter(Computed(input, nameKey).rows, p);
    RowsOfComputed(input, nameKey);
    FilterKeepsDistinct(Computed(input, nameKey).rows, p, StandingId());
    assert forall i, j | 0 <= i < j < |kept| :: StandingId()(kept[i]) != StandingId()(kept[j]);
  }

  /** The sorted ids of the rows that satisfy p, when `ids` lists them in ascending order. */
  lemma FilteredIds(input: Input, nameKey: string -> real, p: Standing -> bool, ids: seq<int>)
    requires WellFormedInput(input)
    requires forall i, j | 0 <= i < j < |ids| :: ids[i] < ids[j]
    requires forall m | m in input.members :: p(StandingOf(m, input)) <==> m.entryId in ids
    requires forall id | id in ids :: exists m :: m in input.members && m.entryId == id
    ensures SortedIds(EntryIds(Filter(Computed(input, nameKey).rows, p))) == ids
  {
    var kept := Filter(Computed(input, nameKey).rows, p);
    FilteredRowsAreDistinct(input, nameKey, p);
    forall id ensures id in EntryIds(kept) <==> id in ids {
      FilteredId(input, nameKey, p, id);
    }
    ListingIsSorted(EntryIds(kept), ids, (id: int) => id);
  }

  lemma EligibleInTrace(input: Input, nameKey: string -> real)
    requires WellFormedInput(input)
    ensures ExplainDecision(Computed(input, nameKey)).eligible
         == EligibleIds(SortByKey(input.members, MemberId()), RowsByEntry(input.gwRows, input.event), input.event)
  {
    var rows := RowsByEntry(input.gwRows, input.event);
    EligibleFacts(input.members, rows, input.event);
    FilteredIds(input, nameKey, (r: Standing) => r.ineligibleReason.None?, EligibleIds(SortByKey(input.members, MemberId()), rows, input.event));
  }

  lemma {:induction false} TopRowsAscend(scored: seq<Row>, p: Row -> bool)
    requires forall i, j | 0 <= i < j < |scored| :: scored[i].entryId < scored[j].entryId
    ensures forall i, j | 0 <= i < j < |Filter(scored, p)| :: Filter(scored, p)[i].entryId < Filter(scored, p)[j].entryId
  {
    if scored != [] {
      TopRowsAscend(scored[1..], p);
      assert forall x | x in scored[1..] :: scored[0].entryId < x.entryId;
      var rest := Filter(scored[1..], p);
      assert forall k | 0 <= k < |rest| :: rest[k] in rest && rest[k] in scored[1..];
    }
  }

  /** Scored rows belong to members. */
  lemma ScoredAreMembers(input: Input, r: Row)
    requires WellFormedInput(input) && r in Scored(input)
    ensures exists m :: m in input.members && m.entryId == r.entryId
  {
    var ids := EligibleIds(SortByKey(input.members, MemberId()), RowsByEntry(input.gwRows, input.event), input.event);
    EligibleFacts(input.members, RowsByEntry(input.gwRows, input.event), input.event);
    var k :| 0 <= k < |Scored(input)| && Scored(input)[k] == r;
    assert ids[k] in ids;
  }

  lemma RankOneIsTop(scored: seq<Row>, id: int)
    requires DistinctIds(scored)
    ensures RankOf(scored, id) == Some(1) <==> id in Ids(TopRows(scored))
  {
    var top := TopRows(scored);
    if r :| r in scored && r.entryId == id {
      if RankOf(scored, id) == Some(1) {
        var x :| x in scored && x.entryId == id && |HigherScores(scored, x.score)| == 0;
        assert x in top;
        var k :| 0 <= k < |top| && top[k] == x;
        assert Ids(top)[k] == id;
      }
    }
    if id in Ids(top) {
      var k :| 0 <= k < |top| && Ids(top)[k] == id;
      assert top[k] in top;
      assert forall x | x in scored && x.entryId == id :: x == top[k] by {
        DistinctIdsAreUnique(scored);
      }
    }
  }

  lemma TopInTrace(input: Input, nameKey: string -> real)
    requires WellFormedInput(input)
    ensures ExplainDecision(Computed(input, nameKey)).topScoreTied == Ids(TopRows(Scored(input)))
  {
    var scored := Scored(input);
    var top := TopRows(scored);
    ScoredHasDistinctIds(input);
    TopRowsAscend(scored, (r: Row) => HigherScores(scored, r.score) == []);
    forall id | id in Ids(top) ensures exists m :: m in input.members && m.entryId == id {
      var k :| 0 <= k < |top| && Ids(top)[k] == id;
      assert top[k] in top;
      ScoredAreMembers(input, top[k]);
    }
    forall m | m in input.members ensures StandingOf(m, input).competitionRank == Some(1) <==> m.entryId in Ids(top) {
      RankOneIsTop(scored, m.entryId);
    }
    FilteredIds(input, nameKey, (r: Standing) => r.competitionRank == Some(1), Ids(top));
  }

  lemma IneligibleInTrace(input: Input, nameKey: string -> real)
    requires WellFormedInput(input)
    ensures ExplainDecision(Computed(input, nameKey)).ineligible
         == Ineligibles(SortByKey(input.members, MemberId()), RowsByEntry(input.gwRows, input.event), input.event)
  {
    OutRowsAreIneligibles(input, nameKey);
  }

  lemma OutRowsAreIneligibles(input: Input, nameKey: string -> real)
    requires WellFormedInput(input)
    ensures SortByKey(Map(Filter(Computed(input, nameKey).rows, (r: Standing) => IsOut(r)), (r: Standing) => AsIneligible(r)), IneligibleKey())
         == Ineligibles(SortByKey(input.members, MemberId()), RowsByEntry(input.gwRows, input.event), input.event)
  {
    var listed := Map(Filter(Computed(input, nameKey).rows, (r: Standing) => IsOut(r)), (r: Standing) => AsIneligible(r));
    var expected := Ineligibles(SortByKey(input.members, MemberId()), RowsByEntry(input.gwRows, input.event), input.event);
    OutRowsAreDistinct(input, nameKey);
    IneligiblesAscend(input);
    forall x ensures x in listed <==> x in expected {
      IneligibleRow(input, nameKey, x);
    }
    ListingIsSorted(listed, expected, IneligibleKey());
  }

  lemma IneligiblesAscend(input: Input)
    requires WellFormedInput(input)
    ensures var list := Ineligibles(SortByKey(input.members, MemberId()), RowsByEntry(input.gwRows, input.event), input.event);
      forall i, j | 0 <= i < j < |list| :: list[i].entryId < list[j].entryId
  {
    var sorted := SortByKey(input.members, MemberId());
    SortByKeyIsStrict(input.members, MemberId());
    assert forall i, j | 0 <= i < j < |sorted| :: MemberId()(sorted[i]) < MemberId()(sorted[j]);
    IneligiblesRise(sorted, RowsByEntry(input.gwRows, input.event), input.event);
  }

  lemma OutRowsAreDistinct(input: Input, nameKey: string -> real)
    requires WellFormedInput(input)
    ensures DistinctKeys(Map(Filter(Computed(input, nameKey).rows, (r: Standing) => IsOut(r)), (r: Standing) => AsIneligible(r)), IneligibleKey())
  {
    var kept := Filter(Computed(input, nameKey).rows, (r: Standing) => IsOut(r));
    RowsOfComputed(input, nameKey);
    FilterKeepsDistinct(Computed(input, nameKey).rows, (r: Standing) => IsOut(r), StandingId());
    assert forall i, j | 0 <= i < j < |kept| :: StandingId()(kept[i]) != StandingId()(kept[j]);
  }

  predicate IsOut(r: Standing) {
    r.ineligibleReason.Some?
  }

  function AsIneligible(r: Standing): Ineligible {
    Ineligible(r.entryId, r.ineligibleReason.GetOr(EXCLUDED))
  }

  lemma IneligibleRow(input: Input, nameKey: string -> real, x: Ineligible)
    requires WellFormedInput(input)
    ensures x in Map(Filter(Computed(input, nameKey).rows, (r: Standing) => IsOut(r)), (r: Standing) => AsIneligible(r))
       <==> x in Ineligibles(SortByKey(input.members, MemberId()), RowsByEntry(input.gwRows, input.event), input.event)
  {
    var rows, sorted := RowsByEntry(input.gwRows, input.event), SortByKey(input.members, MemberId());
    var kept := Filter(Computed(input, nameKey).rows, (r: Standing) => IsOut(r));
    IneligibleIds(sorted, rows, input.event, x.entryId, x.reason);
    MappedMembers(kept, (r: Standing) => AsIneligible(r), x);
    if m :| m in sorted && m.entryId == x.entryId && ReasonFor(m, rows, input.event) == Some(x.reason) {
      assert m in input.members by {
        SameMembers(sorted, input.members);
      }
      RowOfMember(input, nameKey, StandingOf(m, input));
      assert StandingOf(m, input) in kept && AsIneligible(StandingOf(m, input)) == x;
    }
    if r :| r in kept && AsIneligible(r) == x {
      RowOfMember(input, nameKey, r);
      var m :| m in input.members && StandingOf(m, input) == r;
      assert m in sorted by {
        SameMembers(sorted, input.members);
      }
    }
  }

  /**
   The trace, rebuilt from the table rows alone, lists exactly the members the engine held eligible and
   ineligible, and the entries that shared the top score; the rest is the engine's own outcome.
   */
  lemma TraceIsFaithful(input: Input, nameKey: string -> real)
    requires WellFormedInput(input)
    ensures var trace, rows := ExplainDecision(Computed(input, nameKey)), RowsByEntry(input.gwRows, input.event);
      && trace.eligible == EligibleIds(SortByKey(input.members, MemberId()), rows, input.event)
      && trace.ineligible == Ineligibles(SortByKey(input.members, MemberId()), rows, input.event)
      && trace.topScoreTied == Ids(TopRows(Scored(input)))
    ensures CarriesOutcome(ExplainDecision(Computed(input, nameKey)), Computed(input, nameKey))
  {
    EligibleInTrace(input, nameKey);
    IneligibleInTrace(input, nameKey);
    TopInTrace(input, nameKey);
  }

  /** Blockers, score, steps, rule and winners are the result's; the verdict says how many winners there are. */
  predicate CarriesOutcome(t: DecisionTrace, r: GwResult) {
    && (t.blocked <==> r.blockedBy != []) && t.blockedBy == r.blockedBy
    && t.winners == r.outcome.winners && t.winningScore == r.outcome.winningScore
    && t.steps == r.outcome.tieBreakTrace && t.decidedBy == r.outcome.tieBreakApplied
    && (t.outcome == NONE <==> t.winners == []) && (t.outcome == SINGLE <==> |t.winners| == 1) && (t.outcome == SHARED <==> |t.winners| > 1)
  }

  // ---- the canonical inputs decide ----

  lemma CanonicalInputsDecide(a: Input, b: Input)
    requires CanonicalInputs(a) == CanonicalInputs(b)
    ensures RowsByEntry(a.gwRows, a.event) == RowsByEntry(b.gwRows, b.event)
    ensures SortByKey(a.members, MemberId()) == SortByKey(b.members, MemberId())
    ensures Scored(a) == Scored(b) && a.group == b.group && a.event == b.event && a.eventState == b.eventState
  {
    RowValuesRoundTrip(a.gwRows, a.event);
    RowValuesRoundTrip(b.gwRows, b.event);
    EntriesRoundTrip(a.effectiveSquads);
    EntriesRoundTrip(b.effectiveSquads);
  }

  lemma SameInputsSameDecision(a: Input, b: Input, nameKey: string -> real)
    requires WellFormedInput(a) && WellFormedInput(b) && CanonicalInputs(a) == CanonicalInputs(b)
    ensures Computed(a, nameKey).outcome == Computed(b, nameKey).outcome
    ensures ExplainDecision(Computed(a, nameKey)) == ExplainDecision(Computed(b, nameKey))
  {
    CanonicalInputsDecide(a, b);
    var x, y := Computed(a, nameKey), Computed(b, nameKey);
    assert x.outcome == y.outcome && x.blockedBy == y.blockedBy;
    TraceIsFaithful(a, nameKey);
    TraceIsFaithful(b, nameKey);
    SameTrace(x, y);
  }

  lemma SameTrace(x: GwResult, y: GwResult)
    requires x.outcome == y.outcome && x.blockedBy == y.blockedBy
    requires ExplainDecision(x).eligible == ExplainDecision(y).eligible
    requires ExplainDecision(x).ineligible == ExplainDecision(y).ineligible
    requires ExplainDecision(x).topScoreTied == ExplainDecision(y).topScoreTied
    ensures ExplainDecision(x) == ExplainDecision(y)
  {
  }
}
