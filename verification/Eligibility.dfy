/** Who counts in a gameweek (server/src/analytics/eligibility.js). */
module Eligibility {
  import opened Wrappers
  import opened Sorting
  import opened Points
  import opened TieBreakers

  datatype Member = Member(entryId: int, isExcluded: bool, joinedEvent: Option<int>, synced: bool)

  datatype GwRow = GwRow(
    entryId: int,
    event: int,
    reportedGwPoints: int,
    transferCost: int,
    netGwPoints: Option<int>,
    grossGwPoints: Option<int>,
    totalPoints: Option<int>,
    pointsOnBench: Option<int>,
    activeChip: ChipField,
    overallRank: Option<int>,
    pointsSemantics: PointsSemantics,
    reconciliationStatus: ReconciliationStatus)

  datatype IneligibleReason = EXCLUDED | JOINED_LATER | NO_TEAM

  datatype Ineligible = Ineligible(entryId: int, reason: IneligibleReason)

  function MemberId(): Member -> int {
    (m: Member) => m.entryId
  }

  function ReasonFor(m: Member, gwRows: map<int, GwRow>, event: int): Option<IneligibleReason> {
    if m.isExcluded then Some(EXCLUDED)
    else if m.joinedEvent.Some? && event < m.joinedEvent.value then Some(JOINED_LATER)
    else if m.synced && m.entryId !in gwRows then Some(NO_TEAM)
    else None
  }

  function EligibleIds(sorted: seq<Member>, gwRows: map<int, GwRow>, event: int): seq<int> {
    if sorted == [] then []
    else
      var n := |sorted| - 1;
      var before := EligibleIds(sorted[..n], gwRows, event);
      if ReasonFor(sorted[n], gwRows, event).None? then before + [sorted[n].entryId] else before
  }

  function Ineligibles(sorted: seq<Member>, gwRows: map<int, GwRow>, event: int): seq<Ineligible> {
    if sorted == [] then []
    else
      var n := |sorted| - 1;
      var before := Ineligibles(sorted[..n], gwRows, event);
      match ReasonFor(sorted[n], gwRows, event)
      case Some(reason) => before + [Ineligible(sorted[n].entryId, reason)]
      case None => before
  }

  /** Splits the members, in entryId order, into the eligible and the others with their first reason. */
  method SelectEligible(members: seq<Member>, gwRows: map<int, GwRow>, event: int)
    returns (eligible: seq<int>, ineligible: seq<Ineligible>)
    ensures eligible == EligibleIds(SortByKey(members, MemberId()), gwRows, event)
    ensures ineligible == Ineligibles(SortByKey(members, MemberId()), gwRows, event)
  {
    var sorted := SortByKey(members, MemberId());
    eligible, ineligible := [], [];
    for n := 0 to |sorted|
      invariant eligible == EligibleIds(sorted[..n], gwRows, event)
      invariant ineligible == Ineligibles(sorted[..n], gwRows, event)
    {
      var m := sorted[n];
      assert sorted[..n + 1][..n] == sorted[..n];
      var reason := None;
      if m.isExcluded {
        reason := Some(EXCLUDED);
      } else if m.joinedEvent.Some? && event < m.joinedEvent.value {
        reason := Some(JOINED_LATER);
      } else if m.synced && m.entryId !in gwRows {
        reason := Some(NO_TEAM);
      }
      if reason.Some? {
        ineligible := ineligible + [Ineligible(m.entryId, reason.value)];
      } else {
        eligible := eligible + [m.entryId];
      }
    }
    assert sorted[..|sorted|] == sorted;
  }

  /** The eligible ids are those of the members without a reason. */
  lemma {:induction false} EligibleIdsAre(sorted: seq<Member>, gwRows: map<int, GwRow>, event: int, id: int)
    ensures id in EligibleIds(sorted, gwRows, event) <==>
      exists k :: 0 <= k < |sorted| && sorted[k].entryId == id && ReasonFor(sorted[k], gwRows, event).None?
  {
    if sorted != [] {
      var n := |sorted| - 1;
      EligibleIdsAre(sorted[..n], gwRows, event, id);
      assert forall k | 0 <= k < n :: sorted[..n][k] == sorted[k];
    }
  }

  lemma {:induction false} EligibleIdsRise(sorted: seq<Member>, gwRows: map<int, GwRow>, event: int)
    requires forall i, j | 0 <= i < j < |sorted| :: MemberId()(sorted[i]) < MemberId()(sorted[j])
    ensures forall i, j | 0 <= i < j < |EligibleIds(sorted, gwRows, event)| ::
      EligibleIds(sorted, gwRows, event)[i] < EligibleIds(sorted, gwRows, event)[j]
  {
    if sorted != [] {
      var n := |sorted| - 1;
      EligibleIdsRise(sorted[..n], gwRows, event);
      var early := EligibleIds(sorted[..n], gwRows, event);
      forall k | 0 <= k < |early| ensures early[k] < sorted[n].entryId {
        EligibleIdsAre(sorted[..n], gwRows, event, early[k]);
        var i :| 0 <= i < n && sorted[..n][i].entryId == early[k];
        assert MemberId()(sorted[i]) < MemberId()(sorted[n]);
      }
    }
  }

  /** With distinct members: eligible ids ascend, and a member is eligible exactly when no reason applies. */
  lemma EligibleFacts(members: seq<Member>, gwRows: map<int, GwRow>, event: int)
    requires DistinctKeys(members, MemberId())
    ensures var ids := EligibleIds(SortByKey(members, MemberId()), gwRows, event);
      && (forall i, j | 0 <= i < j < |ids| :: ids[i] < ids[j])
      && (forall m | m in members :: m.entryId in ids <==> ReasonFor(m, gwRows, event).None?)
      && (forall id | id in ids :: exists m :: m in members && m.entryId == id && ReasonFor(m, gwRows, event).None?)
  {
    var sorted := SortByKey(members, MemberId());
    var ids := EligibleIds(sorted, gwRows, event);
    SortByKeyIsStrict(members, MemberId());
    SameMembers(sorted, members);
    EligibleIdsRise(sorted, gwRows, event);
    forall id | id in ids ensures exists m :: m in members && m.entryId == id && ReasonFor(m, gwRows, event).None? {
      EligibleIdsAre(sorted, gwRows, event, id);
      var k :| 0 <= k < |sorted| && sorted[k].entryId == id && ReasonFor(sorted[k], gwRows, event).None?;
      assert sorted[k] in members;
    }
    forall m | m in members ensures m.entryId in ids <==> ReasonFor(m, gwRows, event).None? {
      EligibleIdsAre(sorted, gwRows, event, m.entryId);
      var k :| 0 <= k < |sorted| && sorted[k] == m;
      if m.entryId in ids {
        var other :| other in members && other.entryId == m.entryId && ReasonFor(other, gwRows, event).None?;
        SameKeySameMember(members, m, other);
      }
    }
  }

  lemma SameKeySameMember(members: seq<Member>, a: Member, b: Member)
    requires DistinctKeys(members, MemberId()) && a in members && b in members && a.entryId == b.entryId
    ensures a == b
  {
  }

  lemma {:induction false} IneligibleIds(sorted: seq<Member>, gwRows: map<int, GwRow>, event: int, id: int, reason: IneligibleReason)
    ensures Ineligible(id, reason) in Ineligibles(sorted, gwRows, event) <==>
      exists m :: m in sorted && m.entryId == id && ReasonFor(m, gwRows, event) == Some(reason)
  {
    if sorted != [] {
      var n := |sorted| - 1;
      assert sorted == sorted[..n] + [sorted[n]];
      IneligibleIds(sorted[..n], gwRows, event, id, reason);
      assert forall m | m in sorted[..n] :: m in sorted;
    }
  }

  lemma {:induction false} IneligiblesRise(sorted: seq<Member>, gwRows: map<int, GwRow>, event: int)
    requires forall i, j | 0 <= i < j < |sorted| :: sorted[i].entryId < sorted[j].entryId
    ensures forall i, j | 0 <= i < j < |Ineligibles(sorted, gwRows, event)| ::
      Ineligibles(sorted, gwRows, event)[i].entryId < Ineligibles(sorted, gwRows, event)[j].entryId
    ensures forall k | 0 <= k < |Ineligibles(sorted, gwRows, event)| ::
      sorted != [] && Ineligibles(sorted, gwRows, event)[k].entryId <= sorted[|sorted| - 1].entryId
  {
    if sorted != [] {
      var n := |sorted| - 1;
      IneligiblesRise(sorted[..n], gwRows, event);
      var before, all := Ineligibles(sorted[..n], gwRows, event), Ineligibles(sorted, gwRows, event);
      assert forall k | 0 <= k < |before| :: before[k].entryId <= sorted[..n][|sorted[..n]| - 1].entryId < sorted[n].entryId;
      assert all == before || (exists x: Ineligible :: x.entryId == sorted[n].entryId && all == before + [x]);
      forall k | 0 <= k < |all| ensures all[k].entryId <= sorted[n].entryId {
        assert k < |before| ==> all[k] == before[k];
      }
      forall i, j | 0 <= i < j < |all| ensures all[i].entryId < all[j].entryId {
        assert all[i] == before[i] && (j < |before| ==> all[j] == before[j]);
      }
    } else {
      assert Ineligibles(sorted, gwRows, event) == [];
    }
  }

  /**
   Every member is in exactly one of the two lists, and an ineligible one carries its first reason:
   EXCLUDED before JOINED_LATER before NO_TEAM. A member whose sync failed stays eligible.
   */
  lemma SelectionPartitions(members: seq<Member>, gwRows: map<int, GwRow>, event: int, m: Member, reason: IneligibleReason)
    requires DistinctKeys(members, MemberId()) && m in members
    ensures var sorted := SortByKey(members, MemberId());
      && (m.entryId in EligibleIds(sorted, gwRows, event) <==> ReasonFor(m, gwRows, event).None?)
      && (Ineligible(m.entryId, reason) in Ineligibles(sorted, gwRows, event) <==> ReasonFor(m, gwRows, event) == Some(reason))
    ensures !m.isExcluded && m.joinedEvent.None? && !m.synced ==> ReasonFor(m, gwRows, event).None?
  {
    EligibleFacts(members, gwRows, event);
    var sorted := SortByKey(members, MemberId());
    SortByKeyIsStrict(members, MemberId());
    IneligibleIds(sorted, gwRows, event, m.entryId, reason);
    if Ineligible(m.entryId, reason) in Ineligibles(sorted, gwRows, event) {
      var other :| other in sorted && other.entryId == m.entryId && ReasonFor(other, gwRows, event) == Some(reason);
      SameKeySameMember(members, m, other);
    }
  }
}
