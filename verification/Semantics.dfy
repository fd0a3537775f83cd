/**
 The season-semantics machine (applySemanticsEvidence in server/src/repositories/seasonRepo.js) and its
 batch specification (combineSemantics in server/src/fpl/smoke/reconcileProbe.js).
 */
module Semantics {
  import opened Wrappers
  import opened Points
  import opened SyncRuns

  /** season.pointsSemantics */
  datatype Season = Season(value: PointsSemantics, evidenceRows: nat, conflictRows: nat, firstVerifiedRunId: Option<RunId>)

  /** One sync's evidence counts. */
  datatype Batch = Batch(gross: nat, net: nat, run: RunId)

  const Initial: Season := Season(UNVERIFIED, 0, 0, None)

  /** A season is in conflict exactly when it has conflicting rows. */
  predicate Consistent(s: Season) {
    s.value == CONFLICTED <==> s.conflictRows > 0
  }

  /** What one batch does, by the season's current value. */
  function Apply(s: Season, b: Batch): Season {
    match s.value
    case CONFLICTED => s
    case UNVERIFIED =>
      if b.gross > 0 && b.net > 0 then s.(value := CONFLICTED, conflictRows := s.conflictRows + b.gross + b.net)
      else if b.gross > 0 then s.(value := GROSS_BEFORE_HITS, evidenceRows := s.evidenceRows + b.gross, firstVerifiedRunId := Some(b.run))
      else if b.net > 0 then s.(value := NET_AFTER_HITS, evidenceRows := s.evidenceRows + b.net, firstVerifiedRunId := Some(b.run))
      else s
    case GROSS_BEFORE_HITS =>
      s.(value := if b.net > 0 then CONFLICTED else s.value, evidenceRows := s.evidenceRows + b.gross, conflictRows := s.conflictRows + b.net)
    case NET_AFTER_HITS =>
      s.(value := if b.gross > 0 then CONFLICTED else s.value, evidenceRows := s.evidenceRows + b.net, conflictRows := s.conflictRows + b.gross)
  }

  /** One season document. */
  class SeasonStore {
    var pointsSemantics: Season

    predicate Valid()
      reads this
    {
      Consistent(pointsSemantics)
    }

    constructor ()
      ensures Valid() && pointsSemantics == Initial
    {
      pointsSemantics := Initial;
    }

    /** The update pipeline: every right-hand side reads the stored fields. */
    method ApplySemanticsEvidence(gross: nat, net: nat, run: RunId)
      requires Valid()
      modifies this
      ensures Valid()
      ensures pointsSemantics == Apply(old(pointsSemantics), Batch(gross, net, run))
    {
      var cur := pointsSemantics.value;
      var both := gross > 0 && net > 0;
      var fromUnverified := if both then CONFLICTED else if gross > 0 then GROSS_BEFORE_HITS else if net > 0 then NET_AFTER_HITS else UNVERIFIED;
      var addEvidence := match cur
        case UNVERIFIED => if both then 0 else gross + net
        case GROSS_BEFORE_HITS => gross
        case NET_AFTER_HITS => net
        case CONFLICTED => 0;
      var addConflict := match cur
        case UNVERIFIED => if both then gross + net else 0
        case GROSS_BEFORE_HITS => net
        case NET_AFTER_HITS => gross
        case CONFLICTED => 0;
      var conflictRows := pointsSemantics.conflictRows + addConflict;
      var verifiesNow := cur == UNVERIFIED && (fromUnverified == GROSS_BEFORE_HITS || fromUnverified == NET_AFTER_HITS);
      pointsSemantics := Season(
        if conflictRows > 0 then CONFLICTED else if cur == UNVERIFIED then fromUnverified else cur,
        pointsSemantics.evidenceRows + addEvidence,
        conflictRows,
        if verifiesNow then Some(run) else pointsSemantics.firstVerifiedRunId);
    }
  }

  /** The season after a sequence of batches. */
  function After(batches: seq<Batch>): Season {
    if batches == [] then Initial else Apply(After(batches[..|batches| - 1]), batches[|batches| - 1])
  }

  // ---- the batch specification ----

  function TotalGross(batches: seq<Batch>): nat {
    if batches == [] then 0 else TotalGross(batches[..|batches| - 1]) + batches[|batches| - 1].gross
  }

  function TotalNet(batches: seq<Batch>): nat {
    if batches == [] then 0 else TotalNet(batches[..|batches| - 1]) + batches[|batches| - 1].net
  }

  function Verdict(gross: nat, net: nat): PointsSemantics {
    if gross > 0 && net > 0 then CONFLICTED
    else if gross > 0 then GROSS_BEFORE_HITS
    else if net > 0 then NET_AFTER_HITS
    else UNVERIFIED
  }

  /** combineSemantics: one pass over all evidence, one verdict. */
  method CombineSemantics(batches: seq<Batch>) returns (gross: nat, net: nat, semantics: PointsSemantics)
    ensures gross == TotalGross(batches) && net == TotalNet(batches)
    ensures semantics == After(batches).value
  {
    gross, net := 0, 0;
    for k := 0 to |batches|
      invariant gross == TotalGross(batches[..k]) && net == TotalNet(batches[..k])
    {
      gross, net := gross + batches[k].gross, net + batches[k].net;
      assert batches[..k + 1][..k] == batches[..k];
    }
    assert batches[..|batches|] == batches;
    semantics := UNVERIFIED;
    if gross > 0 && net > 0 {
      semantics := CONFLICTED;
    } else if gross > 0 {
      semantics := GROSS_BEFORE_HITS;
    } else if net > 0 {
      semantics := NET_AFTER_HITS;
    }
    IncrementalEqualsBatch(batches);
  }

  /** After any batches the incremental value is the verdict on the totals. */
  lemma {:induction false} IncrementalEqualsBatch(batches: seq<Batch>)
    ensures After(batches).value == Verdict(TotalGross(batches), TotalNet(batches))
    ensures Consistent(After(batches))
  {
    if batches != [] {
      IncrementalEqualsBatch(batches[..|batches| - 1]);
    }
  }

  lemma {:induction false} TotalsOfConcat(a: seq<Batch>, b: seq<Batch>)
    ensures TotalGross(a + b) == TotalGross(a) + TotalGross(b) && TotalNet(a + b) == TotalNet(a) + TotalNet(b)
  {
    if b == [] {
      assert a + b == a;
    } else {
      var n := |b| - 1;
      assert (a + b)[..|a + b| - 1] == a + b[..n];
      TotalsOfConcat(a, b[..n]);
    }
  }

  /** How the evidence is split over syncs does not matter, nor does their order. */
  lemma SplitDoesNotMatter(a: seq<Batch>, b: seq<Batch>)
    ensures After(a + b).value == After(b + a).value
    ensures After(a + b).value == After([Batch(TotalGross(a + b), TotalNet(a + b), 0)]).value
  {
    TotalsOfConcat(a, b);
    TotalsOfConcat(b, a);
    IncrementalEqualsBatch(a + b);
    IncrementalEqualsBatch(b + a);
    var one := [Batch(TotalGross(a + b), TotalNet(a + b), 0)];
    assert one[..0] == [];
    IncrementalEqualsBatch(one);
  }

  /** CONFLICTED is absorbing and freezes the counters. */
  lemma {:induction false} ConflictIsSticky(batches: seq<Batch>, later: seq<Batch>)
    requires After(batches).value == CONFLICTED
    ensures After(batches + later) == After(batches)
  {
    if later == [] {
      assert batches + later == batches;
    } else {
      var n := |later| - 1;
      assert (batches + later)[..|batches + later| - 1] == batches + later[..n];
      ConflictIsSticky(batches, later[..n]);
    }
  }

  /** The batches up to and including the first that brings a conflict; all of them when none does. */
  function ThroughConflict(batches: seq<Batch>): (k: nat)
    ensures k <= |batches|
    ensures forall i | 0 <= i < k :: Verdict(TotalGross(batches[..i]), TotalNet(batches[..i])) != CONFLICTED
    ensures k < |batches| ==> Verdict(TotalGross(batches[..k]), TotalNet(batches[..k])) == CONFLICTED
  {
    if batches == [] then 0
    else
      var n := |batches| - 1;
      var k := ThroughConflict(batches[..n]);
      assert forall i | 0 <= i <= n :: batches[..n][..i] == batches[..i];
      if Verdict(TotalGross(batches[..k]), TotalNet(batches[..k])) == CONFLICTED then k else
        assert k == n;
        n + 1
  }

  /** Every row counted is evidence or conflict, and counting stops with the first conflicting batch. */
  lemma {:induction false} CountersAddUp(batches: seq<Batch>)
    ensures var k, s := ThroughConflict(batches), After(batches);
      s.evidenceRows + s.conflictRows == TotalGross(batches[..k]) + TotalNet(batches[..k])
  {
    if batches != [] {
      var n := |batches| - 1;
      var before := batches[..n];
      var j, k := ThroughConflict(before), ThroughConflict(batches);
      CountersAddUp(before);
      IncrementalEqualsBatch(before);
      assert before[..j] == batches[..j] && before[..n] == before && batches[..n + 1] == batches;
      if k == n + 1 {
        assert j == n;
      } else {
        assert j == k;
        assert After(before).value == CONFLICTED by {
          assert before == batches[..j] + before[j..];
          TotalsOfConcat(batches[..j], before[j..]);
        }
      }
    }
  }

  /** Without a conflict every row counted is evidence. */
  lemma {:induction false} CleanCounters(batches: seq<Batch>)
    requires After(batches).value != CONFLICTED
    ensures After(batches).evidenceRows == TotalGross(batches) + TotalNet(batches) && After(batches).conflictRows == 0
  {
    if batches != [] {
      IncrementalEqualsBatch(batches);
      IncrementalEqualsBatch(batches[..|batches| - 1]);
      CleanCounters(batches[..|batches| - 1]);
    }
  }

  /** Batch k - 1 is the first that brings a conflict. */
  ghost predicate ConflictsFirst(batches: seq<Batch>, k: nat) {
    && 0 < k <= |batches|
    && Verdict(TotalGross(batches[..k]), TotalNet(batches[..k])) == CONFLICTED
    && Verdict(TotalGross(batches[..k - 1]), TotalNet(batches[..k - 1])) != CONFLICTED
  }

  /**
   Each counter apart. The batch that brings the conflict adds its rows for the semantics proven before it to
   the evidence and its others to the conflicts; if nothing was proven before, all its rows are conflicts. No
   later batch counts for either.
   */
  lemma {:induction false} ConflictCounters(batches: seq<Batch>, k: nat)
    requires ConflictsFirst(batches, k)
    ensures var s, b, before := After(batches), batches[k - 1], batches[..k - 1];
      && s.evidenceRows == (if TotalGross(before) > 0 then TotalGross(before) + b.gross else if TotalNet(before) > 0 then TotalNet(before) + b.net else 0)
      && s.conflictRows == (if TotalGross(before) > 0 then b.net else if TotalNet(before) > 0 then b.gross else b.gross + b.net)
  {
    var before, now := batches[..k - 1], batches[..k];
    assert now[..k - 1] == before && batches == now + batches[k..];
    IncrementalEqualsBatch(before);
    IncrementalEqualsBatch(now);
    CleanCounters(before);
    ConflictIsSticky(now, batches[k..]);
  }

  /** A season in conflict has exactly one such batch. */
  lemma {:induction false} ConflictHasFirst(batches: seq<Batch>) returns (k: nat)
    requires After(batches).value == CONFLICTED
    ensures ConflictsFirst(batches, k)
  {
    var n := |batches| - 1;
    IncrementalEqualsBatch(batches);
    IncrementalEqualsBatch(batches[..n]);
    if After(batches[..n]).value == CONFLICTED {
      k := ConflictHasFirst(batches[..n]);
      assert batches[..n][..k] == batches[..k] && batches[..n][..k - 1] == batches[..k - 1];
    } else {
      k := n + 1;
      assert batches[..k] == batches;
    }
  }

  /** The first batch with any evidence, |batches| when there is none. */
  function FirstProving(batches: seq<Batch>): (k: nat)
    ensures k <= |batches|
    ensures forall i | 0 <= i < k :: batches[i].gross == batches[i].net == 0
    ensures k < |batches| ==> batches[k].gross + batches[k].net > 0
  {
    if batches == [] then 0
    else if batches[0].gross + batches[0].net > 0 then 0
    else 1 + FirstProving(batches[1..])
  }

  /** firstVerifiedRunId is the run of the first batch with evidence, unless that batch contradicts itself. */
  lemma {:induction false} FirstVerifiedRun(batches: seq<Batch>)
    ensures var k := FirstProving(batches);
      After(batches).firstVerifiedRunId ==
        if k < |batches| && !(batches[k].gross > 0 && batches[k].net > 0) then Some(batches[k].run) else None
    ensures After(batches).value == UNVERIFIED <==> FirstProving(batches) == |batches|
  {
    if batches != [] {
      var n := |batches| - 1;
      FirstVerifiedRun(batches[..n]);
      var j, k := FirstProving(batches[..n]), FirstProving(batches);
      assert forall i | 0 <= i < n :: batches[..n][i] == batches[i];
      assert j < n ==> k == j;
    }
  }

  /** So it is set at most once: no later batch changes it. */
  lemma FirstVerifiedIsSetOnce(batches: seq<Batch>, later: seq<Batch>)
    requires After(batches).firstVerifiedRunId.Some?
    ensures After(batches + later).firstVerifiedRunId == After(batches).firstVerifiedRunId
  {
    FirstVerifiedRun(batches);
    FirstVerifiedRun(batches + later);
    var j, k := FirstProving(batches), FirstProving(batches + later);
    assert forall i | 0 <= i < |batches| :: (batches + later)[i] == batches[i];
    assert batches[j] == (batches + later)[j];
  }
}
