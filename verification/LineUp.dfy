/**
 The line-up optimiser of the planner (client/src/lib/planner.js). `BestXi` is the source's greedy
 algorithm; the lemmas show by an exchange argument that no legal eleven scores more.
 */
module LineUp {
  import opened Wrappers
  import opened Sorting

  datatype Pos = GKP | DEF | MID | FWD | Unlisted

  datatype Player = Player(elementId: int, position: Pos, epNextTenths: Option<int>)

  const XI_SIZE: nat := 11
  const SQUAD_SIZE: nat := 15
  const POSITIONS: seq<Pos> := [GKP, DEF, MID, FWD]

  function XiMin(p: Pos): nat {
    match p case GKP => 1 case DEF => 3 case MID => 2 case FWD => 1 case Unlisted => 0
  }

  /** A position outside XI_MAX compares with undefined, so such a player is never picked. */
  function XiMax(p: Pos): nat {
    match p case GKP => 1 case DEF => 5 case MID => 5 case FWD => 3 case Unlisted => 0
  }

  function Weight(p: Player): int {
    p.epNextTenths.GetOr(-1)
  }

  function PlayerId(): Player -> int {
    (p: Player) => p.elementId
  }

  /** Highest expected points first, then lowest id. */
  function ByEp(): (Player, Player) -> bool {
    (a: Player, b: Player) => Weight(a) > Weight(b) || (Weight(a) == Weight(b) && a.elementId <= b.elementId)
  }

  function At(s: set<Player>, pos: Pos): set<Player> {
    set p | p in s && p.position == pos
  }

  // ---- what a line-up is and what it scores ----

  ghost function Sum(s: set<Player>, w: Player -> int): int {
    if s == {} then 0
    else
      var p :| p in s;
      w(p) + Sum(s - {p}, w)
  }

  /** Σ (ep ?? −1) */
  ghost function Total(s: set<Player>): int {
    Sum(s, (p: Player) => Weight(p))
  }

  /** Eleven players within every position's bounds: the XI checks of `evaluate`. */
  ghost predicate LegalXi(s: set<Player>) {
    |s| == XI_SIZE && forall pos :: XiMin(pos) <= |At(s, pos)| <= XiMax(pos)
  }

  /** The rules of the game: one goalkeeper, three to five defenders, two to five midfielders, one to three forwards. */
  lemma LegalMeans(s: set<Player>)
    ensures LegalXi(s) <==>
      && |s| == 11 && (forall p | p in s :: p.position != Unlisted)
      && |set p | p in s && p.position == GKP| == 1
      && 3 <= |set p | p in s && p.position == DEF| <= 5
      && 2 <= |set p | p in s && p.position == MID| <= 5
      && 1 <= |set p | p in s && p.position == FWD| <= 3
  {
    assert At(s, GKP) == set p | p in s && p.position == GKP;
    assert At(s, DEF) == set p | p in s && p.position == DEF;
    assert At(s, MID) == set p | p in s && p.position == MID;
    assert At(s, FWD) == set p | p in s && p.position == FWD;
    assert |At(s, Unlisted)| == 0 <==> At(s, Unlisted) == {};
    if LegalXi(s) {
      assert XiMin(Unlisted) <= |At(s, Unlisted)| <= XiMax(Unlisted);
      assert XiMin(GKP) <= |At(s, GKP)| <= XiMax(GKP);
      assert XiMin(DEF) <= |At(s, DEF)| <= XiMax(DEF);
      assert XiMin(MID) <= |At(s, MID)| <= XiMax(MID);
      assert XiMin(FWD) <= |At(s, FWD)| <= XiMax(FWD);
      forall p | p in s ensures p.position != Unlisted {
        assert p !in At(s, Unlisted);
      }
    }
  }

  function Capped(s: set<Player>, pos: Pos): nat {
    if |At(s, pos)| < XiMax(pos) then |At(s, pos)| else XiMax(pos)
  }

  /** The pool can fill a formation: every minimum, and eleven places under the maxima. */
  ghost predicate Enough(pool: set<Player>) {
    && (forall pos :: XiMin(pos) <= |At(pool, pos)|)
    && Capped(pool, GKP) + Capped(pool, DEF) + Capped(pool, MID) + Capped(pool, FWD) >= XI_SIZE
  }

  /** evaluate's XI problems (lines 73-78) for a draft whose squad is full. */
  datatype Problem = WrongSize(n: nat) | TooFew(pos: Pos) | TooMany(pos: Pos)

  function PositionProblems(xi: set<Player>, pos: Pos): seq<Problem> {
    (if |At(xi, pos)| < XiMin(pos) then [TooFew(pos)] else [])
    + (if |At(xi, pos)| > XiMax(pos) then [TooMany(pos)] else [])
  }

  function XiProblems(xi: set<Player>): seq<Problem> {
    (if |xi| != XI_SIZE then [WrongSize(|xi|)] else [])
    + PositionProblems(xi, GKP) + PositionProblems(xi, DEF) + PositionProblems(xi, MID) + PositionProblems(xi, FWD)
  }

  lemma NoProblemsIffLegal(xi: set<Player>)
    requires At(xi, Unlisted) == {}
    ensures XiProblems(xi) == [] <==> LegalXi(xi)
  {
  }

  /** Which problems there are: a size other than eleven, and each position outside its bounds. */
  lemma ProblemsAre(xi: set<Player>, n: nat, pos: Pos)
    ensures WrongSize(n) in XiProblems(xi) <==> n == |xi| && n != 11
    ensures TooFew(pos) in XiProblems(xi) <==>
      var k := |set p | p in xi && p.position == pos|;
      (pos == GKP && k < 1) || (pos == DEF && k < 3) || (pos == MID && k < 2) || (pos == FWD && k < 1)
    ensures TooMany(pos) in XiProblems(xi) <==>
      var k := |set p | p in xi && p.position == pos|;
      (pos == GKP && k > 1) || (pos == DEF && k > 5) || (pos == MID && k > 5) || (pos == FWD && k > 3)
  {
    assert At(xi, pos) == set p | p in xi && p.position == pos;
    PositionProblemsAre(xi, GKP, n, pos);
    PositionProblemsAre(xi, DEF, n, pos);
    PositionProblemsAre(xi, MID, n, pos);
    PositionProblemsAre(xi, FWD, n, pos);
  }

  lemma PositionProblemsAre(xi: set<Player>, at: Pos, n: nat, pos: Pos)
    ensures WrongSize(n) !in PositionProblems(xi, at)
    ensures TooFew(pos) in PositionProblems(xi, at) <==> pos == at && |At(xi, at)| < XiMin(at)
    ensures TooMany(pos) in PositionProblems(xi, at) <==> pos == at && |At(xi, at)| > XiMax(at)
  {
  }

  // ---- sums over sets ----

  lemma {:induction false} SumRemove(s: set<Player>, p: Player, w: Player -> int)
    requires p in s
    ensures Sum(s, w) == w(p) + Sum(s - {p}, w)
  {
    var q :| q in s && Sum(s, w) == w(q) + Sum(s - {q}, w);
    if p != q {
      SumRemove(s - {q}, p, w);
      SumRemove(s - {p}, q, w);
      assert s - {q} - {p} == s - {p} - {q};
    }
  }

  lemma {:induction false} SumUnion(s: set<Player>, t: set<Player>, w: Player -> int)
    requires s !! t
    ensures Sum(s + t, w) == Sum(s, w) + Sum(t, w)
  {
    if s == {} {
      assert s + t == t;
    } else {
      var p :| p in s;
      SumRemove(s, p, w);
      SumRemove(s + t, p, w);
      assert s + t - {p} == (s - {p}) + t;
      SumUnion(s - {p}, t, w);
    }
  }

  lemma {:induction false} SumShift(s: set<Player>, w: Player -> int, cut: int)
    ensures Sum(s, (p: Player) => w(p) - cut) == Sum(s, w) - cut * |s|
  {
    var v := (p: Player) => w(p) - cut;
    if s != {} {
      var p :| p in s;
      SumRemove(s, p, w);
      SumRemove(s, p, v);
      SumShift(s - {p}, w, cut);
      assert cut * |s| == cut * |s - {p}| + cut;
    }
  }

  lemma {:induction false} SumsAgree(s: set<Player>, v: Player -> int, w: Player -> int)
    requires forall p | p in s :: v(p) == w(p)
    ensures Sum(s, v) == Sum(s, w)
  {
    if s != {} {
      var p :| p in s;
      SumRemove(s, p, v);
      SumRemove(s, p, w);
      SumsAgree(s - {p}, v, w);
    }
  }

  /** A line-up scores the expected points of its players, a player without any counting -1. */
  lemma TotalMeans(s: set<Player>)
    ensures Total(s) == Sum(s, (p: Player) => if p.epNextTenths.Some? then p.epNextTenths.value else 0 - 1)
  {
    SumsAgree(s, (p: Player) => Weight(p), (p: Player) => if p.epNextTenths.Some? then p.epNextTenths.value else 0 - 1);
  }

  function Rank(pos: Pos): nat {
    match pos case GKP => 0 case DEF => 1 case MID => 2 case FWD => 3 case Unlisted => 4
  }

  function RankedFrom(s: set<Player>, n: nat): set<Player> {
    set p | p in s && Rank(p.position) >= n
  }

  lemma SplitOff(s: set<Player>, pos: Pos, w: Player -> int)
    ensures |RankedFrom(s, Rank(pos))| == |At(s, pos)| + |RankedFrom(s, Rank(pos) + 1)|
    ensures Sum(RankedFrom(s, Rank(pos)), w) == Sum(At(s, pos), w) + Sum(RankedFrom(s, Rank(pos) + 1), w)
  {
    assert RankedFrom(s, Rank(pos)) == At(s, pos) + RankedFrom(s, Rank(pos) + 1);
    SumUnion(At(s, pos), RankedFrom(s, Rank(pos) + 1), w);
  }

  lemma RankedEnds(s: set<Player>, w: Player -> int)
    ensures |RankedFrom(s, 0)| == |s| && Sum(RankedFrom(s, 0), w) == Sum(s, w)
    ensures |RankedFrom(s, 5)| == 0 && Sum(RankedFrom(s, 5), w) == 0
  {
    assert RankedFrom(s, 0) == s && RankedFrom(s, 5) == {};
  }

  lemma SplitKeeper(s: set<Player>, w: Player -> int)
    ensures |s| == |At(s, GKP)| + |RankedFrom(s, 1)|
    ensures Sum(s, w) == Sum(At(s, GKP), w) + Sum(RankedFrom(s, 1), w)
  {
    RankedEnds(s, w);
    SplitOff(s, GKP, w);
  }

  lemma SplitForwards(s: set<Player>, w: Player -> int)
    ensures |RankedFrom(s, 3)| == |At(s, FWD)| + |At(s, Unlisted)|
    ensures Sum(RankedFrom(s, 3), w) == Sum(At(s, FWD), w) + Sum(At(s, Unlisted), w)
  {
    RankedEnds(s, w);
    SplitOff(s, FWD, w);
    SplitOff(s, Unlisted, w);
  }

  lemma SplitByPosition(s: set<Player>, w: Player -> int)
    ensures |s| == |At(s, GKP)| + |At(s, DEF)| + |At(s, MID)| + |At(s, FWD)| + |At(s, Unlisted)|
    ensures Sum(s, w) == Sum(At(s, GKP), w) + Sum(At(s, DEF), w) + Sum(At(s, MID), w) + Sum(At(s, FWD), w) + Sum(At(s, Unlisted), w)
  {
    SplitKeeper(s, w);
    SplitOff(s, DEF, w);
    SplitOff(s, MID, w);
    SplitForwards(s, w);
  }

  // ---- the exchange argument ----

  /** `xi` takes the best of every position. */
  ghost predicate TakesBest(xi: set<Player>, pool: set<Player>) {
    forall x, y | x in xi && y in pool && y !in xi && x.position == y.position :: Weight(y) <= Weight(x)
  }

  /**
   `cut` separates what could be given up from what could be taken: a position above its minimum
   holds nothing lighter, a position below its maximum leaves nothing heavier outside.
   */
  ghost predicate Cut(xi: set<Player>, pool: set<Player>, cut: int) {
    && (forall x | x in xi && |At(xi, x.position)| > XiMin(x.position) :: Weight(x) >= cut)
    && (forall y | y in pool && y !in xi && |At(xi, y.position)| < XiMax(y.position) :: Weight(y) <= cut)
  }

  /** More expected points, or as many and the lower id. */
  predicate Precedes(a: Player, b: Player) {
    Weight(a) > Weight(b) || (Weight(a) == Weight(b) && a.elementId < b.elementId)
  }

  /**
   Which of equally good line-ups is taken: whoever is in could not be replaced by a player outside who
   precedes him, be it at his own position or where his has one to spare and the other has room.
   */
  ghost predicate Chosen(xi: set<Player>, pool: set<Player>) {
    forall x, y | x in xi && y in pool && y !in xi ::
      (x.position == y.position || (|At(xi, x.position)| > XiMin(x.position) && |At(xi, y.position)| < XiMax(y.position)))
        ==> Precedes(x, y)
  }

  lemma ChosenAtPosition(a: set<Player>, b: set<Player>, pool: set<Player>, pos: Pos)
    requires a <= pool && b <= pool && Chosen(a, pool) && Chosen(b, pool)
    ensures At(a, pos) <= At(b, pos) || At(b, pos) <= At(a, pos)
  {
  }

  lemma SmallerPart(a: set<Player>, b: set<Player>)
    requires a <= b
    ensures |a| <= |b| && (|a| == |b| ==> a == b)
  {
    assert b == a + (b - a);
  }

  lemma ChosenNeedsNoMore(a: set<Player>, b: set<Player>, pool: set<Player>, more: Pos, fewer: Pos)
    requires a <= pool && b <= pool && Chosen(a, pool) && Chosen(b, pool) && LegalXi(a) && LegalXi(b)
    requires |At(a, more)| > |At(b, more)|
    ensures |At(a, fewer)| >= |At(b, fewer)|
  {
    if |At(a, fewer)| < |At(b, fewer)| {
      ChosenAtPosition(a, b, pool, more);
      ChosenAtPosition(a, b, pool, fewer);
      if At(a, more) <= At(b, more) {
        SmallerPart(At(a, more), At(b, more));
      }
      if At(b, fewer) <= At(a, fewer) {
        SmallerPart(At(b, fewer), At(a, fewer));
      }
      assert XiMin(more) <= |At(b, more)| && |At(b, fewer)| <= XiMax(fewer);
      var x :| x in At(a, more) && x !in At(b, more);
      var y :| y in At(b, fewer) && y !in At(a, fewer);
      assert false;
    }
  }

  lemma ChosenCountsAgree(a: set<Player>, b: set<Player>, pool: set<Player>, pos: Pos)
    requires a <= pool && b <= pool && Chosen(a, pool) && Chosen(b, pool) && LegalXi(a) && LegalXi(b)
    ensures |At(a, pos)| <= |At(b, pos)|
  {
    SplitByPosition(a, (p: Player) => Weight(p));
    SplitByPosition(b, (p: Player) => Weight(p));
    if |At(a, pos)| > |At(b, pos)| {
      forall q: Pos ensures |At(a, q)| >= |At(b, q)| {
        ChosenNeedsNoMore(a, b, pool, pos, q);
      }
      assert false;
    }
  }

  lemma ChosenSameAtPosition(a: set<Player>, b: set<Player>, pool: set<Player>, pos: Pos)
    requires a <= pool && b <= pool && Chosen(a, pool) && Chosen(b, pool) && LegalXi(a) && LegalXi(b)
    ensures At(a, pos) == At(b, pos)
  {
    ChosenCountsAgree(a, b, pool, pos);
    ChosenCountsAgree(b, a, pool, pos);
    ChosenAtPosition(a, b, pool, pos);
    if At(a, pos) <= At(b, pos) {
      SmallerPart(At(a, pos), At(b, pos));
    } else {
      SmallerPart(At(b, pos), At(a, pos));
    }
  }

  /** So there is one at most. */
  lemma ChosenIsUnique(a: set<Player>, b: set<Player>, pool: set<Player>)
    requires a <= pool && b <= pool && Chosen(a, pool) && Chosen(b, pool) && LegalXi(a) && LegalXi(b)
    ensures a == b
  {
    forall p | p in a + b ensures p in a && p in b {
      ChosenSameAtPosition(a, b, pool, p.position);
      assert p in At(a, p.position) <==> p in a;
      assert p in At(b, p.position) <==> p in b;
    }
  }

  lemma {:induction false} Outweighs(lost: set<Player>, gained: set<Player>, w: Player -> int)
    requires forall x, y | x in lost && y in gained :: w(y) <= w(x)
    requires |gained| < |lost| ==> forall x | x in lost :: w(x) >= 0
    requires |gained| > |lost| ==> forall y | y in gained :: w(y) <= 0
    ensures Sum(gained, w) <= Sum(lost, w)
    decreases |lost| + |gained|
  {
    if lost != {} && gained != {} {
      var x :| x in lost;
      var y :| y in gained;
      SumRemove(lost, x, w);
      SumRemove(gained, y, w);
      Outweighs(lost - {x}, gained - {y}, w);
    } else if lost != {} {
      var x :| x in lost;
      SumRemove(lost, x, w);
      Outweighs(lost - {x}, gained, w);
    } else if gained != {} {
      var y :| y in gained;
      SumRemove(gained, y, w);
      Outweighs(lost, gained - {y}, w);
    }
  }

  lemma SumDifference(a: set<Player>, b: set<Player>, w: Player -> int)
    ensures |a| == |a - b| + |a * b|
    ensures Sum(a, w) == Sum(a - b, w) + Sum(a * b, w)
  {
    assert a == (a - b) + (a * b);
    SumUnion(a - b, a * b, w);
  }

  lemma PositionBound(xi: set<Player>, rival: set<Player>, pool: set<Player>, pos: Pos, cut: int, w: Player -> int)
    requires xi <= pool && rival <= pool && TakesBest(xi, pool) && Cut(xi, pool, cut)
    requires XiMin(pos) <= |At(xi, pos)| <= XiMax(pos) && XiMin(pos) <= |At(rival, pos)| <= XiMax(pos)
    requires forall p :: w(p) == Weight(p) - cut
    ensures Sum(At(rival, pos), w) <= Sum(At(xi, pos), w)
  {
    var x, r := At(xi, pos), At(rival, pos);
    SumDifference(x, r, w);
    SumDifference(r, x, w);
    assert x * r == r * x;
    Outweighs(x - r, r - x, w);
  }

  /** No legal line-up outscores one that takes the best of every position and has a cut. */
  lemma CutIsOptimal(xi: set<Player>, rival: set<Player>, pool: set<Player>, cut: int)
    requires xi <= pool && rival <= pool && TakesBest(xi, pool) && Cut(xi, pool, cut)
    requires LegalXi(xi) && LegalXi(rival)
    ensures Total(rival) <= Total(xi)
  {
    var weight := (p: Player) => Weight(p);
    var w := (p: Player) => weight(p) - cut;
    SplitByPosition(xi, w);
    SplitByPosition(rival, w);
    PositionBound(xi, rival, pool, GKP, cut, w);
    PositionBound(xi, rival, pool, DEF, cut, w);
    PositionBound(xi, rival, pool, MID, cut, w);
    PositionBound(xi, rival, pool, FWD, cut, w);
    PositionBound(xi, rival, pool, Unlisted, cut, w);
    SumShift(xi, weight, cut);
    SumShift(rival, weight, cut);
  }

  // ---- the greedy algorithm ----

  function PlayersAt(list: seq<Player>, pos: Pos): seq<Player> {
    Filter(list, (p: Player) => p.position == pos)
  }

  /** byEp.filter(p => p.position === pos).slice(0, XI_MIN[pos]) */
  function Head(byEp: seq<Player>, pos: Pos): seq<Player> {
    var f := PlayersAt(byEp, pos);
    if |f| <= XiMin(pos) then f else f[..XiMin(pos)]
  }

  function MinCount(pool: set<Player>, pos: Pos): nat {
    if |At(pool, pos)| <= XiMin(pos) then |At(pool, pos)| else XiMin(pos)
  }

  /** Nobody outside `xi` precedes a member of the same position. */
  ghost predicate TopClosed(xi: set<Player>, byEp: seq<Player>) {
    forall j, k | 0 <= j < k < |byEp| && byEp[j].position == byEp[k].position && byEp[k] in xi :: byEp[j] in xi
  }

  ghost predicate Listed(byEp: seq<Player>) {
    DistinctKeys(byEp, PlayerId()) && forall j, k | 0 <= j < k < |byEp| :: Precedes(byEp[j], byEp[k])
  }

  lemma ListedHasNoRepeats(byEp: seq<Player>)
    requires Listed(byEp)
    ensures NoRepeats(byEp)
  {
  }

  lemma {:induction false} FilterHeadIsClosed(list: seq<Player>, pos: Pos, m: nat, j: nat, k: nat)
    requires NoRepeats(list) && j < k < |list| && list[j].position == pos
    requires m <= |PlayersAt(list, pos)| && list[k] in PlayersAt(list, pos)[..m]
    ensures list[j] in PlayersAt(list, pos)[..m]
  {
    var f := PlayersAt(list, pos);
    var g := PlayersAt(list[1..], pos);
    if list[0].position == pos {
      assert f == [list[0]] + g;
      assert f[..m] == [list[0]] + g[..m - 1];
      if j > 0 {
        assert list[k] in g[..m - 1];
        FilterHeadIsClosed(list[1..], pos, m - 1, j - 1, k - 1);
      }
    } else {
      assert f == g;
      FilterHeadIsClosed(list[1..], pos, m, j - 1, k - 1);
    }
  }

  lemma PlayersAtFacts(byEp: seq<Player>, pos: Pos)
    requires Listed(byEp)
    ensures NoRepeats(PlayersAt(byEp, pos)) && SetOf(PlayersAt(byEp, pos)) == At(SetOf(byEp), pos)
    ensures |PlayersAt(byEp, pos)| == |At(SetOf(byEp), pos)|
  {
    ListedHasNoRepeats(byEp);
    FilterNoRepeats(byEp, (p: Player) => p.position == pos);
    CountAt(byEp, pos);
  }

  lemma HeadFacts(byEp: seq<Player>, pos: Pos)
    requires Listed(byEp)
    ensures NoRepeats(Head(byEp, pos)) && |Head(byEp, pos)| == MinCount(SetOf(byEp), pos)
    ensures SetOf(Head(byEp, pos)) <= At(SetOf(byEp), pos)
    ensures forall j, k | 0 <= j < k < |byEp| && byEp[j].position == pos && byEp[k] in Head(byEp, pos) :: byEp[j] in Head(byEp, pos)
  {
    PlayersAtFacts(byEp, pos);
    assert forall p | p in Head(byEp, pos) :: p in PlayersAt(byEp, pos);
    HeadIsClosed(byEp, pos);
  }

  lemma HeadIsClosed(byEp: seq<Player>, pos: Pos)
    requires Listed(byEp)
    ensures forall j, k | 0 <= j < k < |byEp| && byEp[j].position == pos && byEp[k] in Head(byEp, pos) :: byEp[j] in Head(byEp, pos)
  {
    var f := PlayersAt(byEp, pos);
    ListedHasNoRepeats(byEp);
    assert f == f[..|f|];
    forall j, k | 0 <= j < k < |byEp| && byEp[j].position == pos && byEp[k] in Head(byEp, pos) ensures byEp[j] in Head(byEp, pos) {
      FilterHeadIsClosed(byEp, pos, |Head(byEp, pos)|, j, k);
    }
  }

  /** The formation minimums, position by position. */
  method Minimums(byEp: seq<Player>) returns (xi: seq<Player>)
    requires Listed(byEp)
    ensures NoRepeats(xi) && SetOf(xi) <= SetOf(byEp) && TopClosed(SetOf(xi), byEp)
    ensures forall pos :: |At(SetOf(xi), pos)| == MinCount(SetOf(byEp), pos)
  {
    xi := [];
    for n := 0 to |POSITIONS|
      invariant NoRepeats(xi)
      invariant forall pos :: At(SetOf(xi), pos) == if pos in POSITIONS[..n] then SetOf(Head(byEp, pos)) else {}
    {
      var pos := POSITIONS[n];
      HeadFacts(byEp, pos);
      AppendPosition(xi, Head(byEp, pos), pos);
      xi := xi + Head(byEp, pos);
      assert POSITIONS[..n + 1] == POSITIONS[..n] + [pos];
    }
    assert POSITIONS[..|POSITIONS|] == POSITIONS;
    MinimumsFacts(byEp, xi);
  }

  lemma AppendPosition(xi: seq<Player>, head: seq<Player>, pos: Pos)
    requires NoRepeats(xi) && NoRepeats(head) && At(SetOf(xi), pos) == {}
    requires forall p | p in SetOf(head) :: p.position == pos
    ensures NoRepeats(xi + head)
    ensures forall q :: At(SetOf(xi + head), q) == if q == pos then SetOf(head) else At(SetOf(xi), q)
  {
    forall p | p in xi ensures p.position != pos {
      assert p.position == pos ==> p in At(SetOf(xi), pos);
    }
    forall i, j | 0 <= i < j < |xi + head| ensures (xi + head)[i] != (xi + head)[j] {
      if i < |xi| <= j {
        assert (xi + head)[i] in xi && head[j - |xi|] in SetOf(head);
      }
    }
  }

  lemma MinimumsFacts(byEp: seq<Player>, xi: seq<Player>)
    requires Listed(byEp)
    requires forall pos :: At(SetOf(xi), pos) == if pos in POSITIONS then SetOf(Head(byEp, pos)) else {}
    ensures SetOf(xi) <= SetOf(byEp) && TopClosed(SetOf(xi), byEp)
    ensures forall pos :: |At(SetOf(xi), pos)| == MinCount(SetOf(byEp), pos)
  {
    forall pos ensures |At(SetOf(xi), pos)| == MinCount(SetOf(byEp), pos) {
      HeadFacts(byEp, pos);
      NoRepeatsCount(Head(byEp, pos));
      assert pos == Unlisted || pos in POSITIONS;
    }
    forall p | p in SetOf(xi) ensures p in SetOf(byEp) {
      assert p in At(SetOf(xi), p.position);
      HeadFacts(byEp, p.position);
    }
    forall j, k | 0 <= j < k < |byEp| && byEp[j].position == byEp[k].position && byEp[k] in SetOf(xi) ensures byEp[j] in SetOf(xi) {
      var pos := byEp[k].position;
      assert byEp[k] in At(SetOf(xi), pos);
      HeadFacts(byEp, pos);
      assert byEp[j] in SetOf(Head(byEp, pos));
      assert byEp[j] in At(SetOf(xi), pos);
    }
  }

  /** The state of the second loop after the first `i` players. */
  ghost predicate Greedy(xi: set<Player>, byEp: seq<Player>, i: nat) {
    && xi <= SetOf(byEp) && TopClosed(xi, byEp) && i <= |byEp|
    && (forall pos :: MinCount(SetOf(byEp), pos) <= |At(xi, pos)| <= XiMax(pos))
    && (forall j | 0 <= j < i && byEp[j] !in xi :: |At(xi, byEp[j].position)| == XiMax(byEp[j].position))
    && (forall x, k | x in xi && |At(xi, x.position)| > XiMin(x.position) && i <= k < |byEp| :: Precedes(x, byEp[k]))
  }

  lemma AddedAt(xi: set<Player>, p: Player)
    requires p !in xi
    ensures forall pos :: At(xi + {p}, pos) == if pos == p.position then At(xi, pos) + {p} else At(xi, pos)
    ensures forall pos :: |At(xi + {p}, pos)| == if pos == p.position then |At(xi, pos)| + 1 else |At(xi, pos)|
  {
  }

  lemma PickKeepsTopClosed(xi: set<Player>, byEp: seq<Player>, i: nat)
    requires Listed(byEp) && Greedy(xi, byEp, i) && i < |byEp|
    requires |At(xi, byEp[i].position)| < XiMax(byEp[i].position)
    ensures TopClosed(xi + {byEp[i]}, byEp)
  {
  }

  lemma PickComesLater(xi: set<Player>, byEp: seq<Player>, i: nat, x: Player)
    requires Listed(byEp) && Greedy(xi, byEp, i) && i < |byEp| && byEp[i] !in xi
    requires x in xi && x.position == byEp[i].position
    ensures Precedes(x, byEp[i])
  {
  }

  lemma PickKeepsBounds(xi: set<Player>, byEp: seq<Player>, i: nat)
    requires Greedy(xi, byEp, i) && i < |byEp| && byEp[i] !in xi && |At(xi, byEp[i].position)| < XiMax(byEp[i].position)
    ensures var next := xi + {byEp[i]};
      && (forall pos :: MinCount(SetOf(byEp), pos) <= |At(next, pos)| <= XiMax(pos))
      && (forall j | 0 <= j < i + 1 && byEp[j] !in next :: |At(next, byEp[j].position)| == XiMax(byEp[j].position))
  {
    AddedAt(xi, byEp[i]);
  }

  lemma PickNext(xi: set<Player>, byEp: seq<Player>, i: nat)
    requires Listed(byEp) && Greedy(xi, byEp, i) && i < |byEp|
    requires byEp[i] !in xi && |At(xi, byEp[i].position)| < XiMax(byEp[i].position)
    ensures Greedy(xi + {byEp[i]}, byEp, i + 1)
  {
    var p := byEp[i];
    var next := xi + {p};
    AddedAt(xi, p);
    assert p in byEp;
    PickKeepsTopClosed(xi, byEp, i);
    PickKeepsBounds(xi, byEp, i);
    forall x, k | x in next && |At(next, x.position)| > XiMin(x.position) && i + 1 <= k < |byEp| ensures Precedes(x, byEp[k]) {
      if x.position == p.position && x != p {
        PickComesLater(xi, byEp, i, x);
      }
    }
  }

  lemma SkipNext(xi: set<Player>, byEp: seq<Player>, i: nat)
    requires Greedy(xi, byEp, i) && i < |byEp|
    requires byEp[i] in xi || |At(xi, byEp[i].position)| >= XiMax(byEp[i].position)
    ensures Greedy(xi, byEp, i + 1)
  {
  }

  lemma GreedyTakesBest(xi: set<Player>, byEp: seq<Player>, i: nat)
    requires Listed(byEp) && Greedy(xi, byEp, i)
    ensures TakesBest(xi, SetOf(byEp))
  {
  }

  lemma GreedyIsChosen(xi: set<Player>, byEp: seq<Player>, i: nat)
    requires Listed(byEp) && Greedy(xi, byEp, i)
    ensures Chosen(xi, SetOf(byEp))
  {
  }

  /** The weight of the first player not looked at, or the least weight of all. */
  function CutOf(byEp: seq<Player>, i: nat): int
    requires byEp != []
  {
    if i < |byEp| then Weight(byEp[i]) else Weight(byEp[|byEp| - 1])
  }

  lemma GreedyHasCut(xi: set<Player>, byEp: seq<Player>, i: nat)
    requires Listed(byEp) && Greedy(xi, byEp, i) && byEp != []
    ensures Cut(xi, SetOf(byEp), CutOf(byEp, i))
  {
  }

  /** A pool with a legal line-up can fill a formation. */
  lemma LegalNeedsEnough(xi: set<Player>, pool: set<Player>)
    requires xi <= pool && LegalXi(xi)
    ensures Enough(pool)
  {
    forall pos ensures XiMin(pos) <= |At(xi, pos)| <= |At(pool, pos)| && |At(xi, pos)| <= Capped(pool, pos) {
      assert At(pool, pos) == At(xi, pos) + (At(pool, pos) - At(xi, pos));
    }
    SplitByPosition(xi, (p: Player) => Weight(p));
  }

  lemma FullWhenEnough(xi: set<Player>, byEp: seq<Player>, i: nat)
    requires Greedy(xi, byEp, i) && |xi| <= XI_SIZE && (|xi| == XI_SIZE || i == |byEp|)
    requires Enough(SetOf(byEp))
    ensures LegalXi(xi)
  {
    var pool := SetOf(byEp);
    if i == |byEp| {
      forall pos ensures |At(xi, pos)| >= Capped(pool, pos) {
        if |At(xi, pos)| < XiMax(pos) {
          forall p | p in At(pool, pos) ensures p in At(xi, pos) {
            var j :| 0 <= j < |byEp| && byEp[j] == p;
          }
          assert At(pool, pos) == At(xi, pos);
        }
      }
      SplitByPosition(xi, (p: Player) => Weight(p));
    }
    forall pos ensures XiMin(pos) <= |At(xi, pos)| {
      assert XiMin(pos) <= |At(pool, pos)|;
    }
  }

  /** The players of a draft's XI: `squad.filter(p => draft.xi.includes(p.elementId))`. */
  function Picked(players: seq<Player>, ids: seq<int>): set<Player> {
    set p | p in players && p.elementId in ids
  }

  lemma PickedAreThose(players: seq<Player>, xi: seq<Player>)
    requires DistinctKeys(players, PlayerId()) && SetOf(xi) <= SetOf(players)
    ensures Picked(players, Map(xi, PlayerId())) == SetOf(xi)
  {
    var ids := Map(xi, PlayerId());
    forall p | p in players && p.elementId in ids ensures p in xi {
      var k :| 0 <= k < |xi| && ids[k] == p.elementId;
      assert xi[k] in SetOf(players);
      var i :| 0 <= i < |players| && players[i] == p;
      var j :| 0 <= j < |players| && players[j] == xi[k];
      assert PlayerId()(players[i]) == PlayerId()(players[j]);
    }
    forall p | p in xi ensures p in players && p.elementId in ids {
      assert p in SetOf(players);
      var k :| 0 <= k < |xi| && xi[k] == p;
      assert ids[k] == p.elementId;
    }
  }

  /**
   bestXi: formation minimums first, then the best of the rest. Every list of distinct players gives
   at most eleven of them within the maxima; when the pool can fill a formation the result is legal
   and no legal eleven from the pool has more expected points.
   */
  method BestXi(players: seq<Player>) returns (ids: seq<int>)
    requires DistinctKeys(players, PlayerId())
    ensures NoRepeats(ids) && |ids| == |Picked(players, ids)| <= XI_SIZE
    ensures var xi := Picked(players, ids);
      && (forall pos :: |At(xi, pos)| <= XiMax(pos))
      && (LegalXi(xi) <==> Enough(SetOf(players)))
      && (forall rival | rival <= SetOf(players) && LegalXi(rival) :: LegalXi(xi) && Total(rival) <= Total(xi))
      && Chosen(xi, SetOf(players))
  {
    var xi := PickXi(players);
    ids := Map(xi, PlayerId());
    PickedAreThose(players, xi);
    NoRepeatsCount(xi);
    forall i, j | 0 <= i < j < |ids| ensures ids[i] != ids[j] {
      assert xi[i] in SetOf(players) && xi[j] in SetOf(players) && xi[i] != xi[j];
      var a :| 0 <= a < |players| && players[a] == xi[i];
      var b :| 0 <= b < |players| && players[b] == xi[j];
      assert PlayerId()(players[a]) != PlayerId()(players[b]);
    }
  }

  /** The two loops of bestXi, before the ids are taken. */
  method PickXi(players: seq<Player>) returns (xi: seq<Player>)
    requires DistinctKeys(players, PlayerId())
    ensures NoRepeats(xi) && SetOf(xi) <= SetOf(players) && |xi| <= XI_SIZE
    ensures forall pos :: |At(SetOf(xi), pos)| <= XiMax(pos)
    ensures LegalXi(SetOf(xi)) <==> Enough(SetOf(players))
    ensures forall rival | rival <= SetOf(players) && LegalXi(rival) :: LegalXi(SetOf(xi)) && Total(rival) <= Total(SetOf(xi))
    ensures Chosen(SetOf(xi), SetOf(players))
  {
    var byEp := SortBy(players, ByEp());
    ByEpLists(players);
    var picked := Minimums(byEp);
    StartsGreedy(picked, byEp);
    var i := 0;
    while i < |byEp| && |picked| < XI_SIZE
      invariant i <= |byEp| && NoRepeats(picked) && |picked| <= XI_SIZE
      invariant Greedy(SetOf(picked), byEp, i)
    {
      var p := byEp[i];
      if p !in picked && |PlayersAt(picked, p.position)| < XiMax(p.position) {
        LoopPicks(picked, byEp, i);
        picked := picked + [p];
      } else {
        LoopSkips(picked, byEp, i);
      }
      i := i + 1;
    }
    xi := picked;
    NoRepeatsCount(picked);
    GreedyIsOptimal(SetOf(picked), byEp, i);
  }

  lemma LoopPicks(picked: seq<Player>, byEp: seq<Player>, i: nat)
    requires Listed(byEp) && NoRepeats(picked) && Greedy(SetOf(picked), byEp, i) && i < |byEp|
    requires byEp[i] !in picked && |PlayersAt(picked, byEp[i].position)| < XiMax(byEp[i].position)
    ensures NoRepeats(picked + [byEp[i]]) && Greedy(SetOf(picked + [byEp[i]]), byEp, i + 1)
  {
    CountAt(picked, byEp[i].position);
    PickNext(SetOf(picked), byEp, i);
    assert SetOf(picked + [byEp[i]]) == SetOf(picked) + {byEp[i]};
  }

  lemma LoopSkips(picked: seq<Player>, byEp: seq<Player>, i: nat)
    requires NoRepeats(picked) && Greedy(SetOf(picked), byEp, i) && i < |byEp|
    requires byEp[i] in picked || |PlayersAt(picked, byEp[i].position)| >= XiMax(byEp[i].position)
    ensures Greedy(SetOf(picked), byEp, i + 1)
  {
    CountAt(picked, byEp[i].position);
    SkipNext(SetOf(picked), byEp, i);
  }

  /** The finished greedy line-up is legal exactly when the pool allows it, and then unbeaten. */
  lemma GreedyIsOptimal(xi: set<Player>, byEp: seq<Player>, i: nat)
    requires Listed(byEp) && Greedy(xi, byEp, i) && |xi| <= XI_SIZE && (|xi| == XI_SIZE || i == |byEp|)
    ensures LegalXi(xi) <==> Enough(SetOf(byEp))
    ensures forall rival | rival <= SetOf(byEp) && LegalXi(rival) :: LegalXi(xi) && Total(rival) <= Total(xi)
    ensures Chosen(xi, SetOf(byEp))
  {
    GreedyIsChosen(xi, byEp, i);
    if Enough(SetOf(byEp)) {
      FullWhenEnough(xi, byEp, i);
    } else if LegalXi(xi) {
      LegalNeedsEnough(xi, SetOf(byEp));
    }
    forall rival | rival <= SetOf(byEp) && LegalXi(rival) ensures LegalXi(xi) && Total(rival) <= Total(xi) {
      LegalNeedsEnough(rival, SetOf(byEp));
      FullWhenEnough(xi, byEp, i);
      GreedyTakesBest(xi, byEp, i);
      assert byEp != [];
      GreedyHasCut(xi, byEp, i);
      CutIsOptimal(xi, rival, SetOf(byEp), CutOf(byEp, i));
    }
  }

  lemma ByEpLists(players: seq<Player>)
    requires DistinctKeys(players, PlayerId())
    ensures Listed(SortBy(players, ByEp())) && SetOf(SortBy(players, ByEp())) == SetOf(players)
  {
    var byEp := SortBy(players, ByEp());
    SortBySorts(players, ByEp());
    SameMembers(byEp, players);
    assert forall i, j | 0 <= i < j < |players| :: PlayerId()(players[i]) != PlayerId()(players[j]);
    NoRepeatsPermutation(players, byEp);
    forall i, j | 0 <= i < j < |byEp| ensures PlayerId()(byEp[i]) != PlayerId()(byEp[j]) && Precedes(byEp[i], byEp[j]) {
      assert ByEp()(byEp[i], byEp[j]) && byEp[i] != byEp[j];
      assert byEp[i] in players && byEp[j] in players;
    }
  }

  lemma StartsGreedy(picked: seq<Player>, byEp: seq<Player>)
    requires NoRepeats(picked) && SetOf(picked) <= SetOf(byEp) && TopClosed(SetOf(picked), byEp)
    requires forall pos :: |At(SetOf(picked), pos)| == MinCount(SetOf(byEp), pos)
    ensures Greedy(SetOf(picked), byEp, 0) && |picked| <= XI_SIZE
  {
    NoRepeatsCount(picked);
    SplitByPosition(SetOf(picked), (p: Player) => Weight(p));
    forall pos ensures |At(SetOf(picked), pos)| <= XiMin(pos) <= XiMax(pos) {
    }
  }

  lemma CountAt(list: seq<Player>, pos: Pos)
    requires NoRepeats(list)
    ensures |PlayersAt(list, pos)| == |At(SetOf(list), pos)|
  {
    var f := PlayersAt(list, pos);
    FilterNoRepeats(list, (p: Player) => p.position == pos);
    NoRepeatsCount(f);
    assert SetOf(f) == At(SetOf(list), pos);
  }

  lemma {:induction false} FilterNoRepeats(s: seq<Player>, p: Player -> bool)
    requires NoRepeats(s)
    ensures NoRepeats(Filter(s, p))
  {
    if s != [] {
      FilterNoRepeats(s[1..], p);
      assert s[0] !in s[1..];
    }
  }

  // ---- what evaluate says of it ----

  /** SQUAD_SHAPE */
  function SquadShape(p: Pos): nat {
    match p case GKP => 2 case DEF => 5 case MID => 5 case FWD => 3 case Unlisted => 0
  }

  ghost predicate FullSquad(squad: set<Player>) {
    forall pos :: |At(squad, pos)| == SquadShape(pos)
  }

  lemma FilteredIsPicked(squad: seq<Player>, ids: seq<int>)
    requires DistinctKeys(squad, PlayerId())
    ensures var xi := Filter(squad, (p: Player) => p.elementId in ids);
      NoRepeats(xi) && SetOf(xi) == Picked(squad, ids) && |xi| == |Picked(squad, ids)|
  {
    var xi := Filter(squad, (p: Player) => p.elementId in ids);
    FilterKeepsDistinct(squad, (p: Player) => p.elementId in ids, PlayerId());
    assert forall i, j | 0 <= i < j < |xi| :: PlayerId()(xi[i]) != PlayerId()(xi[j]);
    assert SetOf(xi) == Picked(squad, ids);
    NoRepeatsCount(xi);
  }

  /** The XI part of evaluate, for a squad of SQUAD_SIZE players. */
  method EvaluateXi(squad: seq<Player>, ids: seq<int>) returns (problems: seq<Problem>)
    requires DistinctKeys(squad, PlayerId())
    ensures problems == XiProblems(Picked(squad, ids))
  {
    var xi := Filter(squad, (p: Player) => p.elementId in ids);
    FilteredIsPicked(squad, ids);
    var counts := CheckPositions(xi);
    problems := (if |xi| != XI_SIZE then [WrongSize(|xi|)] else []) + counts;
  }

  /** Its loop over POSITIONS. */
  method CheckPositions(xi: seq<Player>) returns (problems: seq<Problem>)
    requires NoRepeats(xi)
    ensures problems == PositionProblems(SetOf(xi), GKP) + PositionProblems(SetOf(xi), DEF)
                      + PositionProblems(SetOf(xi), MID) + PositionProblems(SetOf(xi), FWD)
  {
    problems := [];
    for k := 0 to |POSITIONS|
      invariant problems == ProblemsOf(SetOf(xi), POSITIONS[..k])
    {
      var pos := POSITIONS[k];
      CountAt(xi, pos);
      var n := |PlayersAt(xi, pos)|;
      assert POSITIONS[..k + 1][..k] == POSITIONS[..k];
      problems := problems + (if n < XiMin(pos) then [TooFew(pos)] else []) + (if n > XiMax(pos) then [TooMany(pos)] else []);
    }
    FourPositions(SetOf(xi));
  }

  function ProblemsOf(xi: set<Player>, positions: seq<Pos>): seq<Problem> {
    if positions == [] then []
    else ProblemsOf(xi, positions[..|positions| - 1]) + PositionProblems(xi, positions[|positions| - 1])
  }

  lemma FourPositions(xi: set<Player>)
    ensures ProblemsOf(xi, POSITIONS[..|POSITIONS|])
         == PositionProblems(xi, GKP) + PositionProblems(xi, DEF) + PositionProblems(xi, MID) + PositionProblems(xi, FWD)
  {
    assert POSITIONS[..|POSITIONS|] == [GKP, DEF, MID] + [FWD];
    assert ([GKP, DEF, MID] + [FWD])[..3] == [GKP, DEF] + [MID];
    assert ([GKP, DEF] + [MID])[..2] == [GKP] + [DEF];
    assert ([GKP] + [DEF])[..1] == [] + [GKP];
    assert ([] + [GKP])[..0] == [];
    assert ProblemsOf(xi, [] + [GKP]) == PositionProblems(xi, GKP);
    assert ProblemsOf(xi, [GKP] + [DEF]) == PositionProblems(xi, GKP) + PositionProblems(xi, DEF);
  }

  /** On a full squad, evaluate reports no starting-XI problem for what bestXi returns. */
  lemma BestXiHasNoProblems(squad: seq<Player>, ids: seq<int>)
    requires FullSquad(SetOf(squad))
    requires LegalXi(Picked(squad, ids)) <==> Enough(SetOf(squad))
    ensures XiProblems(Picked(squad, ids)) == []
  {
    var xi := Picked(squad, ids);
    assert |At(SetOf(squad), GKP)| == 2 && |At(SetOf(squad), DEF)| == 5 && |At(SetOf(squad), MID)| == 5 && |At(SetOf(squad), FWD)| == 3;
    assert Enough(SetOf(squad));
    assert |At(xi, Unlisted)| == 0;
    NoProblemsIffLegal(xi);
  }
}
