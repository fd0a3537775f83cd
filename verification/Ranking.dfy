/**
 Ranking model (server/src/analytics/ranking.js).

 The reference order `Above` says when one row of a tied group stands above another: walk the
 rule chain, keep only the rows that share every value so far, and let the first rule with data for
 that sub-group and different values decide; entryId decides when no rule does. `Separator` names
 that rule. Neither mentions buckets or sorting. The methods below are the source's bucket sort.
 */
module Ranking {
  import opened Wrappers
  import opened Sorting
  import opened TieBreakers

  /** What separated a row from the row above it; Nothing for the first row of a group. */
  datatype Decision = Nothing | ByRule(rule: Rule) | EntryIdFallback

  datatype Placed = Placed(row: Row, decidedBy: Decision)

  datatype Position = Position(entryId: int, resolvedPosition: nat, positionDecidedBy: Decision)

  // ---- reference order ----

  /** The rows that share value `v` of `rule`. */
  function Peers(g: set<Row>, rule: Rule, v: Option<int>): set<Row> {
    set r | r in g && Value(rule, r) == v
  }

  predicate Better(v: Option<int>, w: Option<int>) {
    v.Some? && w.Some? && v.value > w.value
  }

  predicate Above(a: Row, b: Row, g: set<Row>, rules: seq<Rule>, i: nat)
    decreases |rules| - i
  {
    if i >= |rules| then a.entryId < b.entryId
    else if !HasData(rules[i], g) then Above(a, b, g, rules, i + 1)
    else
      var v, w := Value(rules[i], a), Value(rules[i], b);
      if v != w then Better(v, w) else Above(a, b, Peers(g, rules[i], v), rules, i + 1)
  }

  function Separator(a: Row, b: Row, g: set<Row>, rules: seq<Rule>, i: nat): Decision
    decreases |rules| - i
  {
    if i >= |rules| then EntryIdFallback
    else if !HasData(rules[i], g) then Separator(a, b, g, rules, i + 1)
    else
      var v := Value(rules[i], a);
      if v != Value(rules[i], b) then ByRule(rules[i]) else Separator(a, b, Peers(g, rules[i], v), rules, i + 1)
  }

  function ScoreGroup(g: set<Row>, score: int): set<Row> {
    set r | r in g && r.score == score
  }

  /** The full order of a table: score first, then the chain within the score group. */
  predicate Ahead(a: Row, b: Row, g: set<Row>, chain: seq<Rule>) {
    a.score > b.score || (a.score == b.score && Above(a, b, ScoreGroup(g, a.score), chain, 0))
  }

  // ---- the reference order is a strict total order ----

  lemma {:induction false} AboveIsTotal(a: Row, b: Row, g: set<Row>, rules: seq<Rule>, i: nat)
    requires a in g && b in g && a.entryId != b.entryId
    ensures Above(a, b, g, rules, i) != Above(b, a, g, rules, i)
    decreases |rules| - i
  {
    if i < |rules| {
      if !HasData(rules[i], g) {
        AboveIsTotal(a, b, g, rules, i + 1);
      } else if Value(rules[i], a) == Value(rules[i], b) {
        AboveIsTotal(a, b, Peers(g, rules[i], Value(rules[i], a)), rules, i + 1);
      }
    }
  }

  lemma {:induction false} AboveIsTransitive(a: Row, b: Row, c: Row, g: set<Row>, rules: seq<Rule>, i: nat)
    requires a in g && b in g && c in g
    requires Above(a, b, g, rules, i) && Above(b, c, g, rules, i)
    ensures Above(a, c, g, rules, i)
    decreases |rules| - i
  {
    if i < |rules| {
      if !HasData(rules[i], g) {
        AboveIsTransitive(a, b, c, g, rules, i + 1);
      } else {
        var v := Value(rules[i], a);
        if v == Value(rules[i], b) == Value(rules[i], c) {
          AboveIsTransitive(a, b, c, Peers(g, rules[i], v), rules, i + 1);
        }
      }
    }
  }

  lemma {:induction false} AboveIsIrreflexive(a: Row, g: set<Row>, rules: seq<Rule>, i: nat)
    ensures !Above(a, a, g, rules, i)
    decreases |rules| - i
  {
    if i < |rules| {
      AboveIsIrreflexive(a, if HasData(rules[i], g) then Peers(g, rules[i], Value(rules[i], a)) else g, rules, i + 1);
    }
  }

  ghost predicate UniqueIds(g: set<Row>) {
    forall a, b | a in g && b in g && a.entryId == b.entryId :: a == b
  }

  lemma AheadIsStrictOrder(a: Row, b: Row, c: Row, g: set<Row>, chain: seq<Rule>)
    requires a in g && b in g && c in g && UniqueIds(g)
    ensures !Ahead(a, a, g, chain)
    ensures a != b ==> Ahead(a, b, g, chain) != Ahead(b, a, g, chain)
    ensures Ahead(a, b, g, chain) && Ahead(b, c, g, chain) ==> Ahead(a, c, g, chain)
  {
    var top := ScoreGroup(g, a.score);
    AboveIsIrreflexive(a, top, chain, 0);
    if a != b && a.score == b.score {
      AboveIsTotal(a, b, top, chain, 0);
    }
    if a.score == b.score == c.score && Above(a, b, top, chain, 0) && Above(b, c, top, chain, 0) {
      AboveIsTransitive(a, b, c, top, chain, 0);
    }
  }

  // ---- the reference arrangement ----

  ghost function InOrder(g: set<Row>, chain: seq<Rule>): (Row, Row) -> bool {
    (a, b) => a == b || Ahead(a, b, g, chain)
  }

  /** The table in the reference order: a plain comparator sort by `Ahead`. */
  ghost function Ranked(rows: seq<Row>, chain: seq<Rule>): seq<Row> {
    SortBy(rows, InOrder(SetOf(rows), chain))
  }

  /** `s` lists the rows of `g` strictly in the order `Ahead`. */
  ghost predicate Arranges(s: seq<Row>, g: set<Row>, chain: seq<Rule>) {
    && SetOf(s) == g
    && forall k, l | 0 <= k < l < |s| :: Ahead(s[k], s[l], g, chain)
  }

  lemma DistinctIdsAreUnique(rows: seq<Row>)
    requires DistinctIds(rows)
    ensures UniqueIds(SetOf(rows))
    ensures NoRepeats(rows) && multiset(rows) == multiset(SetOf(rows))
  {
    assert forall i, j | 0 <= i < j < |rows| :: IdOf()(rows[i]) != IdOf()(rows[j]);
    NoRepeatsCount(rows);
  }

  lemma InOrderOrders(rows: seq<Row>, chain: seq<Rule>)
    requires DistinctIds(rows)
    ensures Orders(rows, InOrder(SetOf(rows), chain)) && Separates(rows, InOrder(SetOf(rows), chain))
  {
    var g := SetOf(rows);
    DistinctIdsAreUnique(rows);
    forall a, b, c | a in rows && b in rows && c in rows
      ensures !Ahead(a, a, g, chain) && (a != b ==> Ahead(a, b, g, chain) != Ahead(b, a, g, chain))
      ensures Ahead(a, b, g, chain) && Ahead(b, c, g, chain) ==> Ahead(a, c, g, chain)
    {
      AheadIsStrictOrder(a, b, c, g, chain);
    }
  }

  lemma RankedArranges(rows: seq<Row>, chain: seq<Rule>)
    requires DistinctIds(rows)
    ensures Arranges(Ranked(rows, chain), SetOf(rows), chain)
    ensures multiset(Ranked(rows, chain)) == multiset(rows) && |Ranked(rows, chain)| == |rows|
    ensures DistinctIds(Ranked(rows, chain))
  {
    var g := SetOf(rows);
    var s := Ranked(rows, chain);
    InOrderOrders(rows, chain);
    SortBySorts(rows, InOrder(g, chain));
    SameMembers(s, rows);
    DistinctIdsAreUnique(rows);
    forall k, l | 0 <= k < l < |s| ensures Ahead(s[k], s[l], g, chain) && s[k].entryId != s[l].entryId {
      OnceEach(s, k, l);
      assert InOrder(g, chain)(s[k], s[l]);
      assert s[k] in g && s[l] in g;
    }
  }

  /** Any strict arrangement of the rows is the reference one. */
  lemma ArrangementIsRanked(s: seq<Row>, rows: seq<Row>, chain: seq<Rule>)
    requires DistinctIds(rows) && Arranges(s, SetOf(rows), chain)
    ensures s == Ranked(rows, chain)
  {
    var g := SetOf(rows);
    DistinctIdsAreUnique(rows);
    forall k, l | 0 <= k < l < |s| ensures s[k] != s[l] {
      assert s[k] in SetOf(s);
      AheadIsStrictOrder(s[k], s[k], s[k], g, chain);
    }
    NoRepeatsCount(s);
    InOrderOrders(rows, chain);
    SortOfSorted(rows, s, InOrder(g, chain));
  }

  /** The order of the input rows never matters. */
  lemma RankedIgnoresInputOrder(rows: seq<Row>, shuffled: seq<Row>, chain: seq<Rule>)
    requires DistinctIds(rows) && multiset(rows) == multiset(shuffled)
    ensures Ranked(rows, chain) == Ranked(shuffled, chain)
  {
    SameMembers(rows, shuffled);
    assert SetOf(rows) == SetOf(shuffled);
    InOrderOrders(rows, chain);
    SortByPermutation(rows, shuffled, InOrder(SetOf(rows), chain));
  }

  // ---- the bucket sort ----

  /** The rows of `group` with key `v`, in order: one bucket. */
  function WithKey(key: Row -> int, v: int, group: seq<Row>): seq<Row> {
    Filter(group, (r: Row) => key(r) == v)
  }

  /** A JavaScript Map from key to rows: its entries and their insertion order. */
  datatype Buckets = Buckets(keys: seq<int>, rows: map<int, seq<Row>>)

  /** One row goes to the end of its bucket; a new bucket goes to the end of the Map. */
  function AddRow(b: Buckets, v: int, row: Row): Buckets {
    if v in b.rows then Buckets(b.keys, b.rows[v := b.rows[v] + [row]])
    else Buckets(b.keys + [v], b.rows[v := [row]])
  }

  function BucketsOf(group: seq<Row>, key: Row -> int): Buckets {
    if group == [] then Buckets([], map[])
    else
      var last := group[|group| - 1];
      AddRow(BucketsOf(group[..|group| - 1], key), key(last), last)
  }

  /** Every key that occurs has its bucket, in input order, and only those do. */
  ghost predicate Bucketed(b: Buckets, group: seq<Row>, key: Row -> int) {
    && NoRepeats(b.keys)
    && (forall v :: v in b.keys <==> v in b.rows)
    && (forall v | v in b.rows :: b.rows[v] == WithKey(key, v, group) && b.rows[v] != [])
    && (forall v | v !in b.rows :: WithKey(key, v, group) == [])
  }

  lemma AddToBucket(b: Buckets, group: seq<Row>, key: Row -> int, row: Row)
    requires Bucketed(b, group, key)
    ensures Bucketed(AddRow(b, key(row), row), group + [row], key)
  {
    forall w ensures WithKey(key, w, group + [row]) == WithKey(key, w, group) + (if key(row) == w then [row] else []) {
      FilterOfAppend(group, row, (r: Row) => key(r) == w);
    }
  }

  lemma {:induction false} BucketsAreBucketed(group: seq<Row>, key: Row -> int)
    ensures Bucketed(BucketsOf(group, key), group, key)
  {
    if group != [] {
      var n := |group| - 1;
      assert group == group[..n] + [group[n]];
      BucketsAreBucketed(group[..n], key);
      AddToBucket(BucketsOf(group[..n], key), group[..n], key, group[n]);
    }
  }

  lemma RowHasBucket(r: Row, group: seq<Row>, key: Row -> int)
    requires r in group
    ensures key(r) in BucketsOf(group, key).keys
  {
    BucketsAreBucketed(group, key);
    assert r in WithKey(key, key(r), group);
  }

  method FillBuckets(group: seq<Row>, key: Row -> int) returns (b: Buckets)
    ensures b == BucketsOf(group, key)
  {
    b := Buckets([], map[]);
    for n := 0 to |group|
      invariant b == BucketsOf(group[..n], key)
    {
      var v := key(group[n]);
      assert group[..n + 1][..n] == group[..n];
      if v in b.rows {
        b := Buckets(b.keys, b.rows[v := b.rows[v] + [group[n]]]);
      } else {
        b := Buckets(b.keys + [v], b.rows[v := [group[n]]]);
      }
    }
    assert group[..|group|] == group;
  }

  ghost predicate Lists(out: seq<Placed>, part: set<Row>) {
    && (forall k | 0 <= k < |out| :: out[k].row in part)
    && (forall r | r in part :: exists k :: 0 <= k < |out| && out[k].row == r)
  }

  ghost predicate InChainOrder(out: seq<Placed>, g: set<Row>, rules: seq<Rule>, i: nat) {
    forall k, l | 0 <= k < l < |out| :: Above(out[k].row, out[l].row, g, rules, i)
  }

  ghost predicate Explained(out: seq<Placed>, g: set<Row>, rules: seq<Rule>, i: nat) {
    && (forall k | 0 < k < |out| :: out[k].decidedBy == Separator(out[k - 1].row, out[k].row, g, rules, i))
    && (out != [] ==> out[0].decidedBy == Nothing)
  }

  /** `out` places the rows `part` of the group `g`. */
  ghost predicate Resolved(out: seq<Placed>, part: set<Row>, g: set<Row>, rules: seq<Rule>, i: nat) {
    Lists(out, part) && InChainOrder(out, g, rules, i) && Explained(out, g, rules, i)
  }

  function Marked(sub: seq<Placed>, d: Decision): (r: seq<Placed>)
    requires sub != []
  {
    sub[0 := Placed(sub[0].row, d)]
  }

  lemma AppendLists(out: seq<Placed>, sub: seq<Placed>, part: set<Row>, bucket: set<Row>)
    requires Lists(out, part) && Lists(sub, bucket)
    ensures Lists(out + sub, part + bucket)
  {
    var all := out + sub;
    forall r | r in part + bucket ensures exists k :: 0 <= k < |all| && all[k].row == r {
      if r in part {
        var k :| 0 <= k < |out| && out[k].row == r;
        assert all[k].row == r;
      } else {
        var k :| 0 <= k < |sub| && sub[k].row == r;
        assert all[|out| + k].row == r;
      }
    }
  }

  lemma AppendOrder(out: seq<Placed>, sub: seq<Placed>, part: set<Row>, g: set<Row>, rules: seq<Rule>, i: nat, v: int)
    requires i < |rules| && HasData(rules[i], g)
    requires Lists(out, part) && part <= g && forall r | r in part :: Better(Value(rules[i], r), Some(v))
    requires InChainOrder(out, g, rules, i)
    requires Lists(sub, Peers(g, rules[i], Some(v))) && InChainOrder(sub, Peers(g, rules[i], Some(v)), rules, i + 1)
    ensures InChainOrder(out + sub, g, rules, i)
  {
  }

  lemma AppendExplained(out: seq<Placed>, sub: seq<Placed>, part: set<Row>, g: set<Row>, rules: seq<Rule>, i: nat, v: int)
    requires i < |rules| && HasData(rules[i], g) && out != [] && sub != []
    requires Lists(out, part) && forall r | r in part :: Better(Value(rules[i], r), Some(v))
    requires Explained(out, g, rules, i)
    requires Lists(sub, Peers(g, rules[i], Some(v))) && Explained(sub, Peers(g, rules[i], Some(v)), rules, i + 1)
    ensures Explained(out + Marked(sub, ByRule(rules[i])), g, rules, i)
  {
  }

  lemma FirstExplained(sub: seq<Placed>, g: set<Row>, rules: seq<Rule>, i: nat, v: int)
    requires i < |rules| && HasData(rules[i], g)
    requires Lists(sub, Peers(g, rules[i], Some(v))) && Explained(sub, Peers(g, rules[i], Some(v)), rules, i + 1)
    ensures Explained(sub, g, rules, i)
  {
  }

  /** Appending the next lower bucket, its first row marked with the rule, keeps the order. */
  lemma AppendBucket(out: seq<Placed>, sub: seq<Placed>, part: set<Row>, g: set<Row>, rules: seq<Rule>, i: nat, v: int)
    requires i < |rules| && HasData(rules[i], g) && part <= g && sub != []
    requires forall r | r in part :: Better(Value(rules[i], r), Some(v))
    requires Resolved(out, part, g, rules, i)
    requires Resolved(sub, Peers(g, rules[i], Some(v)), Peers(g, rules[i], Some(v)), rules, i + 1)
    ensures Resolved(out + (if out == [] then sub else Marked(sub, ByRule(rules[i]))),
                     part + Peers(g, rules[i], Some(v)), g, rules, i)
  {
    var bucket := Peers(g, rules[i], Some(v));
    var next := if out == [] then sub else Marked(sub, ByRule(rules[i]));
    assert |next| == |sub| && forall k | 0 <= k < |sub| :: next[k].row == sub[k].row;
    AppendLists(out, next, part, bucket);
    AppendOrder(out, next, part, g, rules, i, v);
    if out == [] {
      FirstExplained(sub, g, rules, i, v);
      assert out + sub == sub;
    } else {
      AppendExplained(out, sub, part, g, rules, i, v);
    }
  }

  lemma SkipRule(out: seq<Placed>, g: set<Row>, rules: seq<Rule>, i: nat)
    requires i < |rules| && !HasData(rules[i], g) && Resolved(out, g, g, rules, i + 1)
    ensures Resolved(out, g, g, rules, i)
  {
  }

  /** The chain is exhausted: entryId orders the group, and never explains more than that. */
  method ByEntryId(group: seq<Row>, ghost rules: seq<Rule>, ghost i: nat) returns (out: seq<Placed>)
    requires DistinctIds(group) && i >= |rules|
    ensures |out| == |group| && Resolved(out, SetOf(group), SetOf(group), rules, i)
  {
    var sorted := SortByKey(group, IdOf());
    SortByKeyIsStrict(group, IdOf());
    out := seq(|sorted|, k requires 0 <= k < |sorted| => Placed(sorted[k], if k == 0 then Nothing else EntryIdFallback));
    forall k | 0 <= k < |out| ensures out[k].row in SetOf(group) {
      assert sorted[k] in sorted;
    }
    forall r | r in SetOf(group) ensures exists k :: 0 <= k < |out| && out[k].row == r {
      assert r in sorted;
      var k :| 0 <= k < |sorted| && sorted[k] == r;
      assert out[k].row == r;
    }
  }

  /** resolveGroup: bucket by the first rule with data, largest value first, and recurse into each bucket. */
  method ResolveGroup(group: seq<Row>, rules: seq<Rule>, i: nat) returns (out: seq<Placed>)
    requires DistinctIds(group) && Shared !in rules
    ensures |out| == |group|
    ensures Resolved(out, SetOf(group), SetOf(group), rules, i)
    decreases |rules| - i, 1
  {
    if |group| == 1 {
      out := [Placed(group[0], Nothing)];
      return;
    }
    if i >= |rules| {
      out := ByEntryId(group, rules, i);
      return;
    }
    var rule := rules[i];
    if !HasData(rule, SetOf(group)) {
      out := ResolveGroup(group, rules, i + 1);
      SkipRule(out, SetOf(group), rules, i);
      return;
    }
    out := ResolveBuckets(group, rules, i);
  }

  /** One pass over the buckets of rule i, largest value first. */
  method ResolveBuckets(group: seq<Row>, rules: seq<Rule>, i: nat) returns (out: seq<Placed>)
    requires DistinctIds(group) && Shared !in rules && i < |rules| && HasData(rules[i], SetOf(group))
    ensures |out| == |group|
    ensures Resolved(out, SetOf(group), SetOf(group), rules, i)
    decreases |rules| - i, 0
  {
    var rule := rules[i];
    ghost var g := SetOf(group);
    var key := (r: Row) => Value(rule, r).GetOr(0);
    var buckets := FillBuckets(group, key);
    var values := Descending(buckets.keys);
    BucketFacts(group, key, values);
    out := [];
    for k := 0 to |values|
      invariant Resolved(out, Higher(g, key, values[..k]), g, rules, i)
    {
      var v := values[k];
      BucketIsPeers(buckets.rows[v], group, rule, v);
      var sub := ResolveGroup(buckets.rows[v], rules, i + 1);
      NextBucket(out, sub, g, rules, i, key, values, k);
      if |out| > 0 {
        sub := Marked(sub, ByRule(rule));
      }
      out := out + sub;
    }
    assert values[..|values|] == values;
    assert Higher(g, key, values) == g;
    SizeOfResolved(out, group, rules, i);
  }

  /** What the loops over `[...buckets.keys()].sort((a, b) => b - a)` need. */
  lemma BucketFacts(group: seq<Row>, key: Row -> int, values: seq<int>)
    requires values == Descending(BucketsOf(group, key).keys)
    ensures forall i, j | 0 <= i < j < |values| :: values[i] > values[j]
    ensures forall k | 0 <= k < |values| :: values[k] in BucketsOf(group, key).rows
    ensures forall v | v in BucketsOf(group, key).rows ::
      BucketsOf(group, key).rows[v] == WithKey(key, v, group) && BucketsOf(group, key).rows[v] != []
    ensures forall r | r in group :: key(r) in values
  {
    BucketsAreBucketed(group, key);
    DescendingSorts(BucketsOf(group, key).keys);
    forall k | 0 <= k < |values| ensures values[k] in BucketsOf(group, key).rows {
      assert values[k] in values;
    }
    forall r | r in group ensures key(r) in values {
      RowHasBucket(r, group, key);
    }
  }

  lemma BucketIsPeers(bucket: seq<Row>, group: seq<Row>, rule: Rule, v: int)
    requires HasData(rule, SetOf(group)) && bucket == WithKey((r: Row) => Value(rule, r).GetOr(0), v, group)
    requires DistinctIds(group)
    ensures SetOf(bucket) == Peers(SetOf(group), rule, Some(v))
    ensures DistinctIds(bucket)
  {
    var key := (r: Row) => Value(rule, r).GetOr(0);
    FilterKeepsDistinct(group, (r: Row) => key(r) == v, IdOf());
    forall r | r in group ensures key(r) == v <==> Value(rule, r) == Some(v) {
      assert r in SetOf(group);
    }
  }

  lemma NextBucket(out: seq<Placed>, sub: seq<Placed>, g: set<Row>, rules: seq<Rule>, i: nat, key: Row -> int, values: seq<int>, k: nat)
    requires i < |rules| && HasData(rules[i], g) && k < |values| && sub != []
    requires forall m | 0 <= m < k :: values[m] > values[k]
    requires forall r | r in g :: Value(rules[i], r) == Some(key(r))
    requires Resolved(out, Higher(g, key, values[..k]), g, rules, i)
    requires Resolved(sub, Peers(g, rules[i], Some(values[k])), Peers(g, rules[i], Some(values[k])), rules, i + 1)
    ensures Resolved(out + (if out == [] then sub else Marked(sub, ByRule(rules[i]))),
                     Higher(g, key, values[..k + 1]), g, rules, i)
  {
    var v := values[k];
    forall r | r in Higher(g, key, values[..k]) ensures Better(Value(rules[i], r), Some(v)) {
      assert key(r) in values[..k];
    }
    AppendBucket(out, sub, Higher(g, key, values[..k]), g, rules, i, v);
    assert values[..k + 1] == values[..k] + [v];
    assert Higher(g, key, values[..k]) + Peers(g, rules[i], Some(v)) == Higher(g, key, values[..k + 1]);
  }

  ghost function Higher(g: set<Row>, key: Row -> int, values: seq<int>): set<Row> {
    set r | r in g && key(r) in values
  }

  lemma SizeOfResolved(out: seq<Placed>, group: seq<Row>, rules: seq<Rule>, i: nat)
    requires DistinctIds(group) && Resolved(out, SetOf(group), SetOf(group), rules, i)
    ensures |out| == |group|
  {
    var rows := seq(|out|, k requires 0 <= k < |out| => out[k].row);
    assert SetOf(rows) == SetOf(group) by {
      forall r | r in SetOf(group) ensures r in rows {
        var k :| 0 <= k < |out| && out[k].row == r;
        assert rows[k] == r;
      }
    }
    forall k, l | 0 <= k < l < |rows| ensures rows[k] != rows[l] {
      AboveIsIrreflexive(rows[k], SetOf(group), rules, i);
    }
    NoRepeatsCount(rows);
    NoRepeatsCount(group);
  }

  // ---- the whole table ----

  /** rules.filter(r => r !== SHARED) */
  function ChainOf(rules: seq<Rule>): (chain: seq<Rule>)
    ensures Shared !in chain
  {
    if rules == [] then []
    else (if rules[0] == Shared then [] else [rules[0]]) + ChainOf(rules[1..])
  }

  /** What positionDecidedBy must say of row k of an ordered table. */
  function Explanation(a: Row, b: Row, g: set<Row>, chain: seq<Rule>): Decision {
    if a.score != b.score then Nothing else Separator(a, b, ScoreGroup(g, b.score), chain, 0)
  }

  ghost function PositionAt(order: seq<Row>, k: nat, g: set<Row>, chain: seq<Rule>): Position
    requires k < |order|
  {
    Position(order[k].entryId, k + 1, if k == 0 then Nothing else Explanation(order[k - 1], order[k], g, chain))
  }

  ghost predicate Tabled(out: seq<Placed>, part: set<Row>, g: set<Row>, chain: seq<Rule>) {
    && Lists(out, part)
    && (forall k, l | 0 <= k < l < |out| :: Ahead(out[k].row, out[l].row, g, chain))
    && (forall k | 0 < k < |out| :: out[k].decidedBy == Explanation(out[k - 1].row, out[k].row, g, chain))
    && (out != [] ==> out[0].decidedBy == Nothing)
  }

  ghost function ScoresIn(g: set<Row>, scores: seq<int>): set<Row> {
    set r | r in g && r.score in scores
  }

  lemma AppendScoreOrder(out: seq<Placed>, sub: seq<Placed>, part: set<Row>, score: int, g: set<Row>, chain: seq<Rule>)
    requires Lists(out, part) && forall r | r in part :: r.score > score
    requires forall k, l | 0 <= k < l < |out| :: Ahead(out[k].row, out[l].row, g, chain)
    requires Lists(sub, ScoreGroup(g, score)) && InChainOrder(sub, ScoreGroup(g, score), chain, 0)
    ensures forall k, l | 0 <= k < l < |out + sub| :: Ahead((out + sub)[k].row, (out + sub)[l].row, g, chain)
  {
  }

  lemma AppendScoreExplained(out: seq<Placed>, sub: seq<Placed>, part: set<Row>, score: int, g: set<Row>, chain: seq<Rule>)
    requires Lists(out, part) && forall r | r in part :: r.score > score
    requires forall k | 0 < k < |out| :: out[k].decidedBy == Explanation(out[k - 1].row, out[k].row, g, chain)
    requires Lists(sub, ScoreGroup(g, score)) && Explained(sub, ScoreGroup(g, score), chain, 0)
    ensures forall k | 0 < k < |out + sub| ::
      (out + sub)[k].decidedBy == Explanation((out + sub)[k - 1].row, (out + sub)[k].row, g, chain)
  {
  }

  lemma AppendScoreGroup(out: seq<Placed>, sub: seq<Placed>, g: set<Row>, chain: seq<Rule>, scores: seq<int>, k: nat)
    requires k < |scores| && sub != [] && forall m | 0 <= m < k :: scores[m] > scores[k]
    requires Tabled(out, ScoresIn(g, scores[..k]), g, chain)
    requires Resolved(sub, ScoreGroup(g, scores[k]), ScoreGroup(g, scores[k]), chain, 0)
    ensures Tabled(out + sub, ScoresIn(g, scores[..k + 1]), g, chain)
  {
    var part := ScoresIn(g, scores[..k]);
    assert forall r | r in part :: r.score > scores[k];
    AppendLists(out, sub, part, ScoreGroup(g, scores[k]));
    AppendScoreOrder(out, sub, part, scores[k], g, chain);
    AppendScoreExplained(out, sub, part, scores[k], g, chain);
    assert scores[..k + 1] == scores[..k] + [scores[k]];
    assert part + ScoreGroup(g, scores[k]) == ScoresIn(g, scores[..k + 1]);
  }

  /** The score groups, highest first, each resolved by the chain. */
  method ResolveScores(rows: seq<Row>, chain: seq<Rule>) returns (ordered: seq<Placed>)
    requires DistinctIds(rows) && Shared !in chain
    ensures Tabled(ordered, SetOf(rows), SetOf(rows), chain)
  {
    ghost var g := SetOf(rows);
    var key := (r: Row) => r.score;
    var byScore := FillBuckets(rows, key);
    var scores := Descending(byScore.keys);
    BucketFacts(rows, key, scores);
    ordered := [];
    for k := 0 to |scores|
      invariant Tabled(ordered, ScoresIn(g, scores[..k]), g, chain)
    {
      var bucket := byScore.rows[scores[k]];
      BucketIsScoreGroup(bucket, rows, scores[k]);
      var group := ResolveGroup(bucket, chain, 0);
      AppendScoreGroup(ordered, group, g, chain, scores, k);
      ordered := ordered + group;
    }
    assert scores[..|scores|] == scores;
    assert ScoresIn(g, scores) == g;
  }

  /** resolvePositions: the table in the reference order, numbered from 1, every row explained. */
  method ResolvePositions(rows: seq<Row>, rules: seq<Rule>) returns (out: seq<Position>)
    requires DistinctIds(rows)
    ensures |out| == |rows| == |Ranked(rows, ChainOf(rules))|
    ensures forall k | 0 <= k < |out| ::
      out[k] == PositionAt(Ranked(rows, ChainOf(rules)), k, SetOf(rows), ChainOf(rules))
  {
    var ordered := ResolveScores(rows, ChainOf(rules));
    TabledIsRanked(ordered, rows, ChainOf(rules));
    out := Numbered(ordered);
  }

  function Numbered(ordered: seq<Placed>): (out: seq<Position>)
    ensures |out| == |ordered|
    ensures forall k | 0 <= k < |out| :: out[k] == Position(ordered[k].row.entryId, k + 1, ordered[k].decidedBy)
  {
    seq(|ordered|, k requires 0 <= k < |ordered| => Position(ordered[k].row.entryId, k + 1, ordered[k].decidedBy))
  }

  lemma BucketIsScoreGroup(bucket: seq<Row>, rows: seq<Row>, score: int)
    requires bucket == WithKey((r: Row) => r.score, score, rows)
    requires DistinctIds(rows)
    ensures SetOf(bucket) == ScoreGroup(SetOf(rows), score)
    ensures DistinctIds(bucket)
  {
    var key := (r: Row) => r.score;
    FilterKeepsDistinct(rows, (r: Row) => key(r) == score, IdOf());
  }

  lemma TabledIsRanked(ordered: seq<Placed>, rows: seq<Row>, chain: seq<Rule>)
    requires DistinctIds(rows) && Tabled(ordered, SetOf(rows), SetOf(rows), chain)
    ensures |ordered| == |Ranked(rows, chain)| == |rows|
    ensures forall k | 0 <= k < |ordered| :: ordered[k].row == Ranked(rows, chain)[k]
  {
    var order := seq(|ordered|, k requires 0 <= k < |ordered| => ordered[k].row);
    assert SetOf(order) == SetOf(rows) by {
      forall r | r in SetOf(rows) ensures r in order {
        var k :| 0 <= k < |ordered| && ordered[k].row == r;
        assert order[k] == r;
      }
    }
    ArrangementIsRanked(order, rows, chain);
  }

  // ---- competition ranks ----

  /** scores.filter(o => o.score > s.score) */
  function HigherScores(rows: seq<Row>, score: int): seq<Row> {
    Filter(rows, (o: Row) => o.score > score)
  }

  method CompetitionRanks(scores: seq<Row>) returns (ranks: map<int, nat>)
    requires DistinctIds(scores)
    ensures forall id :: id in ranks <==> exists r | r in scores :: r.entryId == id
    ensures forall r | r in scores :: ranks[r.entryId] == 1 + |HigherScores(scores, r.score)|
  {
    ranks := map[];
    for n := 0 to |scores|
      invariant forall id :: id in ranks <==> exists r | r in scores[..n] :: r.entryId == id
      invariant forall k | 0 <= k < n :: scores[k] in scores[..n]
      invariant forall r | r in scores[..n] :: ranks[r.entryId] == 1 + |HigherScores(scores, r.score)|
    {
      var s := scores[n];
      assert scores[..n + 1] == scores[..n] + [s];
      ranks := ranks[s.entryId := 1 + |HigherScores(scores, s.score)|];
    }
    assert scores[..|scores|] == scores;
  }

  /** Scores never rise down the table. */
  lemma ScoresDescend(rows: seq<Row>, chain: seq<Rule>)
    requires DistinctIds(rows)
    ensures forall m, n | 0 <= m <= n < |Ranked(rows, chain)| :: Ranked(rows, chain)[m].score >= Ranked(rows, chain)[n].score
  {
    RankedArranges(rows, chain);
    var order := Ranked(rows, chain);
    forall m, n | 0 <= m < n < |order| ensures order[m].score >= order[n].score {
      assert Ahead(order[m], order[n], SetOf(rows), chain);
    }
  }

  /** A row's competition rank is the first position its score group takes in the resolved table. */
  lemma CompetitionRankIsFirstOfScoreGroup(rows: seq<Row>, chain: seq<Rule>, j: nat, k: nat)
    requires DistinctIds(rows) && j <= k < |Ranked(rows, chain)|
    requires Ranked(rows, chain)[j].score == Ranked(rows, chain)[k].score
    requires j == 0 || Ranked(rows, chain)[j - 1].score != Ranked(rows, chain)[k].score
    ensures 1 + |HigherScores(rows, Ranked(rows, chain)[k].score)| == j + 1
  {
    var order := Ranked(rows, chain);
    RankedArranges(rows, chain);
    SameMembers(order, rows);
    ScoresDescend(rows, chain);
    CountHigher(rows, order, order[k].score, j);
  }

  lemma CountHigher(rows: seq<Row>, order: seq<Row>, score: int, j: nat)
    requires DistinctIds(rows) && DistinctIds(order) && forall r :: r in rows <==> r in order
    requires j <= |order|
    requires forall m | 0 <= m < j :: order[m].score > score
    requires forall m | j <= m < |order| :: order[m].score <= score
    ensures |HigherScores(rows, score)| == j
  {
    var higher := HigherScores(rows, score);
    FilterKeepsDistinct(rows, (o: Row) => o.score > score, IdOf());
    DistinctIdsAreUnique(higher);
    DistinctIdsAreUnique(order[..j]);
    NoRepeatsCount(higher);
    NoRepeatsCount(order[..j]);
    assert SetOf(higher) == SetOf(order[..j]);
  }
}
