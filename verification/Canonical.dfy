/**
 Canonical values (server/src/utils/canonical.js). The canonical form keeps what JSON.stringify would
 print, with members in key order; `Meaning` is the JSON value itself, in which members have no order.
 An own member named __proto__ is read and then lost: the assignment to `out` sets its prototype.
 */
module Canonical {
  import opened Sorting

  /** A JavaScript value; the members of an object and the entries of a Map are in insertion order. */
  datatype Value =
    | Undefined
    | Null
    | Bool(b: bool)
    | Number(n: real)
    | NonFinite
    | Text(s: string)
    | Date(iso: string)
    | InvalidDate
    | Arr(items: seq<Value>)
    | Obj(members: seq<(string, Value)>)
    | MapOf(members: seq<(string, Value)>)
    | Unsupported

  datatype Canon = CNull | CBool(b: bool) | CNumber(n: real) | CText(s: string) | CArr(items: seq<Canon>) | CObj(members: seq<(string, Canon)>)

  datatype Json = JNull | JBool(b: bool) | JNumber(n: real) | JText(s: string) | JArr(items: seq<Json>) | JObj(members: map<string, Json>)

  predicate DistinctNames<T>(members: seq<(string, T)>) {
    forall i, j | 0 <= i < j < |members| :: members[i].0 != members[j].0
  }

  /** What canonicalize accepts; it throws on anything else. An object has each name once. */
  predicate Canonicalizable(v: Value) {
    match v
    case Undefined => false
    case NonFinite => false
    case InvalidDate => false
    case Unsupported => false
    case Arr(items) => forall i | 0 <= i < |items| :: items[i] == Undefined || Canonicalizable(items[i])
    case Obj(members) => DistinctNames(members) && forall i | 0 <= i < |members| :: members[i].1 == Undefined || Canonicalizable(members[i].1)
    case MapOf(members) => DistinctNames(members) && forall i | 0 <= i < |members| :: members[i].1 == Undefined || Canonicalizable(members[i].1)
    case _ => true
  }

  // ---- names in order ----

  /** The order of Array.prototype.sort on strings; every name of this program is ASCII. */
  predicate NameLe(a: string, b: string) {
    a == "" || (b != "" && (a[0] < b[0] || (a[0] == b[0] && NameLe(a[1..], b[1..]))))
  }

  lemma {:induction false} NameLeIsTotal(a: string, b: string)
    ensures NameLe(a, b) || NameLe(b, a)
    ensures NameLe(a, b) && NameLe(b, a) ==> a == b
  {
    if a != "" && b != "" && a[0] == b[0] {
      NameLeIsTotal(a[1..], b[1..]);
      assert a == [a[0]] + a[1..] && b == [b[0]] + b[1..];
    }
  }

  lemma {:induction false} NameLeIsTransitive(a: string, b: string, c: string)
    requires NameLe(a, b) && NameLe(b, c)
    ensures NameLe(a, c)
  {
    if a != "" && b != "" && c != "" && a[0] == b[0] == c[0] {
      NameLeIsTransitive(a[1..], b[1..], c[1..]);
    }
  }

  function ByName<T>(): ((string, T), (string, T)) -> bool {
    (a: (string, T), b: (string, T)) => NameLe(a.0, b.0)
  }

  /** Object.keys(value).sort(), with the values. */
  function SortMembers<T>(members: seq<(string, T)>): (r: seq<(string, T)>)
    ensures multiset(r) == multiset(members) && |r| == |members|
    ensures forall k | 0 <= k < |r| :: r[k] in members
  {
    var r := SortBy(members, ByName());
    assert forall k | 0 <= k < |r| :: r[k] in multiset(r);
    r
  }

  predicate NamesRise<T>(members: seq<(string, T)>) {
    forall i, j | 0 <= i < j < |members| :: members[i].0 != members[j].0 && NameLe(members[i].0, members[j].0)
  }

  lemma SortedMembersRise<T(!new)>(members: seq<(string, T)>)
    requires DistinctNames(members)
    ensures NamesRise(SortMembers(members))
  {
    var r := SortMembers(members);
    forall x, y | x in members && y in members ensures ByName<T>()(x, y) || ByName<T>()(y, x) {
      NameLeIsTotal(x.0, y.0);
    }
    forall x, y, z | x in members && y in members && z in members && ByName<T>()(x, y) && ByName<T>()(y, z) ensures ByName<T>()(x, z) {
      NameLeIsTransitive(x.0, y.0, z.0);
    }
    SortBySorts(members, ByName());
    SameMembers(r, members);
    NoRepeatsPermutation(members, r);
    forall i, j | 0 <= i < j < |r| ensures r[i].0 != r[j].0 && NameLe(r[i].0, r[j].0) {
      assert ByName<T>()(r[i], r[j]);
      assert r[i] in members && r[j] in members && r[i] != r[j];
    }
  }

  // ---- canonicalize ----

  const PROTO: string := "__proto__"

  /** The members that are not undefined; without `all`, also without the one that is lost. */
  function Listed(members: seq<(string, Value)>, all: bool): (r: seq<(string, Value)>)
    ensures forall k | 0 <= k < |r| :: r[k] in members && r[k].1 != Undefined && (all || r[k].0 != PROTO)
  {
    var r := Filter(members, (m: (string, Value)) => m.1 != Undefined && (all || m.0 != PROTO));
    assert forall k | 0 <= k < |r| :: r[k] in r;
    r
  }

  lemma ListedIsDistinct(members: seq<(string, Value)>, all: bool)
    requires DistinctNames(members)
    ensures DistinctNames(Listed(members, all))
  {
    var at := FilterKeepsOrder(members, (m: (string, Value)) => m.1 != Undefined && (all || m.0 != PROTO));
    forall i, j | 0 <= i < j < |at| ensures Listed(members, all)[i].0 != Listed(members, all)[j].0 {
      assert at[i] < at[j];
    }
  }

  lemma ListedRises(members: seq<(string, Value)>, all: bool)
    requires NamesRise(members)
    ensures NamesRise(Listed(members, all))
  {
    var at := FilterKeepsOrder(members, (m: (string, Value)) => m.1 != Undefined && (all || m.0 != PROTO));
    forall i, j | 0 <= i < j < |at|
      ensures Listed(members, all)[i].0 != Listed(members, all)[j].0 && NameLe(Listed(members, all)[i].0, Listed(members, all)[j].0)
    {
      assert at[i] < at[j];
    }
  }

  /** Members of v, each undefined or canonicalizable. */
  ghost predicate Parts(v: Value, members: seq<(string, Value)>) {
    forall k | 0 <= k < |members| :: members[k].1 < v && (members[k].1 == Undefined || Canonicalizable(members[k].1))
  }

  lemma SortedParts(v: Value, members: seq<(string, Value)>)
    requires Parts(v, members)
    ensures Parts(v, SortMembers(members))
  {
  }

  function Canonicalize(v: Value): Canon
    requires Canonicalizable(v)
    decreases v
  {
    match v
    case Null => CNull
    case Bool(b) => CBool(b)
    case Number(n) => CNumber(n)
    case Text(s) => CText(s)
    case Date(iso) => CText(iso)
    case Arr(items) => CArr(seq(|items|, i requires 0 <= i < |items| => if items[i] == Undefined then CNull else Canonicalize(items[i])))
    case Obj(members) => CObj(CanonMembers(v, Listed(SortMembers(members), false)))
    case MapOf(members) => CObj(CanonMembers(v, Listed(SortMembers(members), false)))
  }

  function CanonMembers(v: Value, defined: seq<(string, Value)>): (r: seq<(string, Canon)>)
    requires forall k | 0 <= k < |defined| :: defined[k].1 < v && Canonicalizable(defined[k].1)
    ensures |r| == |defined| && forall k | 0 <= k < |r| :: r[k].0 == defined[k].0
    decreases v, 0
  {
    seq(|defined|, k requires 0 <= k < |defined| => (defined[k].0, Canonicalize(defined[k].1)))
  }

  /** canonicalize, with its loops. */
  method CanonicalizeValue(v: Value) returns (c: Canon)
    requires Canonicalizable(v)
    ensures c == Canonicalize(v)
    decreases v, 1
  {
    match v
    case Null => c := CNull;
    case Bool(b) => c := CBool(b);
    case Number(n) => c := CNumber(n);
    case Text(s) => c := CText(s);
    case Date(iso) => c := CText(iso);
    case Arr(items) =>
      var out := CanonicalizeItems(v, items);
      c := CArr(out);
    case Obj(members) =>
      var out := CanonicalizeMembers(v, Listed(SortMembers(members), false));
      c := CObj(out);
    case MapOf(members) =>
      var out := CanonicalizeMembers(v, Listed(SortMembers(members), false));
      c := CObj(out);
  }

  method CanonicalizeItems(v: Value, items: seq<Value>) returns (out: seq<Canon>)
    requires forall i | 0 <= i < |items| :: items[i] < v && (items[i] == Undefined || Canonicalizable(items[i]))
    ensures |out| == |items|
    ensures forall k | 0 <= k < |items| :: out[k] == if items[k] == Undefined then CNull else Canonicalize(items[k])
    decreases v, 0
  {
    out := [];
    for i := 0 to |items|
      invariant |out| == i && forall k | 0 <= k < i :: out[k] == if items[k] == Undefined then CNull else Canonicalize(items[k])
    {
      var item := CNull;
      if items[i] != Undefined {
        item := CanonicalizeValue(items[i]);
      }
      out := out + [item];
    }
  }

  /** The key loop, over the keys that leave something in `out`. */
  method CanonicalizeMembers(v: Value, defined: seq<(string, Value)>) returns (out: seq<(string, Canon)>)
    requires forall k | 0 <= k < |defined| :: defined[k].1 < v && Canonicalizable(defined[k].1)
    ensures out == CanonMembers(v, defined)
    decreases v, 0
  {
    out := [];
    for i := 0 to |defined|
      invariant |out| == i && forall k | 0 <= k < i :: out[k] == (defined[k].0, Canonicalize(defined[k].1))
    {
      var c := CanonicalizeValue(defined[i].1);
      out := out + [(defined[i].0, c)];
    }
  }

  // ---- what it means ----

  /** The object with these members. */
  function Table(members: seq<(string, Json)>): map<string, Json> {
    if members == [] then map[]
    else
      var n := |members| - 1;
      Table(members[..n])[members[n].0 := members[n].1]
  }

  /** The JSON value of a JavaScript value, members unordered; without `all`, what canonicalize leaves of it. */
  function MeaningOf(v: Value, all: bool): Json
    requires Canonicalizable(v)
    decreases v
  {
    match v
    case Null => JNull
    case Bool(b) => JBool(b)
    case Number(n) => JNumber(n)
    case Text(s) => JText(s)
    case Date(iso) => JText(iso)
    case Arr(items) => JArr(seq(|items|, i requires 0 <= i < |items| => if items[i] == Undefined then JNull else MeaningOf(items[i], all)))
    case Obj(members) => JObj(Table(Meanings(v, Listed(members, all), all)))
    case MapOf(members) => JObj(Table(Meanings(v, Listed(members, all), all)))
  }

  function Meanings(v: Value, listed: seq<(string, Value)>, all: bool): (r: seq<(string, Json)>)
    requires forall k | 0 <= k < |listed| :: listed[k].1 < v && Canonicalizable(listed[k].1)
    ensures |r| == |listed| && forall k | 0 <= k < |r| :: r[k] == (listed[k].0, MeaningOf(listed[k].1, all))
    decreases v, 0
  {
    seq(|listed|, k requires 0 <= k < |listed| => (listed[k].0, MeaningOf(listed[k].1, all)))
  }

  function Meaning(v: Value): Json
    requires Canonicalizable(v)
  {
    MeaningOf(v, true)
  }

  /** The JSON value a canonical text stands for. */
  function Read(c: Canon): Json {
    match c
    case CNull => JNull
    case CBool(b) => JBool(b)
    case CNumber(n) => JNumber(n)
    case CText(s) => JText(s)
    case CArr(items) => JArr(seq(|items|, i requires 0 <= i < |items| => Read(items[i])))
    case CObj(members) => JObj(Table(seq(|members|, i requires 0 <= i < |members| => (members[i].0, Read(members[i].1)))))
  }

  function ReadMember(): ((string, Canon)) -> (string, Json) {
    (m: (string, Canon)) => (m.0, Read(m.1))
  }

  lemma {:induction false} TableHolds(members: seq<(string, Json)>, name: string, value: Json)
    requires DistinctNames(members)
    ensures name in Table(members) && Table(members)[name] == value <==> (name, value) in members
  {
    if members != [] {
      var n := |members| - 1;
      TableHolds(members[..n], name, value);
      assert members == members[..n] + [members[n]];
      if (name, value) in members[..n] {
        assert name != members[n].0;
      }
    }
  }

  lemma TablesAgree(a: seq<(string, Json)>, b: seq<(string, Json)>)
    requires DistinctNames(a) && DistinctNames(b)
    ensures Table(a) == Table(b) <==> forall m :: m in a <==> m in b
  {
    if Table(a) == Table(b) {
      forall m ensures m in a <==> m in b {
        TableHolds(a, m.0, m.1);
        TableHolds(b, m.0, m.1);
      }
    }
    if forall m :: m in a <==> m in b {
      forall name | name in Table(a) ensures name in Table(b) && Table(b)[name] == Table(a)[name] {
        TableHolds(a, name, Table(a)[name]);
        TableHolds(b, name, Table(a)[name]);
      }
      forall name | name in Table(b) ensures name in Table(a) {
        TableHolds(b, name, Table(b)[name]);
        TableHolds(a, name, Table(b)[name]);
      }
    }
  }

  /** Reading the canonical form gives what canonicalize leaves of the value. */
  lemma {:induction false} FormReadsAsShown(v: Value)
    requires Canonicalizable(v)
    ensures Read(Canonicalize(v)) == MeaningOf(v, false)
    decreases v
  {
    match v
    case Arr(items) =>
      forall i | 0 <= i < |items| && items[i] != Undefined ensures Read(Canonicalize(items[i])) == MeaningOf(items[i], false) {
        FormReadsAsShown(items[i]);
      }
    case Obj(members) => MembersReadBack(v, members);
    case MapOf(members) => MembersReadBack(v, members);
    case _ =>
  }

  lemma {:induction false} MembersReadBack(v: Value, members: seq<(string, Value)>)
    requires DistinctNames(members)
    requires Parts(v, members)
    ensures Parts(v, SortMembers(members))
    ensures Read(CObj(CanonMembers(v, Listed(SortMembers(members), false)))) == JObj(Table(Meanings(v, Listed(members, false), false)))
    decreases v, 1
  {
    SortedParts(v, members);
    PartsReadBack(v, Listed(SortMembers(members), false));
    SortedMeaningsAgree(v, members);
  }

  lemma {:induction false} PartsReadBack(v: Value, listed: seq<(string, Value)>)
    requires forall k | 0 <= k < |listed| :: listed[k].1 < v && Canonicalizable(listed[k].1)
    ensures Read(CObj(CanonMembers(v, listed))) == JObj(Table(Meanings(v, listed, false)))
    decreases v, 0
  {
    var canon := CanonMembers(v, listed);
    forall k | 0 <= k < |canon| ensures ReadMember()(canon[k]) == Meanings(v, listed, false)[k] {
      FormReadsAsShown(listed[k].1);
    }
    assert Map(canon, ReadMember()) == Meanings(v, listed, false);
    assert Map(canon, ReadMember()) == seq(|canon|, i requires 0 <= i < |canon| => (canon[i].0, Read(canon[i].1)));
  }

  /** The order of the members does not change the object they make. */
  lemma SortedMeaningsAgree(v: Value, members: seq<(string, Value)>)
    requires DistinctNames(members)
    requires Parts(v, members)
    ensures Table(Meanings(v, Listed(SortMembers(members), false), false)) == Table(Meanings(v, Listed(members, false), false))
  {
    var sorted := SortMembers(members);
    SortedMembersRise(members);
    ListedIsDistinct(members, false);
    ListedIsDistinct(sorted, false);
    SameMembers(sorted, members);
    MeaningsIncluded(v, Listed(sorted, false), Listed(members, false));
    MeaningsIncluded(v, Listed(members, false), Listed(sorted, false));
    TablesAgree(Meanings(v, Listed(sorted, false), false), Meanings(v, Listed(members, false), false));
  }

  lemma MeaningsIncluded(v: Value, a: seq<(string, Value)>, b: seq<(string, Value)>)
    requires forall k | 0 <= k < |a| :: a[k].1 < v && Canonicalizable(a[k].1)
    requires forall k | 0 <= k < |b| :: b[k].1 < v && Canonicalizable(b[k].1)
    requires forall x | x in a :: x in b
    ensures forall m | m in Meanings(v, a, false) :: m in Meanings(v, b, false)
  {
    forall m | m in Meanings(v, a, false) ensures m in Meanings(v, b, false) {
      var k :| 0 <= k < |a| && Meanings(v, a, false)[k] == m;
      assert a[k] in b;
      var j :| 0 <= j < |b| && b[j] == a[k];
      assert Meanings(v, b, false)[j] == m;
    }
  }

  // ---- the lost member ----

  /** No object in the value has a defined member named __proto__, at any depth. */
  predicate ProtoFree(v: Value) {
    match v
    case Arr(items) => forall i | 0 <= i < |items| && items[i] != Undefined :: ProtoFree(items[i])
    case Obj(members) => forall i | 0 <= i < |members| && members[i].1 != Undefined :: members[i].0 != PROTO && ProtoFree(members[i].1)
    case MapOf(members) => forall i | 0 <= i < |members| && members[i].1 != Undefined :: members[i].0 != PROTO && ProtoFree(members[i].1)
    case _ => true
  }

  /** canonicalize keeps the whole value exactly when no object in it has such a member. */
  lemma {:induction false} NothingIsLostIff(v: Value)
    requires Canonicalizable(v)
    ensures MeaningOf(v, false) == MeaningOf(v, true) <==> ProtoFree(v)
    decreases v
  {
    match v
    case Arr(items) =>
      var shown, all := MeaningOf(v, false).items, MeaningOf(v, true).items;
      forall i | 0 <= i < |items| && items[i] != Undefined ensures shown[i] == all[i] <==> ProtoFree(items[i]) {
        NothingIsLostIff(items[i]);
      }
      if shown == all {
        assert forall i | 0 <= i < |items| :: shown[i] == all[i];
      }
    case Obj(members) => NoMemberIsLostIff(v, members);
    case MapOf(members) => NoMemberIsLostIff(v, members);
    case _ =>
  }

  predicate PartsProtoFree(members: seq<(string, Value)>) {
    forall i | 0 <= i < |members| && members[i].1 != Undefined :: members[i].0 != PROTO && ProtoFree(members[i].1)
  }

  lemma {:induction false} NoMemberIsLostIff(v: Value, members: seq<(string, Value)>)
    requires DistinctNames(members) && Parts(v, members)
    ensures Table(Meanings(v, Listed(members, false), false)) == Table(Meanings(v, Listed(members, true), true)) <==> PartsProtoFree(members)
    decreases v, 1
  {
    var shown, all := Meanings(v, Listed(members, false), false), Meanings(v, Listed(members, true), true);
    ListedIsDistinct(members, false);
    ListedIsDistinct(members, true);
    if PartsProtoFree(members) {
      assert Listed(members, false) == Listed(members, true) by {
        FilterCongruence(members, (m: (string, Value)) => m.1 != Undefined && (false || m.0 != PROTO), (m: (string, Value)) => m.1 != Undefined && (true || m.0 != PROTO));
      }
      forall k | 0 <= k < |all| ensures shown[k] == all[k] {
        NothingIsLostIff(Listed(members, true)[k].1);
      }
      assert shown == all;
    }
    if Table(shown) == Table(all) {
      TablesAgree(shown, all);
      forall i | 0 <= i < |members| && members[i].1 != Undefined ensures members[i].0 != PROTO && ProtoFree(members[i].1) {
        MemberIsKept(v, members, i);
      }
    }
  }

  lemma {:induction false} MemberIsKept(v: Value, members: seq<(string, Value)>, i: nat)
    requires DistinctNames(members) && Parts(v, members) && i < |members| && members[i].1 != Undefined
    requires forall m :: m in Meanings(v, Listed(members, false), false) <==> m in Meanings(v, Listed(members, true), true)
    ensures members[i].0 != PROTO && ProtoFree(members[i].1)
    decreases v, 0
  {
    var all := Listed(members, true);
    assert members[i] in all;
    var k :| 0 <= k < |all| && all[k] == members[i];
    var m := Meanings(v, all, true)[k];
    assert m in Meanings(v, all, true) && m in Meanings(v, Listed(members, false), false);
    ShownMember(v, members, i, m);
    NothingIsLostIff(members[i].1);
  }

  lemma ShownMember(v: Value, members: seq<(string, Value)>, i: nat, m: (string, Json))
    requires DistinctNames(members) && Parts(v, members) && i < |members| && members[i].0 == m.0
    requires m in Meanings(v, Listed(members, false), false)
    ensures members[i].1 != Undefined && Canonicalizable(members[i].1)
    ensures m.0 != PROTO && m.1 == MeaningOf(members[i].1, false)
  {
    var shown := Listed(members, false);
    var j :| 0 <= j < |shown| && Meanings(v, shown, false)[j] == m;
    var l :| 0 <= l < |members| && members[l] == shown[j];
    assert l == i;
  }

  /**
   An object whose one own member is named __proto__, as JSON.parse or Object.fromEntries can make it, has
   the canonical form of the empty object.
   */
  lemma ProtoMemberIsLost(inner: Value)
    requires Canonicalizable(inner)
    ensures var a := Obj([(PROTO, inner)]);
      && Canonicalizable(a) && !ProtoFree(a)
      && Canonicalize(a) == Canonicalize(Obj([])) && Meaning(a) != Meaning(Obj([]))
  {
    var members := [(PROTO, inner)];
    assert members[0].0 == PROTO && members[0].1 == inner;
    OnlyProtoIsEmpty(Obj(members), members);
    OnlyProtoIsEmpty(Obj([]), []);
    NothingIsLostIff(Obj(members));
    EmptyMeansEmpty();
  }

  lemma EmptyMeansEmpty()
    ensures Meaning(Obj([])) == JObj(map[])
  {
    assert Listed([], true) == [];
  }

  lemma OnlyProtoIsEmpty(v: Value, members: seq<(string, Value)>)
    requires v == Obj(members) && Canonicalizable(v) && forall k | 0 <= k < |members| :: members[k].0 == PROTO
    ensures Canonicalize(v) == CObj([]) && MeaningOf(v, false) == JObj(map[])
  {
    var sorted := SortMembers(members);
    forall m | m in sorted ensures m.0 == PROTO {
      var k :| 0 <= k < |sorted| && sorted[k] == m;
      assert m in members;
    }
    NothingPasses(sorted, (m: (string, Value)) => m.1 != Undefined && (false || m.0 != PROTO));
    NothingPasses(members, (m: (string, Value)) => m.1 != Undefined && (false || m.0 != PROTO));
    assert Listed(sorted, false) == [] && Listed(members, false) == [];
  }

  // ---- one text per value ----

  /** The shape of canonical forms: in every object names rise strictly and none is __proto__. */
  predicate InOrder(c: Canon) {
    match c
    case CArr(items) => forall i | 0 <= i < |items| :: InOrder(items[i])
    case CObj(members) => NamesRise(members) && forall i | 0 <= i < |members| :: members[i].0 != PROTO && InOrder(members[i].1)
    case _ => true
  }

  type Form = c: Canon | InOrder(c) witness CNull

  lemma {:induction false} CanonicalFormIsInOrder(v: Value)
    requires Canonicalizable(v)
    ensures InOrder(Canonicalize(v))
    decreases v
  {
    match v
    case Arr(items) =>
      forall i | 0 <= i < |items| && items[i] != Undefined ensures InOrder(Canonicalize(items[i])) {
        CanonicalFormIsInOrder(items[i]);
      }
    case Obj(members) =>
      SortedMembersRise(members);
      MembersInOrder(v, SortMembers(members));
    case MapOf(members) =>
      SortedMembersRise(members);
      MembersInOrder(v, SortMembers(members));
    case _ =>
  }

  lemma {:induction false} MembersInOrder(v: Value, sorted: seq<(string, Value)>)
    requires NamesRise(sorted)
    requires Parts(v, sorted)
    ensures InOrder(CObj(CanonMembers(v, Listed(sorted, false))))
    decreases v, 0
  {
    ListedRises(sorted, false);
    forall k | 0 <= k < |Listed(sorted, false)| ensures InOrder(CanonMembers(v, Listed(sorted, false))[k].1) {
      CanonicalFormIsInOrder(Listed(sorted, false)[k].1);
    }
  }

  /** Two rising lists of members of the same object are the same list. */
  lemma RisingIsUnique(a: seq<(string, Json)>, b: seq<(string, Json)>)
    requires NamesRise(a) && NamesRise(b) && Table(a) == Table(b)
    ensures a == b
  {
    TablesAgree(a, b);
    NoRepeatsCount(a);
    NoRepeatsCount(b);
    assert SetOf(a) == SetOf(b);
    assert Separates(a, ByName()) by {
      forall x, y | x in a && y in a && ByName<Json>()(x, y) && ByName<Json>()(y, x) ensures x == y {
        NameLeIsTotal(x.0, y.0);
      }
    }
    SortedIsUnique(a, b, ByName());
  }

  function ReadAll(members: seq<(string, Canon)>): seq<(string, Json)> {
    Map(members, ReadMember())
  }

  lemma {:induction false} OneFormPerValue(a: Canon, b: Canon)
    requires InOrder(a) && InOrder(b) && Read(a) == Read(b)
    ensures a == b
    decreases a
  {
    match a
    case CArr(items) =>
      var others := b.items;
      forall i | 0 <= i < |items| ensures items[i] == others[i] {
        assert Read(a).items[i] == Read(b).items[i];
        OneFormPerValue(items[i], others[i]);
      }
    case CObj(members) =>
      var others := b.members;
      assert ReadAll(members) == seq(|members|, i requires 0 <= i < |members| => (members[i].0, Read(members[i].1)));
      assert ReadAll(others) == seq(|others|, i requires 0 <= i < |others| => (others[i].0, Read(others[i].1)));
      RisingIsUnique(ReadAll(members), ReadAll(others));
      forall i | 0 <= i < |members| ensures members[i] == others[i] {
        assert ReadAll(members)[i] == ReadAll(others)[i];
        OneFormPerValue(members[i].1, others[i].1);
      }
    case _ =>
  }

  /** Reading the canonical form gives the value back exactly when no object in it has a member __proto__. */
  lemma CanonicalFormReadsBackIff(v: Value)
    requires Canonicalizable(v)
    ensures Read(Canonicalize(v)) == Meaning(v) <==> ProtoFree(v)
  {
    FormReadsAsShown(v);
    NothingIsLostIff(v);
  }

  /**
   The canonical form decides the value: two values without members named __proto__ have the same canonical
   form exactly when they mean the same JSON value, whatever the order of their members, at every depth,
   and whichever of them are undefined, Dates or Maps.
   */
  lemma CanonicalFormDecides(a: Value, b: Value)
    requires Canonicalizable(a) && Canonicalizable(b) && ProtoFree(a) && ProtoFree(b)
    ensures Canonicalize(a) == Canonicalize(b) <==> Meaning(a) == Meaning(b)
  {
    CanonicalFormReadsBackIff(a);
    CanonicalFormReadsBackIff(b);
    CanonicalFormIsInOrder(a);
    CanonicalFormIsInOrder(b);
    if Meaning(a) == Meaning(b) {
      OneFormPerValue(Canonicalize(a), Canonicalize(b));
    }
  }

  // ---- stored forms ----

  /** canonicalMixed, as a stored payload has it. */
  function FormOf(v: Value): Form
    requires Canonicalizable(v)
  {
    CanonicalFormIsInOrder(v);
    Canonicalize(v)
  }

  /** A stored payload as the driver hands it back. */
  function ValueOf(c: Canon): Value {
    match c
    case CNull => Null
    case CBool(b) => Bool(b)
    case CNumber(n) => Number(n)
    case CText(s) => Text(s)
    case CArr(items) => Arr(seq(|items|, i requires 0 <= i < |items| => ValueOf(items[i])))
    case CObj(members) => Obj(seq(|members|, i requires 0 <= i < |members| => (members[i].0, ValueOf(members[i].1))))
  }

  lemma {:induction false} FormIsValue(c: Canon)
    requires InOrder(c)
    ensures Canonicalizable(ValueOf(c)) && MeaningOf(ValueOf(c), false) == Read(c)
    decreases c, 1
  {
    match c
    case CArr(items) =>
      forall i | 0 <= i < |items| ensures Canonicalizable(ValueOf(items[i])) && MeaningOf(ValueOf(items[i]), false) == Read(items[i]) {
        FormIsValue(items[i]);
      }
    case CObj(members) => ObjectIsValue(c);
    case _ =>
  }

  lemma {:induction false} ObjectIsValue(c: Canon)
    requires InOrder(c) && c.CObj?
    ensures Canonicalizable(ValueOf(c)) && MeaningOf(ValueOf(c), false) == Read(c)
    decreases c, 0
  {
    var values := ValueOf(c).members;
    forall i | 0 <= i < |c.members|
      ensures Canonicalizable(values[i].1) && MeaningOf(values[i].1, false) == Read(c.members[i].1)
    {
      FormIsValue(c.members[i].1);
    }
    AllAreListed(values);
    assert Meanings(ValueOf(c), values, false) == seq(|c.members|, i requires 0 <= i < |c.members| => (c.members[i].0, Read(c.members[i].1)));
  }

  lemma AllAreListed(members: seq<(string, Value)>)
    requires forall i | 0 <= i < |members| :: members[i].0 != PROTO && members[i].1 != Undefined
    ensures Listed(members, false) == members
  {
    EverythingPasses(members, (m: (string, Value)) => m.1 != Undefined && (false || m.0 != PROTO));
  }

  /** What is read back from the database has the canonical form, and so the hash, of what was written. */
  lemma StoredFormIsStable(f: Form)
    ensures Canonicalizable(ValueOf(f)) && FormOf(ValueOf(f)) == f
  {
    FormIsValue(f);
    FormReadsAsShown(ValueOf(f));
    CanonicalFormIsInOrder(ValueOf(f));
    OneFormPerValue(Canonicalize(ValueOf(f)), f);
  }
}
