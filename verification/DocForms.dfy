/**
 The canonical text under each hash (server/src/repositories/mappers/result.js and
 server/src/audit/hashChain.js): actions and snapshots as the objects the program hashes. Any hash of
 canonical texts without collisions tells them apart, which is all the results about chains ask for.
 */
module DocForms {
  import opened Wrappers
  import opened Points
  import opened TieBreakers
  import opened Encoding
  import opened HashChain
  import Snapshots
  import C = Canonical

  // ---- a snapshot ----

  const SNAPSHOT: seq<string> := [
    "kind", "computedWinnerEntryIds", "declaredWinnerEntryIds", "winningScore", "tieBreakApplied",
    "tieBreakTrace", "standings", "inputs", "inputsHash", "rest"]

  function KindName(k: Snapshots.Kind): string {
    if k == Snapshots.RULE_BASED then "RULE_BASED" else "OVERRIDE"
  }

  function SnapshotFields(s: Snapshot): seq<Value> {
    [C.Text(KindName(s.kind)), ListValue(s.computedWinnerEntryIds, Num), ListValue(s.declaredWinnerEntryIds, Num),
     NumOrNull(s.winningScore), RuleOrNull(s.tieBreakApplied),
     C.ValueOf(s.tieBreakTrace), C.ValueOf(s.standings), C.ValueOf(s.inputs), C.Text(s.inputsHash), C.Text(s.rest)]
  }

  // ---- an action ----

  const ACTION: seq<string> := [
    "action", "prevStatus", "newStatus", "prevWinnerEntryIds", "newWinnerEntryIds",
    "prevSnapshotId", "newSnapshotId", "seq", "newSnapshotHash", "note", "rest", "prevHash"]

  function ActionName(k: ActionKind): string {
    match k case FINALIZE => "FINALIZE" case OVERRIDE => "OVERRIDE" case RECOMPUTE => "RECOMPUTE"
  }

  function StatusName(s: ResultStatus): string {
    match s case PROVISIONAL => "PROVISIONAL" case FINAL => "FINAL" case OVERRIDDEN => "OVERRIDDEN"
  }

  /** An id is a number here. */
  function IdOrNull(o: Option<SnapshotId>): Value {
    match o case Some(id) => Num(id) case None => C.Null
  }

  function WhatFields(f: Fields): seq<Value> {
    [C.Text(ActionName(f.action)), C.Text(StatusName(f.prevStatus)), C.Text(StatusName(f.newStatus))]
  }

  function WinnerFields(f: Fields): seq<Value> {
    [ListValue(f.prevWinners, Num), ListValue(f.newWinners, Num)]
  }

  function IdFields(b: ActionBody): seq<Value> {
    [IdOrNull(b.fields.prevSnapshotId), Num(b.fields.newSnapshotId), Num(b.seqNo)]
  }

  function TextFields(b: ActionBody): seq<Value> {
    [C.Text(b.fields.newSnapshotHash), TextOrNull(b.fields.note), C.Text(b.fields.rest), C.Text(b.prevHash)]
  }

  function ActionFields(b: ActionBody): seq<Value> {
    WhatFields(b.fields) + (WinnerFields(b.fields) + (IdFields(b) + TextFields(b)))
  }

  // ---- their forms ----

  predicate AllPlain(values: seq<Value>) {
    forall k | 0 <= k < |values| :: Plain(values[k])
  }

  lemma SnapshotNames()
    ensures Storable(SNAPSHOT)
  {
  }

  lemma ActionNames()
    ensures Storable(ACTION)
  {
  }

  lemma FormReads(f: Form)
    ensures Plain(C.ValueOf(f)) && Shown(C.ValueOf(f)) == Some(C.Read(f))
  {
    C.FormIsValue(f);
  }

  lemma SnapshotIsPlain(s: Snapshot)
    ensures AllPlain(SnapshotFields(s))
  {
    IntsRead(s.computedWinnerEntryIds);
    IntsRead(s.declaredWinnerEntryIds);
    FormReads(s.tieBreakTrace);
    FormReads(s.standings);
    FormReads(s.inputs);
  }

  lemma ActionIsPlain(b: ActionBody)
    ensures AllPlain(WhatFields(b.fields)) && AllPlain(WinnerFields(b.fields)) && AllPlain(IdFields(b)) && AllPlain(TextFields(b))
    ensures AllPlain(ActionFields(b))
  {
    IntsRead(b.fields.prevWinners);
    IntsRead(b.fields.newWinners);
  }

  function ObjectForm(names: seq<string>, values: seq<Value>): Form
    requires |names| == |values| && Storable(names) && AllPlain(values)
  {
    ObjectReads(names, values);
    C.FormOf(ObjectOf(names, values))
  }

  function SnapshotForm(s: Snapshot): Form {
    SnapshotNames();
    SnapshotIsPlain(s);
    ObjectForm(SNAPSHOT, SnapshotFields(s))
  }

  function ActionForm(b: ActionBody): Form {
    ActionNames();
    ActionIsPlain(b);
    ObjectForm(ACTION, ActionFields(b))
  }

  function DocForm(d: Doc): Form {
    match d
    case ActionDoc(body) => ActionForm(body)
    case SnapshotDoc(content) => SnapshotForm(content)
    case InputsDoc(form) => form
  }

  /** contentHash, over any hash of canonical texts. */
  function ContentHash(sha: Form -> Hash): Doc -> Hash {
    (d: Doc) => sha(DocForm(d))
  }

  // ---- a form decides the document ----

  /** Two objects with the same fields and the same form show the same columns. */
  lemma SameColumns(names: seq<string>, a: seq<Value>, b: seq<Value>)
    requires |names| == |a| == |b| && Storable(names) && AllPlain(a) && AllPlain(b)
    requires ObjectForm(names, a) == ObjectForm(names, b)
    ensures AllShown(a) == AllShown(b)
  {
    ObjectReads(names, a);
    ObjectReads(names, b);
    C.FormReadsAsShown(ObjectOf(names, a));
    C.FormReadsAsShown(ObjectOf(names, b));
  }

  lemma SameInts(a: seq<int>, b: seq<int>)
    requires Plain(ListValue(a, Num)) && Plain(ListValue(b, Num)) && Shown(ListValue(a, Num)) == Shown(ListValue(b, Num))
    ensures a == b
  {
    IntsRead(a);
    IntsRead(b);
  }

  lemma SameForm(f: Form, g: Form)
    requires Plain(C.ValueOf(f)) && Plain(C.ValueOf(g)) && Shown(C.ValueOf(f)) == Shown(C.ValueOf(g))
    ensures f == g
  {
    FormReads(f);
    FormReads(g);
    C.OneFormPerValue(f, g);
  }

  lemma SameRule(a: Option<Rule>, b: Option<Rule>)
    requires Shown(RuleOrNull(a)) == Shown(RuleOrNull(b))
    ensures a == b
  {
    if a.Some? && b.Some? {
      RuleReads(a.value);
      RuleReads(b.value);
    }
  }

  /** One column of two shown lists. */
  lemma SameColumn(a: seq<Value>, b: seq<Value>, k: nat)
    requires AllPlain(a) && AllPlain(b) && |a| == |b| && AllShown(a) == AllShown(b) && k < |a|
    ensures Shown(a[k]) == Shown(b[k])
  {
    assert AllShown(a)[k] == AllShown(b)[k];
  }

  lemma SnapshotFormDecides(s: Snapshot, t: Snapshot)
    requires SnapshotForm(s) == SnapshotForm(t)
    ensures s == t
  {
    SnapshotNames();
    SnapshotIsPlain(s);
    SnapshotIsPlain(t);
    var a, b := SnapshotFields(s), SnapshotFields(t);
    SameColumns(SNAPSHOT, a, b);
    SnapshotHeads(s, t);
    SnapshotPayloads(s, t);
  }

  lemma SnapshotHeads(s: Snapshot, t: Snapshot)
    requires AllPlain(SnapshotFields(s)) && AllPlain(SnapshotFields(t)) && AllShown(SnapshotFields(s)) == AllShown(SnapshotFields(t))
    ensures s.kind == t.kind && s.computedWinnerEntryIds == t.computedWinnerEntryIds && s.declaredWinnerEntryIds == t.declaredWinnerEntryIds
    ensures s.winningScore == t.winningScore && s.tieBreakApplied == t.tieBreakApplied
  {
    var a, b := SnapshotFields(s), SnapshotFields(t);
    SameColumn(a, b, 0);
    SameColumn(a, b, 1);
    SameColumn(a, b, 2);
    SameColumn(a, b, 3);
    SameColumn(a, b, 4);
    SameInts(s.computedWinnerEntryIds, t.computedWinnerEntryIds);
    SameInts(s.declaredWinnerEntryIds, t.declaredWinnerEntryIds);
    NumOrNullReads(s.winningScore);
    NumOrNullReads(t.winningScore);
    SameRule(s.tieBreakApplied, t.tieBreakApplied);
  }

  lemma SnapshotPayloads(s: Snapshot, t: Snapshot)
    requires AllPlain(SnapshotFields(s)) && AllPlain(SnapshotFields(t)) && AllShown(SnapshotFields(s)) == AllShown(SnapshotFields(t))
    ensures s.tieBreakTrace == t.tieBreakTrace && s.standings == t.standings && s.inputs == t.inputs
    ensures s.inputsHash == t.inputsHash && s.rest == t.rest
  {
    var a, b := SnapshotFields(s), SnapshotFields(t);
    SameColumn(a, b, 5);
    SameColumn(a, b, 6);
    SameColumn(a, b, 7);
    SameColumn(a, b, 8);
    SameColumn(a, b, 9);
    SameForm(s.tieBreakTrace, t.tieBreakTrace);
    SameForm(s.standings, t.standings);
    SameForm(s.inputs, t.inputs);
  }

  lemma SameHalves(a: seq<Value>, b: seq<Value>, c: seq<Value>, d: seq<Value>)
    requires AllPlain(a) && AllPlain(b) && AllPlain(c) && AllPlain(d) && AllPlain(a + b) && AllPlain(c + d)
    requires |a| == |c| && |b| == |d| && AllShown(a + b) == AllShown(c + d)
    ensures AllShown(a) == AllShown(c) && AllShown(b) == AllShown(d)
  {
    assert AllShown(a + b)[..|a|] == AllShown(a) && AllShown(a + b)[|a|..] == AllShown(b);
    assert AllShown(c + d)[..|c|] == AllShown(c) && AllShown(c + d)[|c|..] == AllShown(d);
  }

  lemma ActionFormDecides(x: ActionBody, y: ActionBody)
    requires ActionForm(x) == ActionForm(y)
    ensures x == y
  {
    ActionNames();
    ActionIsPlain(x);
    ActionIsPlain(y);
    SameColumns(ACTION, ActionFields(x), ActionFields(y));
    SameHalves(WhatFields(x.fields), WinnerFields(x.fields) + (IdFields(x) + TextFields(x)), WhatFields(y.fields), WinnerFields(y.fields) + (IdFields(y) + TextFields(y)));
    SameHalves(WinnerFields(x.fields), IdFields(x) + TextFields(x), WinnerFields(y.fields), IdFields(y) + TextFields(y));
    SameHalves(IdFields(x), TextFields(x), IdFields(y), TextFields(y));
    SameWhat(x.fields, y.fields);
    SameWinners(x.fields, y.fields);
    SameIds(x, y);
    SameTexts(x, y);
  }

  lemma SameAction(a: ActionKind, b: ActionKind)
    requires ActionName(a) == ActionName(b)
    ensures a == b
  {
  }

  lemma SameStatus(a: ResultStatus, b: ResultStatus)
    requires StatusName(a) == StatusName(b)
    ensures a == b
  {
  }

  lemma SameWhat(f: Fields, g: Fields)
    requires AllPlain(WhatFields(f)) && AllPlain(WhatFields(g)) && AllShown(WhatFields(f)) == AllShown(WhatFields(g))
    ensures f.action == g.action && f.prevStatus == g.prevStatus && f.newStatus == g.newStatus
  {
    SameText(WhatFields(f), WhatFields(g), 0, ActionName(f.action), ActionName(g.action));
    SameText(WhatFields(f), WhatFields(g), 1, StatusName(f.prevStatus), StatusName(g.prevStatus));
    SameText(WhatFields(f), WhatFields(g), 2, StatusName(f.newStatus), StatusName(g.newStatus));
    SameAction(f.action, g.action);
    SameStatus(f.prevStatus, g.prevStatus);
    SameStatus(f.newStatus, g.newStatus);
  }

  lemma SameText(a: seq<Value>, b: seq<Value>, k: nat, s: string, t: string)
    requires AllPlain(a) && AllPlain(b) && |a| == |b| && AllShown(a) == AllShown(b) && k < |a| && a[k] == C.Text(s) && b[k] == C.Text(t)
    ensures s == t
  {
    SameColumn(a, b, k);
    TextReads(s);
    TextReads(t);
  }

  lemma SameWinners(f: Fields, g: Fields)
    requires AllPlain(WinnerFields(f)) && AllPlain(WinnerFields(g)) && AllShown(WinnerFields(f)) == AllShown(WinnerFields(g))
    ensures f.prevWinners == g.prevWinners && f.newWinners == g.newWinners
  {
    SameColumn(WinnerFields(f), WinnerFields(g), 0);
    SameColumn(WinnerFields(f), WinnerFields(g), 1);
    SameInts(f.prevWinners, g.prevWinners);
    SameInts(f.newWinners, g.newWinners);
  }

  lemma SameId(a: Option<SnapshotId>, b: Option<SnapshotId>)
    requires Shown(IdOrNull(a)) == Shown(IdOrNull(b))
    ensures a == b
  {
  }

  lemma SameIds(x: ActionBody, y: ActionBody)
    requires AllPlain(IdFields(x)) && AllPlain(IdFields(y)) && AllShown(IdFields(x)) == AllShown(IdFields(y))
    ensures x.fields.prevSnapshotId == y.fields.prevSnapshotId && x.fields.newSnapshotId == y.fields.newSnapshotId && x.seqNo == y.seqNo
  {
    SameColumn(IdFields(x), IdFields(y), 0);
    SameColumn(IdFields(x), IdFields(y), 1);
    SameColumn(IdFields(x), IdFields(y), 2);
    SameId(x.fields.prevSnapshotId, y.fields.prevSnapshotId);
    NumReads(x.fields.newSnapshotId);
    NumReads(y.fields.newSnapshotId);
    NumReads(x.seqNo);
    NumReads(y.seqNo);
  }

  lemma SameTexts(x: ActionBody, y: ActionBody)
    requires AllPlain(TextFields(x)) && AllPlain(TextFields(y)) && AllShown(TextFields(x)) == AllShown(TextFields(y))
    ensures x.fields.newSnapshotHash == y.fields.newSnapshotHash && x.fields.note == y.fields.note
    ensures x.fields.rest == y.fields.rest && x.prevHash == y.prevHash
  {
    SameText(TextFields(x), TextFields(y), 0, x.fields.newSnapshotHash, y.fields.newSnapshotHash);
    SameText(TextFields(x), TextFields(y), 2, x.fields.rest, y.fields.rest);
    SameText(TextFields(x), TextFields(y), 3, x.prevHash, y.prevHash);
    SameColumn(TextFields(x), TextFields(y), 1);
    TextOrNullReads(x.fields.note);
    TextOrNullReads(y.fields.note);
  }

  lemma HashOfDoc(sha: Form -> Hash, d: Doc)
    ensures ContentHash(sha)(d) == sha(DocForm(d))
  {
  }

  /**
   A hash of canonical texts without collisions tells any two actions apart, any two snapshots and any two
   engine inputs: member order, undefined members and the form the payloads are stored in cost nothing.
   */
  lemma ContentHashIsCollisionFree(sha: Form -> Hash)
    requires Snapshots.CollisionFree(sha)
    ensures HashChain.CollisionFree(ContentHash(sha))
  {
    var hash := ContentHash(sha);
    forall a, b | hash(ActionDoc(a)) == hash(ActionDoc(b)) ensures a == b {
      HashOfDoc(sha, ActionDoc(a));
      HashOfDoc(sha, ActionDoc(b));
      ActionFormDecides(a, b);
    }
    forall s, t | hash(SnapshotDoc(s)) == hash(SnapshotDoc(t)) ensures s == t {
      HashOfDoc(sha, SnapshotDoc(s));
      HashOfDoc(sha, SnapshotDoc(t));
      SnapshotFormDecides(s, t);
    }
  }
}
