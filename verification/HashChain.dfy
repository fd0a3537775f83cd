/**
 The hash chain of one (group, season, event) decision log (server/src/audit/hashChain.js). SHA-256
 over canonical JSON is a function parameter; where it matters it is required to be collision-free.
 */
module HashChain {
  import opened Wrappers
  import opened Sorting
  import opened Points
  import Canonical
  import Snapshots

  type Hash = string
  type SnapshotId = nat
  type Snapshot = Snapshots.Snapshot

  datatype ActionKind = FINALIZE | OVERRIDE | RECOMPUTE

  datatype StoredSnapshot = StoredSnapshot(content: Snapshot, contentHash: Hash)

  datatype Fields = Fields(
    action: ActionKind,
    prevStatus: ResultStatus,
    newStatus: ResultStatus,
    prevWinners: seq<int>,
    newWinners: seq<int>,
    prevSnapshotId: Option<SnapshotId>,
    newSnapshotId: SnapshotId,
    newSnapshotHash: Hash,
    note: Option<string>,
    rest: string)

  /** Everything an action hash covers. */
  datatype ActionBody = ActionBody(fields: Fields, seqNo: int, prevHash: Hash)

  datatype Action = Action(body: ActionBody, hash: Hash)

  datatype Pointer = Pointer(status: ResultStatus, currentSnapshotId: SnapshotId, headSeq: int, headHash: Hash)

  /** What gets hashed; engine inputs as their canonical form. */
  datatype Doc = ActionDoc(body: ActionBody) | SnapshotDoc(content: Snapshot) | InputsDoc(form: Canonical.Form)

  const GENESIS: Hash := "GENESIS"

  datatype Reason =
    | SEQ_GAP
    | PREV_HASH_MISMATCH
    | ACTION_HASH_MISMATCH
    | SNAPSHOT_MISSING
    | SNAPSHOT_HASH_MISMATCH
    | POINTER_WITHOUT_ACTIONS
    | POINTER_HEAD_MISMATCH
    | POINTER_SNAPSHOT_MISMATCH

  datatype Verdict = Valid | Invalid(brokenAtSeq: int, reason: Reason)

  /** Neither two actions nor two snapshots share a hash. */
  ghost predicate CollisionFree(hash: Doc -> Hash) {
    && (forall a, b | hash(ActionDoc(a)) == hash(ActionDoc(b)) :: a == b)
    && (forall s, t | hash(SnapshotDoc(s)) == hash(SnapshotDoc(t)) :: s == t)
  }

  /** nextAction: the next action of a chain, from the head it follows. */
  function NextAction(hash: Doc -> Hash, head: Option<Pointer>, fields: Fields): Action {
    var body := ActionBody(
      fields,
      (match head case Some(p) => p.headSeq case None => 0) + 1,
      match head case Some(p) => p.headHash case None => GENESIS);
    Action(body, hash(ActionDoc(body)))
  }

  // ---- what a valid chain is ----

  function SeqOf(): Action -> int {
    (a: Action) => a.body.seqNo
  }

  function PrevHashAt(s: seq<Action>, i: nat): Hash
    requires i <= |s|
  {
    if i == 0 then GENESIS else s[i - 1].hash
  }

  /** With no snapshots at hand the snapshot checks are skipped, as in the source. */
  predicate SnapshotOk(hash: Doc -> Hash, a: Action, snapshots: map<SnapshotId, StoredSnapshot>) {
    snapshots != map[] ==>
      && a.body.fields.newSnapshotId in snapshots
      && var stored := snapshots[a.body.fields.newSnapshotId];
      stored.contentHash == hash(SnapshotDoc(stored.content)) == a.body.fields.newSnapshotHash
  }

  predicate LinkOk(hash: Doc -> Hash, s: seq<Action>, i: nat, snapshots: map<SnapshotId, StoredSnapshot>)
    requires i < |s|
  {
    && s[i].body.seqNo == i + 1
    && s[i].body.prevHash == PrevHashAt(s, i)
    && hash(ActionDoc(s[i].body)) == s[i].hash
    && SnapshotOk(hash, s[i], snapshots)
  }

  predicate PointerOk(s: seq<Action>, pointer: Option<Pointer>) {
    pointer.Some? ==>
      && s != []
      && pointer.value.headSeq == |s|
      && pointer.value.headHash == s[|s| - 1].hash
      && pointer.value.currentSnapshotId == s[|s| - 1].body.fields.newSnapshotId
  }

  ghost predicate LinksOk(hash: Doc -> Hash, s: seq<Action>, n: nat, snapshots: map<SnapshotId, StoredSnapshot>) {
    forall i | 0 <= i < n && i < |s| :: LinkOk(hash, s, i, snapshots)
  }

  /** The declarative meaning of an accepted chain, on actions in sequence order. */
  ghost predicate ChainOk(hash: Doc -> Hash, s: seq<Action>, snapshots: map<SnapshotId, StoredSnapshot>, pointer: Option<Pointer>) {
    LinksOk(hash, s, |s|, snapshots) && PointerOk(s, pointer)
  }

  /** What a reported reason means at the link it names. */
  predicate Fault(hash: Doc -> Hash, s: seq<Action>, i: nat, snapshots: map<SnapshotId, StoredSnapshot>, reason: Reason)
    requires i < |s|
  {
    var a := s[i];
    var id := a.body.fields.newSnapshotId;
    match reason
    case SEQ_GAP => a.body.seqNo != i + 1
    case PREV_HASH_MISMATCH => a.body.prevHash != PrevHashAt(s, i)
    case ACTION_HASH_MISMATCH => hash(ActionDoc(a.body)) != a.hash
    case SNAPSHOT_MISSING => snapshots != map[] && id !in snapshots
    case SNAPSHOT_HASH_MISMATCH => id in snapshots
      && !(snapshots[id].contentHash == hash(SnapshotDoc(snapshots[id].content)) == a.body.fields.newSnapshotHash)
    case _ => false
  }

  /** What a reported reason means of a pointer to an intact list. */
  predicate PointerFault(s: seq<Action>, pointer: Pointer, reason: Reason) {
    match reason
    case POINTER_WITHOUT_ACTIONS => s == []
    case POINTER_HEAD_MISMATCH => s != [] && (pointer.headSeq != |s| || pointer.headHash != s[|s| - 1].hash)
    case POINTER_SNAPSHOT_MISMATCH => s != [] && pointer.currentSnapshotId != s[|s| - 1].body.fields.newSnapshotId
    case _ => false
  }

  /** The reasons in the order in which they are looked for. */
  function Place(reason: Reason): nat {
    match reason
    case SEQ_GAP => 0
    case PREV_HASH_MISMATCH => 1
    case ACTION_HASH_MISMATCH => 2
    case SNAPSHOT_MISSING => 3
    case SNAPSHOT_HASH_MISMATCH => 4
    case POINTER_WITHOUT_ACTIONS => 5
    case POINTER_HEAD_MISMATCH => 6
    case POINTER_SNAPSHOT_MISMATCH => 7
  }

  /** The first fault of link i. */
  ghost predicate FirstFault(hash: Doc -> Hash, s: seq<Action>, i: nat, snapshots: map<SnapshotId, StoredSnapshot>, reason: Reason)
    requires i < |s|
  {
    Fault(hash, s, i, snapshots, reason) && forall e: Reason | Place(e) < Place(reason) :: !Fault(hash, s, i, snapshots, e)
  }

  ghost predicate FirstPointerFault(s: seq<Action>, pointer: Option<Pointer>, reason: Reason) {
    && pointer.Some? && PointerFault(s, pointer.value, reason)
    && forall e: Reason | Place(e) < Place(reason) :: !PointerFault(s, pointer.value, e)
  }

  /** A refusal names the first broken link and its first fault, or what is first wrong with a pointer to an intact list. */
  ghost predicate Explains(hash: Doc -> Hash, s: seq<Action>, snapshots: map<SnapshotId, StoredSnapshot>, pointer: Option<Pointer>, n: int, reason: Reason) {
    || (1 <= n <= |s| && LinksOk(hash, s, n - 1, snapshots) && FirstFault(hash, s, n - 1, snapshots, reason))
    || (n == |s| && LinksOk(hash, s, |s|, snapshots) && FirstPointerFault(s, pointer, reason))
  }

  lemma FaultBreaksLink(hash: Doc -> Hash, s: seq<Action>, i: nat, snapshots: map<SnapshotId, StoredSnapshot>, reason: Reason)
    requires i < |s| && Fault(hash, s, i, snapshots, reason)
    ensures !LinkOk(hash, s, i, snapshots)
  {
  }

  /**
   verifyChain: walks the actions, in any order, and reports the first broken link. It accepts
   exactly the chains that satisfy ChainOk.
   */
  method VerifyChain(hash: Doc -> Hash, actions: seq<Action>, snapshots: map<SnapshotId, StoredSnapshot>, pointer: Option<Pointer>)
    returns (r: Verdict)
    ensures r.Valid? <==> ChainOk(hash, SortByKey(actions, SeqOf()), snapshots, pointer)
    ensures r.Invalid? ==> Explains(hash, SortByKey(actions, SeqOf()), snapshots, pointer, r.brokenAtSeq, r.reason)
  {
    var sorted := SortByKey(actions, SeqOf());
    var prevHash := GENESIS;
    for i := 0 to |sorted|
      invariant prevHash == PrevHashAt(sorted, i)
      invariant LinksOk(hash, sorted, i, snapshots)
    {
      var a := sorted[i];
      var id := a.body.fields.newSnapshotId;
      var fault := None;
      if a.body.seqNo != i + 1 {
        fault := Some(SEQ_GAP);
      } else if a.body.prevHash != prevHash {
        fault := Some(PREV_HASH_MISMATCH);
      } else if hash(ActionDoc(a.body)) != a.hash {
        fault := Some(ACTION_HASH_MISMATCH);
      } else if id !in snapshots {
        if snapshots != map[] {
          fault := Some(SNAPSHOT_MISSING);
        }
      } else {
        var recomputed := hash(SnapshotDoc(snapshots[id].content));
        if snapshots[id].contentHash != recomputed || a.body.fields.newSnapshotHash != recomputed {
          fault := Some(SNAPSHOT_HASH_MISMATCH);
        }
      }
      if fault.Some? {
        FaultBreaksLink(hash, sorted, i, snapshots, fault.value);
        return Invalid(i + 1, fault.value);
      }
      assert LinkOk(hash, sorted, i, snapshots);
      prevHash := a.hash;
    }
    r := CheckPointer(sorted, pointer);
  }

  method CheckPointer(sorted: seq<Action>, pointer: Option<Pointer>) returns (r: Verdict)
    ensures r.Valid? <==> PointerOk(sorted, pointer)
    ensures r.Invalid? ==> r.brokenAtSeq == |sorted| && FirstPointerFault(sorted, pointer, r.reason)
  {
    if pointer.Some? {
      var n := |sorted|;
      if n == 0 {
        return Invalid(0, POINTER_WITHOUT_ACTIONS);
      }
      var last := sorted[n - 1];
      if pointer.value.headSeq != n || pointer.value.headHash != last.hash {
        return Invalid(n, POINTER_HEAD_MISMATCH);
      }
      if pointer.value.currentSnapshotId != last.body.fields.newSnapshotId {
        return Invalid(n, POINTER_SNAPSHOT_MISMATCH);
      }
    }
    return Valid;
  }

  // ---- tamper evidence ----

  /** Two linked lists of one length that end in the same hash are the same, from the end backwards. */
  lemma {:induction false} SameHeadSameChain(
    hash: Doc -> Hash, s: seq<Action>, t: seq<Action>,
    snaps: map<SnapshotId, StoredSnapshot>, taps: map<SnapshotId, StoredSnapshot>, n: nat)
    requires CollisionFree(hash) && n <= |s| && n <= |t|
    requires forall i | 0 <= i < |s| :: LinkOk(hash, s, i, snaps)
    requires forall i | 0 <= i < |t| :: LinkOk(hash, t, i, taps)
    requires PrevHashAt(s, n) == PrevHashAt(t, n)
    ensures s[..n] == t[..n]
  {
    if n > 0 {
      assert LinkOk(hash, s, n - 1, snaps) && LinkOk(hash, t, n - 1, taps);
      assert hash(ActionDoc(s[n - 1].body)) == hash(ActionDoc(t[n - 1].body));
      SameHeadSameChain(hash, s, t, snaps, taps, n - 1);
      assert s[..n] == s[..n - 1] + [s[n - 1]] && t[..n] == t[..n - 1] + [t[n - 1]];
    }
  }

  /**
   Tamper evidence: under a collision-free hash, any two action lists, in any order and with their
   snapshots, that verifyChain accepts against the same pointer hold the same actions and cite
   snapshots of identical content.
   */
  lemma AcceptedChainsAreIdentical(
    hash: Doc -> Hash, a: seq<Action>, b: seq<Action>,
    snaps: map<SnapshotId, StoredSnapshot>, taps: map<SnapshotId, StoredSnapshot>, pointer: Pointer)
    requires CollisionFree(hash) && snaps != map[] && taps != map[]
    requires ChainOk(hash, SortByKey(a, SeqOf()), snaps, Some(pointer))
    requires ChainOk(hash, SortByKey(b, SeqOf()), taps, Some(pointer))
    ensures SortByKey(a, SeqOf()) == SortByKey(b, SeqOf()) && multiset(a) == multiset(b)
    ensures forall x | x in a :: x in b && x.body.fields.newSnapshotId in snaps && x.body.fields.newSnapshotId in taps
    ensures forall x | x in a :: snaps[x.body.fields.newSnapshotId] == taps[x.body.fields.newSnapshotId]
  {
    var s, t := SortByKey(a, SeqOf()), SortByKey(b, SeqOf());
    SameHeadSameChain(hash, s, t, snaps, taps, |s|);
    assert s[..|s|] == s && t[..|t|] == t;
    SameMembers(s, a);
    SameMembers(t, b);
    forall x | x in a
      ensures x in b && x.body.fields.newSnapshotId in snaps && x.body.fields.newSnapshotId in taps
      ensures snaps[x.body.fields.newSnapshotId] == taps[x.body.fields.newSnapshotId]
    {
      var i :| 0 <= i < |s| && s[i] == x;
      assert LinkOk(hash, s, i, snaps) && LinkOk(hash, t, i, taps);
      var id := x.body.fields.newSnapshotId;
      assert hash(SnapshotDoc(snaps[id].content)) == hash(SnapshotDoc(taps[id].content));
    }
  }
}
