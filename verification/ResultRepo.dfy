/**
 The append-only result collections of one (group, season, event) and their mutable pointer
 (server/src/repositories/resultRepo.js). Each method is one statement of the T4 transaction.
 */
module ResultRepo {
  import opened Wrappers
  import opened Sorting
  import opened HashChain
  import Canonical

  datatype Db = Db(snapshots: map<SnapshotId, StoredSnapshot>, actions: seq<Action>, pointer: Option<Pointer>)

  datatype RepoError = CONCURRENT_DECISION | PREV_SNAPSHOT_NOT_HEAD | SEQ_NOT_NEXT

  const Empty: Db := Db(map[], [], None)

  function HeadSeq(head: Option<Pointer>): int {
    match head case Some(p) => p.headSeq case None => 0
  }

  function HeadSnapshot(head: Option<Pointer>): Option<SnapshotId> {
    match head case Some(p) => Some(p.currentSnapshotId) case None => None
  }

  function PointerFor(a: Action): Pointer {
    Pointer(a.body.fields.newStatus, a.body.fields.newSnapshotId, a.body.seqNo, a.hash)
  }

  predicate HasSeq(actions: seq<Action>, n: int) {
    exists a | a in actions :: a.body.seqNo == n
  }

  function WithSnapshot(hash: Doc -> Hash, db: Db, id: SnapshotId, content: Snapshot): Db {
    db.(snapshots := db.snapshots[id := StoredSnapshot(content, hash(SnapshotDoc(content)))])
  }

  /** linear_chain_unique refuses a second action with the same seq. */
  function AppendError(db: Db, head: Option<Pointer>, fields: Fields): Option<RepoError> {
    if fields.prevSnapshotId != HeadSnapshot(head) then Some(PREV_SNAPSHOT_NOT_HEAD)
    else if HasSeq(db.actions, HeadSeq(head) + 1) then Some(CONCURRENT_DECISION)
    else None
  }

  /** The first decision upserts with $setOnInsert; a later one must match the expected headSeq. */
  predicate PointerGuard(stored: Option<Pointer>, head: Option<Pointer>) {
    if head.None? then stored.None? else stored.Some? && stored.value.headSeq == head.value.headSeq
  }

  function MoveError(db: Db, head: Option<Pointer>, action: Action): Option<RepoError> {
    if action.body.seqNo != HeadSeq(head) + 1 then Some(SEQ_NOT_NEXT)
    else if !PointerGuard(db.pointer, head) then Some(CONCURRENT_DECISION)
    else None
  }

  class ResultStore {
    var db: Db

    constructor ()
      ensures db == Empty
    {
      db := Empty;
    }

    method InsertSnapshot(hash: Doc -> Hash, id: SnapshotId, content: Snapshot)
      requires id !in db.snapshots
      modifies this
      ensures db == WithSnapshot(hash, old(db), id, content)
    {
      var contentHash := hash(SnapshotDoc(content));
      db := db.(snapshots := db.snapshots[id := StoredSnapshot(content, contentHash)]);
    }

    method AppendAction(hash: Doc -> Hash, head: Option<Pointer>, fields: Fields) returns (r: Result<Action, RepoError>)
      modifies this
      ensures match AppendError(old(db), head, fields)
        case Some(e) => r == Err(e) && db == old(db)
        case None => r == Ok(NextAction(hash, head, fields)) && db == old(db).(actions := old(db).actions + [r.value])
      ensures r == Err(PREV_SNAPSHOT_NOT_HEAD) <==>
        fields.prevSnapshotId != match head case Some(p) => Some(p.currentSnapshotId) case None => None
      ensures r == Err(CONCURRENT_DECISION) <==> (r != Err(PREV_SNAPSHOT_NOT_HEAD) &&
        exists a | a in old(db).actions :: a.body.seqNo == 1 + match head case Some(p) => p.headSeq case None => 0)
    {
      if fields.prevSnapshotId != HeadSnapshot(head) {
        return Err(PREV_SNAPSHOT_NOT_HEAD);
      }
      var action := NextAction(hash, head, fields);
      if HasSeq(db.actions, action.body.seqNo) {
        return Err(CONCURRENT_DECISION);
      }
      db := db.(actions := db.actions + [action]);
      r := Ok(action);
    }

    method MovePointer(head: Option<Pointer>, action: Action) returns (error: Option<RepoError>)
      modifies this
      ensures error == MoveError(old(db), head, action)
      ensures db == if error.None? then old(db).(pointer := Some(PointerFor(action))) else old(db)
      ensures error == Some(SEQ_NOT_NEXT) <==> action.body.seqNo != 1 + match head case Some(p) => p.headSeq case None => 0
      ensures error == None ==> (head.None? <==> old(db).pointer.None?)
      ensures error == None && head.Some? ==> head.value.headSeq == old(db).pointer.value.headSeq
      ensures error == None ==>
        && db.pointer.value.currentSnapshotId == action.body.fields.newSnapshotId && db.pointer.value.status == action.body.fields.newStatus
        && db.pointer.value.headSeq == action.body.seqNo && db.pointer.value.headHash == action.hash
    {
      if action.body.seqNo != HeadSeq(head) + 1 {
        return Some(SEQ_NOT_NEXT);
      }
      if head.None? {
        if db.pointer.Some? {
          return Some(CONCURRENT_DECISION);
        }
      } else if db.pointer.None? || db.pointer.value.headSeq != head.value.headSeq {
        return Some(CONCURRENT_DECISION);
      }
      db := db.(pointer := Some(PointerFor(action)));
      error := None;
    }
  }

  // ---- verifyChain over the stored documents ----

  /** Stands for the key '\0none', which no action cites. */
  function Uncited(actions: seq<Action>): (id: SnapshotId)
    ensures forall a | a in actions :: a.body.fields.newSnapshotId < id
  {
    if actions == [] then 0
    else
      var rest := Uncited(actions[1..]);
      if actions[0].body.fields.newSnapshotId < rest then rest else actions[0].body.fields.newSnapshotId + 1
  }

  /** The stored snapshots the actions cite; never the empty map, which would switch the check off. */
  function Cited(db: Db): (m: map<SnapshotId, StoredSnapshot>)
    ensures m != map[]
    ensures forall a | a in db.actions ::
      a.body.fields.newSnapshotId in m <==> a.body.fields.newSnapshotId in db.snapshots
    ensures forall a | a in db.actions && a.body.fields.newSnapshotId in m ::
      m[a.body.fields.newSnapshotId] == db.snapshots[a.body.fields.newSnapshotId]
  {
    var cited := map a | a in db.actions && a.body.fields.newSnapshotId in db.snapshots ::
      a.body.fields.newSnapshotId := db.snapshots[a.body.fields.newSnapshotId];
    if cited == map[] then
      var none := Uncited(db.actions);
      assert none in map[none := StoredSnapshot(Nothing(), "")];
      map[none := StoredSnapshot(Nothing(), "")]
    else cited
  }

  function Nothing(): Snapshot {
    Snapshots.Snapshot(Snapshots.RULE_BASED, [], [], None, None, Canonical.CNull, Canonical.CNull, Canonical.CNull, "", "")
  }

  /** Action i follows its predecessor, and the snapshot it cites is stored and intact. */
  predicate StoredLinkOk(hash: Doc -> Hash, s: seq<Action>, i: nat, snapshots: map<SnapshotId, StoredSnapshot>)
    requires i < |s|
  {
    var f := s[i].body.fields;
    && s[i].body.seqNo == i + 1
    && s[i].body.prevHash == PrevHashAt(s, i)
    && hash(ActionDoc(s[i].body)) == s[i].hash
    && f.newSnapshotId in snapshots
    && snapshots[f.newSnapshotId].contentHash == hash(SnapshotDoc(snapshots[f.newSnapshotId].content)) == f.newSnapshotHash
  }

  /** An intact history: every action, in sequence order, and the head agree with what is stored. */
  ghost predicate Accepted(hash: Doc -> Hash, db: Db) {
    var sorted := SortByKey(db.actions, SeqOf());
    (forall i | 0 <= i < |sorted| :: StoredLinkOk(hash, sorted, i, db.snapshots)) && PointerOk(sorted, db.pointer)
  }

  lemma CitedChain(hash: Doc -> Hash, db: Db)
    ensures ChainOk(hash, SortByKey(db.actions, SeqOf()), Cited(db), db.pointer) <==> Accepted(hash, db)
  {
    var sorted := SortByKey(db.actions, SeqOf());
    SameMembers(sorted, db.actions);
    forall i | 0 <= i < |sorted| ensures LinkOk(hash, sorted, i, Cited(db)) <==> StoredLinkOk(hash, sorted, i, db.snapshots) {
      assert sorted[i] in db.actions;
    }
    if ChainOk(hash, sorted, Cited(db), db.pointer) {
      forall i | 0 <= i < |sorted| ensures StoredLinkOk(hash, sorted, i, db.snapshots) {
        assert LinkOk(hash, sorted, i, Cited(db));
      }
    }
  }

  method VerifyStoredChain(hash: Doc -> Hash, db: Db) returns (r: Verdict)
    ensures r.Valid? <==> Accepted(hash, db)
  {
    CitedChain(hash, db);
    if db.actions == [] && db.pointer.None? {
      assert SortByKey(db.actions, SeqOf()) == [];
      return Valid;
    }
    r := VerifyChain(hash, db.actions, Cited(db), db.pointer);
  }
}
