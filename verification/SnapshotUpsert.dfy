/**
 Content-hash upserts (server/src/repositories/internal/snapshotUpsert.js): a document's data and its
 lastChanged marks move only when the content hash differs, everything else on every write. The hash is
 a parameter; `D` is the data of one document.
 */
module SnapshotUpsert {
  import opened Wrappers
  import opened SyncRuns

  /** A deterministic _id, unique in its collection. */
  type Id = int
  type Hash = string
  type Millis = nat

  /** One write of a run: run.runId, run.at. */
  datatype Stamp = Stamp(runId: RunId, at: Millis)

  datatype Provenance = Provenance(
    lastConfirmed: Stamp,
    lastChanged: Stamp,
    contentHash: Hash,
    sourceRequests: map<string, Hash>,
    settled: bool)

  datatype Stored<D> = Stored(data: D, provenance: Provenance)

  datatype Item<D> = Item(id: Id, data: D, sourceRequests: map<string, Hash>, settled: bool)

  datatype SettledChange = SettledChange(id: Id, oldHash: Hash, newHash: Hash)

  datatype Lists = Lists(inserted: seq<Id>, changed: seq<Id>, unchangedIds: seq<Id>, settledRowChanges: seq<SettledChange>)

  type Docs<D> = map<Id, Stored<D>>

  function HashOf<D>(docs: Docs<D>, id: Id): Option<Hash> {
    if id in docs then Some(docs[id].provenance.contentHash) else None
  }

  /** The update pipeline of one document: `changed` compares the stored hash with the new one. */
  function Written<D>(hash: D -> Hash, docs: Docs<D>, item: Item<D>, stamp: Stamp): Stored<D> {
    var contentHash := hash(item.data);
    if HashOf(docs, item.id) == Some(contentHash)
    then Stored(docs[item.id].data, Provenance(stamp, docs[item.id].provenance.lastChanged, contentHash, item.sourceRequests, item.settled))
    else Stored(item.data, Provenance(stamp, stamp, contentHash, item.sourceRequests, item.settled))
  }

  /** The ordered bulkWrite. */
  function WriteAll<D>(hash: D -> Hash, docs: Docs<D>, items: seq<Item<D>>, stamp: Stamp): Docs<D> {
    if items == [] then docs
    else
      var n := |items| - 1;
      var before := WriteAll(hash, docs, items[..n], stamp);
      before[items[n].id := Written(hash, before, items[n], stamp)]
  }

  predicate DistinctItems<D>(items: seq<Item<D>>) {
    forall i, j | 0 <= i < j < |items| :: items[i].id != items[j].id
  }

  predicate HasId<D>(items: seq<Item<D>>, id: Id) {
    exists k :: 0 <= k < |items| && items[k].id == id
  }

  /** A batch of distinct documents writes each of them once, on what was stored, and no other. */
  lemma {:induction false} WriteAllAt<D>(hash: D -> Hash, docs: Docs<D>, items: seq<Item<D>>, stamp: Stamp, id: Id)
    requires DistinctItems(items)
    ensures !HasId(items, id) ==>
      (id in WriteAll(hash, docs, items, stamp) <==> id in docs)
      && (id in docs ==> WriteAll(hash, docs, items, stamp)[id] == docs[id])
    ensures forall k | 0 <= k < |items| && items[k].id == id ::
      id in WriteAll(hash, docs, items, stamp) && WriteAll(hash, docs, items, stamp)[id] == Written(hash, docs, items[k], stamp)
  {
    if items != [] {
      var n := |items| - 1;
      WriteAllAt(hash, docs, items[..n], stamp, id);
      if items[n].id == id {
        assert !HasId(items[..n], id);
      } else {
        assert HasId(items[..n], id) ==> HasId(items, id) by {
          if HasId(items[..n], id) {
            var k :| 0 <= k < n && items[..n][k].id == id;
            assert items[k].id == id;
          }
        }
        assert forall k | 0 <= k < n :: items[..n][k] == items[k];
      }
    }
  }

  // ---- the outcome lists ----

  predicate IsInserted<D>(docs: Docs<D>, item: Item<D>) {
    item.id !in docs
  }

  predicate IsUnchanged<D>(hash: D -> Hash, docs: Docs<D>, item: Item<D>) {
    item.id in docs && docs[item.id].provenance.contentHash == hash(item.data)
  }

  predicate IsChanged<D>(hash: D -> Hash, docs: Docs<D>, item: Item<D>) {
    item.id in docs && docs[item.id].provenance.contentHash != hash(item.data)
  }

  function ListOf<D>(hash: D -> Hash, docs: Docs<D>, items: seq<Item<D>>): Lists {
    if items == [] then Lists([], [], [], [])
    else
      var n := |items| - 1;
      var l, item := ListOf(hash, docs, items[..n]), items[n];
      if IsInserted(docs, item) then l.(inserted := l.inserted + [item.id])
      else if IsUnchanged(hash, docs, item) then l.(unchangedIds := l.unchangedIds + [item.id])
      else if docs[item.id].provenance.settled
      then l.(changed := l.changed + [item.id],
              settledRowChanges := l.settledRowChanges + [SettledChange(item.id, docs[item.id].provenance.contentHash, hash(item.data))])
      else l.(changed := l.changed + [item.id])
  }

  /** What each list says of an id. */
  lemma {:induction false} ListsSay<D(!new)>(hash: D -> Hash, docs: Docs<D>, items: seq<Item<D>>, item: Item<D>)
    requires DistinctItems(items) && item in items
    ensures var l := ListOf(hash, docs, items);
      && (item.id in l.inserted <==> IsInserted(docs, item))
      && (item.id in l.changed <==> IsChanged(hash, docs, item))
      && (item.id in l.unchangedIds <==> IsUnchanged(hash, docs, item))
  {
    var n := |items| - 1;
    if item == items[n] {
      NotListed(hash, docs, items[..n], item.id);
    } else {
      assert item in items[..n] by {
        var k :| 0 <= k < |items| && items[k] == item;
        assert items[..n][k] == item;
      }
      ListsSay(hash, docs, items[..n], item);
      assert item.id != items[n].id;
    }
  }

  lemma {:induction false} NotListed<D>(hash: D -> Hash, docs: Docs<D>, items: seq<Item<D>>, id: Id)
    requires forall k | 0 <= k < |items| :: items[k].id != id
    ensures var l := ListOf(hash, docs, items); id !in l.inserted && id !in l.changed && id !in l.unchangedIds
  {
    if items != [] {
      NotListed(hash, docs, items[..|items| - 1], id);
    }
  }

  /** settledRowChanges lists exactly the settled documents whose content changed, with both hashes. */
  lemma {:induction false} SettledChangesAre<D(!new)>(hash: D -> Hash, docs: Docs<D>, items: seq<Item<D>>, c: SettledChange)
    ensures c in ListOf(hash, docs, items).settledRowChanges <==>
      exists item :: item in items && IsChanged(hash, docs, item) && docs[item.id].provenance.settled
        && c == SettledChange(item.id, docs[item.id].provenance.contentHash, hash(item.data))
  {
    if items != [] {
      var n := |items| - 1;
      SettledChangesAre(hash, docs, items[..n], c);
      assert items == items[..n] + [items[n]];
    }
  }

  /** One collection of snapshot documents. */
  class Collection<D(==)> {
    var docs: Docs<D>

    constructor ()
      ensures docs == map[]
    {
      docs := map[];
    }

    /** upsertSnapshots: a duplicate id in the batch is an error and nothing is written. */
    method UpsertSnapshots(hash: D -> Hash, items: seq<Item<D>>, stamp: Stamp) returns (r: Result<Lists, string>)
      modifies this
      ensures r.Ok? <==> DistinctItems(items)
      ensures docs == if r.Ok? then WriteAll(hash, old(docs), items, stamp) else old(docs)
      ensures r.Ok? ==> r.value == ListOf(hash, old(docs), items)
    {
      var seen := {};
      for k := 0 to |items|
        invariant docs == old(docs) && DistinctItems(items[..k])
        invariant forall id :: id in seen <==> HasId(items[..k], id)
      {
        if items[k].id in seen {
          var j :| 0 <= j < k && items[..k][j].id == items[k].id;
          assert items[j].id == items[k].id;
          return Err("duplicate _id in one snapshot batch");
        }
        forall id ensures HasId(items[..k + 1], id) <==> HasId(items[..k], id) || id == items[k].id {
          HasIdOfNext(items, k, id);
        }
        NextIsDistinct(items, k);
        seen := seen + {items[k].id};
      }
      assert items[..|items|] == items;
      var existing := docs;
      WriteEach(hash, items, stamp);
      var lists := ListEach(hash, existing, items);
      r := Ok(lists);
    }

    method WriteEach(hash: D -> Hash, items: seq<Item<D>>, stamp: Stamp)
      modifies this
      ensures docs == WriteAll(hash, old(docs), items, stamp)
    {
      for k := 0 to |items|
        invariant docs == WriteAll(hash, old(docs), items[..k], stamp)
      {
        var item := items[k];
        var contentHash := hash(item.data);
        var changed := HashOf(docs, item.id) != Some(contentHash);
        assert items[..k + 1][..k] == items[..k];
        docs := docs[item.id := Stored(
          if changed then item.data else docs[item.id].data,
          Provenance(stamp, if changed then stamp else docs[item.id].provenance.lastChanged, contentHash, item.sourceRequests, item.settled))];
      }
      assert items[..|items|] == items;
    }
  }

  lemma HasIdOfNext<D>(items: seq<Item<D>>, k: nat, id: Id)
    requires k < |items|
    ensures HasId(items[..k + 1], id) <==> HasId(items[..k], id) || id == items[k].id
  {
  }

  lemma NextIsDistinct<D>(items: seq<Item<D>>, k: nat)
    requires k < |items| && DistinctItems(items[..k]) && !HasId(items[..k], items[k].id)
    ensures DistinctItems(items[..k + 1])
  {
  }

  method ListEach<D(==)>(hash: D -> Hash, existing: Docs<D>, items: seq<Item<D>>) returns (l: Lists)
    ensures l == ListOf(hash, existing, items)
  {
    l := Lists([], [], [], []);
    for k := 0 to |items|
      invariant l == ListOf(hash, existing, items[..k])
    {
      var item := items[k];
      assert items[..k + 1][..k] == items[..k];
      if item.id !in existing {
        l := l.(inserted := l.inserted + [item.id]);
      } else if existing[item.id].provenance.contentHash == hash(item.data) {
        l := l.(unchangedIds := l.unchangedIds + [item.id]);
      } else {
        l := l.(changed := l.changed + [item.id]);
        if existing[item.id].provenance.settled {
          l := l.(settledRowChanges := l.settledRowChanges + [SettledChange(item.id, existing[item.id].provenance.contentHash, hash(item.data))]);
        }
      }
    }
    assert items[..|items|] == items;
  }

  // ---- the history of one document ----

  datatype Write<D> = Write(item: Item<D>, stamp: Stamp)

  /** The document after the writes of one id, none before the first. */
  function DocAfter<D>(hash: D -> Hash, writes: seq<Write<D>>): Option<Stored<D>> {
    if writes == [] then None
    else
      var n := |writes| - 1;
      var w := writes[n];
      Some(match DocAfter(hash, writes[..n])
        case Some(before) => Written(hash, map[w.item.id := before], w.item, w.stamp)
        case None => Written(hash, map[], w.item, w.stamp))
  }

  /** Write k begins the unbroken block of equal hashes at the end. */
  ghost predicate BeginsBlock<D>(hash: D -> Hash, writes: seq<Write<D>>, k: int) {
    && 0 <= k < |writes|
    && (forall i | k <= i < |writes| :: hash(writes[i].item.data) == hash(writes[k].item.data))
    && (k > 0 ==> hash(writes[k - 1].item.data) != hash(writes[k].item.data))
  }

  /** The document in terms of its last write and of the write that began the current block. */
  ghost predicate Describes<D>(hash: D -> Hash, doc: Stored<D>, writes: seq<Write<D>>, k: nat)
    requires k < |writes|
  {
    var last := writes[|writes| - 1];
    && doc.data == writes[k].item.data
    && doc.provenance == Provenance(last.stamp, writes[k].stamp, hash(last.item.data), last.item.sourceRequests, last.item.settled)
  }

  /** With any hash: contentHash and confirmation are the last write's; data and lastChanged are the block's first. */
  lemma {:induction false} DocIsBlock<D>(hash: D -> Hash, writes: seq<Write<D>>) returns (k: nat)
    requires writes != []
    ensures BeginsBlock(hash, writes, k) && DocAfter(hash, writes).Some?
    ensures Describes(hash, DocAfter(hash, writes).value, writes, k)
  {
    var n := |writes| - 1;
    k := n;
    if n > 0 {
      var before := writes[..n];
      var j := DocIsBlock(hash, before);
      assert before[n - 1] == writes[n - 1] && before[j] == writes[j];
      if hash(writes[n - 1].item.data) == hash(writes[n].item.data) {
        k := j;
        forall i | j <= i < |writes| ensures hash(writes[i].item.data) == hash(writes[j].item.data) {
          if i < n {
            assert before[i] == writes[i];
          }
        }
        assert j > 0 ==> before[j - 1] == writes[j - 1];
      }
    }
  }

  ghost predicate CollisionFree<D(!new)>(hash: D -> Hash) {
    forall x, y | hash(x) == hash(y) :: x == y
  }

  /**
   Under a collision-free hash the upsert refines plain replacement: the stored data is the last data
   written and contentHash is its hash; lastConfirmed is the last write; lastChanged is the first write
   of the current unbroken run of equal data.
   */
  lemma {:induction false} UpsertRefinesReplacement<D(!new)>(hash: D -> Hash, writes: seq<Write<D>>)
    requires CollisionFree(hash) && writes != []
    ensures DocAfter(hash, writes).Some?
    ensures var doc, last := DocAfter(hash, writes).value, writes[|writes| - 1];
      && doc.data == last.item.data
      && doc.provenance.contentHash == hash(doc.data)
      && doc.provenance.lastConfirmed == last.stamp
      && doc.provenance.settled == last.item.settled
      && exists k :: 0 <= k < |writes|
           && doc.provenance.lastChanged == writes[k].stamp
           && (forall i | k <= i < |writes| :: writes[i].item.data == doc.data)
           && (k > 0 ==> writes[k - 1].item.data != doc.data)
  {
    var k := DocIsBlock(hash, writes);
    assert hash(writes[|writes| - 1].item.data) == hash(writes[k].item.data);
    forall i | k <= i < |writes| ensures writes[i].item.data == writes[k].item.data {
      assert hash(writes[i].item.data) == hash(writes[k].item.data);
    }
  }

  // ---- the history of a collection ----

  datatype WriteBatch<D> = WriteBatch(items: seq<Item<D>>, stamp: Stamp)

  /** The collection after upsertSnapshots of every batch; a refused batch writes nothing. */
  function DocsAfter<D>(hash: D -> Hash, batches: seq<WriteBatch<D>>): Docs<D> {
    if batches == [] then map[]
    else
      var n := |batches| - 1;
      var before := DocsAfter(hash, batches[..n]);
      if DistinctItems(batches[n].items) then WriteAll(hash, before, batches[n].items, batches[n].stamp) else before
  }

  /** The write of this id in a batch: none, or the one there is. */
  ghost function WriteTo<D>(batch: WriteBatch<D>, id: Id): seq<Write<D>> {
    if k :| 0 <= k < |batch.items| && batch.items[k].id == id then [Write(batch.items[k], batch.stamp)] else []
  }

  ghost function WritesTo<D>(batches: seq<WriteBatch<D>>, id: Id): seq<Write<D>> {
    if batches == [] then []
    else
      var n := |batches| - 1;
      WritesTo(batches[..n], id) + (if DistinctItems(batches[n].items) then WriteTo(batches[n], id) else [])
  }

  function At<D>(docs: Docs<D>, id: Id): Option<Stored<D>> {
    if id in docs then Some(docs[id]) else None
  }

  /** A write depends on the stored document of its id alone. */
  lemma OneWrite<D>(hash: D -> Hash, docs: Docs<D>, w: Write<D>, writes: seq<Write<D>>)
    requires At(docs, w.item.id) == DocAfter(hash, writes)
    ensures DocAfter(hash, writes + [w]) == Some(Written(hash, docs, w.item, w.stamp))
  {
    assert (writes + [w])[..|writes|] == writes;
  }

  lemma WriteToIs<D>(batch: WriteBatch<D>, k: nat)
    requires DistinctItems(batch.items) && k < |batch.items|
    ensures WriteTo(batch, batch.items[k].id) == [Write(batch.items[k], batch.stamp)]
  {
  }

  lemma OneBatch<D>(hash: D -> Hash, docs: Docs<D>, batch: WriteBatch<D>, writes: seq<Write<D>>, id: Id)
    requires DistinctItems(batch.items) && At(docs, id) == DocAfter(hash, writes)
    ensures At(WriteAll(hash, docs, batch.items, batch.stamp), id) == DocAfter(hash, writes + WriteTo(batch, id))
  {
    WriteAllAt(hash, docs, batch.items, batch.stamp, id);
    if HasId(batch.items, id) {
      var k :| 0 <= k < |batch.items| && batch.items[k].id == id;
      WriteToIs(batch, k);
      OneWrite(hash, docs, Write(batch.items[k], batch.stamp), writes);
    } else {
      assert writes + WriteTo(batch, id) == writes;
    }
  }

  /** After any sequence of batches a collection holds, of each id, what that id's own writes leave. */
  lemma {:induction false} CollectionHoldsWrites<D>(hash: D -> Hash, batches: seq<WriteBatch<D>>, id: Id)
    ensures At(DocsAfter(hash, batches), id) == DocAfter(hash, WritesTo(batches, id))
  {
    if batches != [] {
      var n := |batches| - 1;
      CollectionHoldsWrites(hash, batches[..n], id);
      if DistinctItems(batches[n].items) {
        OneBatch(hash, DocsAfter(hash, batches[..n]), batches[n], WritesTo(batches[..n], id), id);
      } else {
        assert WritesTo(batches, id) == WritesTo(batches[..n], id);
      }
    }
  }

  /** An unchanged report means the data was already stored; a changed one that it was not. */
  lemma ReportsCompareData<D(!new)>(hash: D -> Hash, docs: Docs<D>, item: Item<D>)
    requires CollisionFree(hash)
    requires HashesMatch(hash, docs)
    ensures IsUnchanged(hash, docs, item) <==> item.id in docs && docs[item.id].data == item.data
    ensures IsChanged(hash, docs, item) <==> item.id in docs && docs[item.id].data != item.data
  {
  }

  /** Every stored document carries the hash of its data, as UpsertRefinesReplacement shows. */
  ghost predicate HashesMatch<D>(hash: D -> Hash, docs: Docs<D>) {
    forall id | id in docs :: docs[id].provenance.contentHash == hash(docs[id].data)
  }

  /** After a batch each of its documents holds the data written, and every hash still matches. */
  lemma {:induction false} DataAfterBatch<D(!new)>(hash: D -> Hash, docs: Docs<D>, items: seq<Item<D>>, stamp: Stamp, id: Id)
    requires CollisionFree(hash) && HashesMatch(hash, docs) && DistinctItems(items)
    ensures var after := WriteAll(hash, docs, items, stamp);
      && (forall k | 0 <= k < |items| && items[k].id == id :: id in after && after[id].data == items[k].data)
      && (!HasId(items, id) ==> (id in after <==> id in docs) && (id in docs ==> after[id] == docs[id]))
      && (id in after ==> after[id].provenance.contentHash == hash(after[id].data))
  {
    WriteAllAt(hash, docs, items, stamp, id);
    if HasId(items, id) {
      var k :| 0 <= k < |items| && items[k].id == id;
      assert WriteAll(hash, docs, items, stamp)[id] == Written(hash, docs, items[k], stamp);
    }
  }
}
