/**
 * Batch stock against the entries recorded for it: the stock counter of a batch
 * is meant to equal the sum of the quantities of the entries naming its key.
 */
module Stock {
  import opened Records

  /** What entry e adds to the stock of the batch with key k. */
  function Contribution(e: Entry, k: BatchKey): int {
    if EntryKey(e) == k then e.quantity else 0
  }

  /** Sum of the quantities of the entries of the store that name key k. */
  ghost function StockOf(entries: map<EntryId, Entry>, k: BatchKey): int
    decreases |entries|
  {
    if entries == map[] then 0
    else
      var id :| id in entries;
      Contribution(entries[id], k) + StockOf(entries - {id}, k)
  }

  /**
   * Every batch's stock is the sum of its entries' quantities, and every
   * entry names a batch that exists.
   */
  ghost predicate Consistent(batches: map<BatchKey, Batch>, entries: map<EntryId, Entry>) {
    && (forall k :: k in batches ==> batches[k].stock == StockOf(entries, k))
    && (forall id :: id in entries ==> EntryKey(entries[id]) in batches)
  }

  /** The sum does not depend on which entry is taken out first. */
  lemma {:induction false} StockOfRemove(entries: map<EntryId, Entry>, id: EntryId, k: BatchKey)
    requires id in entries
    ensures StockOf(entries, k) == Contribution(entries[id], k) + StockOf(entries - {id}, k)
    decreases |entries|
  {
    var y :| y in entries && StockOf(entries, k) == Contribution(entries[y], k) + StockOf(entries - {y}, k);
    if y != id {
      var rest := entries - {y} - {id};
      assert entries - {id} - {y} == rest;
      StockOfRemove(entries - {y}, id, k);
      StockOfRemove(entries - {id}, y, k);
    }
  }

  /** Adding an entry under a fresh id adds its contribution. */
  lemma StockOfInsert(entries: map<EntryId, Entry>, e: Entry, k: BatchKey)
    requires e.id !in entries
    ensures StockOf(entries[e.id := e], k) == Contribution(e, k) + StockOf(entries, k)
  {
    var m := entries[e.id := e];
    StockOfRemove(m, e.id, k);
    assert m - {e.id} == entries;
  }

  /** A key no entry names has no stock recorded against it. */
  lemma {:induction false} StockOfUnnamed(entries: map<EntryId, Entry>, k: BatchKey)
    requires forall id :: id in entries ==> EntryKey(entries[id]) != k
    ensures StockOf(entries, k) == 0
    decreases |entries|
  {
    if entries != map[] {
      var id :| id in entries;
      StockOfRemove(entries, id, k);
      StockOfUnnamed(entries - {id}, k);
    }
  }

  /** Restock: a new entry for an existing batch together with the increment keeps stock consistent. */
  lemma RestockKeepsConsistent(batches: map<BatchKey, Batch>, entries: map<EntryId, Entry>, e: Entry)
    requires Consistent(batches, entries)
    requires e.id !in entries && EntryKey(e) in batches && e.quantity > 0
    ensures var k := EntryKey(e);
      Consistent(batches[k := Raised(batches[k], e.quantity)], entries[e.id := e])
  {
    var k := EntryKey(e);
    var batches' := batches[k := Raised(batches[k], e.quantity)];
    forall k' | k' in batches'
      ensures batches'[k'].stock == StockOf(entries[e.id := e], k')
    {
      StockOfInsert(entries, e, k');
    }
  }

  /** Opening a lot: a new batch holding exactly the quantity of its first entry keeps stock consistent. */
  lemma OpenLotKeepsConsistent(batches: map<BatchKey, Batch>, entries: map<EntryId, Entry>, b: Batch, e: Entry)
    requires Consistent(batches, entries)
    requires KeyOf(b) !in batches && EntryKey(e) == KeyOf(b)
    requires e.id !in entries && b.stock == e.quantity
    ensures Consistent(batches[KeyOf(b) := b], entries[e.id := e])
  {
    var batches' := batches[KeyOf(b) := b];
    forall k | k in batches'
      ensures batches'[k].stock == StockOf(entries[e.id := e], k)
    {
      StockOfInsert(entries, e, k);
      if k == KeyOf(b) {
        StockOfUnnamed(entries, k);
      }
    }
  }

  /** Deleting an entry that moved stock leaves its batch's counter out of step. */
  lemma DeleteBreaksConsistency(batches: map<BatchKey, Batch>, entries: map<EntryId, Entry>, id: EntryId)
    requires Consistent(batches, entries)
    requires id in entries && entries[id].quantity != 0
    ensures !Consistent(batches, entries - {id})
  {
    var k := EntryKey(entries[id]);
    StockOfRemove(entries, id, k);
    assert batches[k].stock != StockOf(entries - {id}, k);
  }

  /** Patching the quantity of an entry leaves its batch's counter out of step. */
  lemma QuantityPatchBreaksConsistency(batches: map<BatchKey, Batch>, entries: map<EntryId, Entry>, id: EntryId, q: int)
    requires Consistent(batches, entries)
    requires id in entries && entries[id].quantity != q
    ensures var p := Patched(entries[id], EntryPatch(Wrappers.None, Wrappers.Some(q)));
      !Consistent(batches, entries[id := p])
  {
    var e := entries[id];
    var p := Patched(e, EntryPatch(Wrappers.None, Wrappers.Some(q)));
    var k := EntryKey(e);
    var entries' := entries[id := p];
    StockOfRemove(entries, id, k);
    StockOfRemove(entries', id, k);
    assert entries' - {id} == entries - {id};
    assert batches[k].stock != StockOf(entries', k);
  }
}
