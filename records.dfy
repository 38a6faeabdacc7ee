/**
 * The records of the three stores: products (read only here), batches keyed by
 * (product id, batch number), and entries keyed by entry id.
 */
module Records {
  import opened Wrappers

  type ProductId = string
  type EntryId = string

  datatype Product = Product(id: ProductId, name: string)

  /** The {id, name} copy of a product that batches and entries embed at write time. */
  datatype ProductRef = ProductRef(id: ProductId, name: string)

  /** The composite key under which a batch is found. */
  datatype BatchKey = BatchKey(productId: ProductId, batchNumber: string)

  /** A lot of a product; the expiry date is kept as the text the caller sent. */
  datatype Batch = Batch(product: ProductRef, stock: nat, batchNumber: string, expiryDate: string)

  /** The batch snapshot an entry embeds: product copy and batch number, no live link. */
  datatype BatchRef = BatchRef(product: ProductRef, batchNumber: string)

  /** One recorded stock movement. */
  datatype Entry = Entry(id: EntryId, batch: BatchRef, quantity: int)

  /** A field-level patch of an entry: each present field replaces the stored one. */
  datatype EntryPatch = EntryPatch(batch: Option<BatchRef>, quantity: Option<int>)

  function Snapshot(p: Product): ProductRef {
    ProductRef(p.id, p.name)
  }

  function KeyOf(b: Batch): BatchKey {
    BatchKey(b.product.id, b.batchNumber)
  }

  /** The key of the batch an entry's snapshot names. */
  function EntryKey(e: Entry): BatchKey {
    BatchKey(e.batch.product.id, e.batch.batchNumber)
  }

  /** A batch after an atomic increment of its stock by q: nothing else about it changes. */
  function Raised(b: Batch, q: nat): (r: Batch)
    ensures r.product == b.product && r.batchNumber == b.batchNumber && r.expiryDate == b.expiryDate
    ensures r.stock == b.stock + q
  {
    b.(stock := b.stock + q)
  }

  /** The record `findByIdAndUpdate(id, patch, { new: true })` stores and returns. */
  function Patched(e: Entry, p: EntryPatch): (r: Entry)
    ensures r.id == e.id
    ensures p.batch.Some? ==> r.batch == p.batch.value
    ensures p.batch.None? ==> r.batch == e.batch
    ensures p.quantity.Some? ==> r.quantity == p.quantity.value
    ensures p.quantity.None? ==> r.quantity == e.quantity
  {
    Entry(
      e.id,
      if p.batch.Some? then p.batch.value else e.batch,
      if p.quantity.Some? then p.quantity.value else e.quantity)
  }
}
