/**
 * The stock-entry controller: the handlers getEntries, createEntry, updateEntry
 * and deleteEntry over the product, batch and entry stores. Each handler is one
 * sequential step; its HTTP reply becomes a `Result`.
 */
module InputController {
  import opened Wrappers
  import opened Decimal
  import opened JsonValue
  import opened Records
  import opened Stock

  /** The body of a create request. Text fields use "" for both absent and empty. */
  datatype EntryRequest = EntryRequest(productId: ProductId, batchNumber: string, quantity: Value, expiryDate: string)

  /**
   * The failures the handlers report. InvalidQuantity, ProductNotFound and
   * BatchMissingExpiry are the controller's errorCode 0, 1 and 2.
   */
  datatype ErrorKind = MissingField | InvalidQuantity | ProductNotFound | BatchMissingExpiry | EntryNotFound | MissingId

  datatype Result<+T> = Ok(value: T) | Err(error: ErrorKind)

  /** successCode 1 (restock of an existing lot) and successCode 2 (a new lot opened). */
  datatype Created = EntryOnly(entry: Entry) | BatchAndEntry(batch: Batch, entry: Entry)

  /** What a delete reports: the number of entries a bulk delete removed, or the id removed. */
  datatype Deleted = DeletedAll(deletedCount: nat) | DeletedOne(id: EntryId)

  /** The route parameter that selects a bulk delete. */
  const AllSentinel: string := "all"

  /**
   * The presence test on the required fields, by JavaScript truthiness. It
   * refuses a quantity only when `Number` of it is 0 or NaN, so it never
   * refuses a quantity the quantity test would accept.
   */
  predicate HasRequiredFields(req: EntryRequest)
    ensures HasRequiredFields(req) <==>
      req.productId != "" && req.batchNumber != "" && req.quantity !in {Undefined, Null, Bool(false), Num(0.0), Str("")}
    ensures req.productId != "" && req.batchNumber != "" && !HasRequiredFields(req)
      ==> ToNumber(req.quantity).None? || ToNumber(req.quantity).value == 0.0
  {
    req.productId != "" && req.batchNumber != "" && Truthy(req.quantity)
  }

  /** Entry ids drawn from the counter: non-empty digit strings. */
  predicate IsDecimalId(id: string) {
    |id| > 0 && AllDigits(id)
  }

  function RequestKey(req: EntryRequest): BatchKey {
    BatchKey(req.productId, req.batchNumber)
  }

  /**
   * The quantity when `Number(v)` is an integer greater than 0. Such a value is
   * always truthy, so it never trips the presence test.
   */
  function ParseQuantity(v: Value): (q: Option<nat>)
    ensures q.Some? ==> q.value > 0 && ToNumber(v) == Some(q.value as real)
    ensures q.None? ==> ToNumber(v).None? || ToNumber(v).value <= 0.0
                        || ToNumber(v).value.Floor as real < ToNumber(v).value
    ensures q.Some? ==> Truthy(v)
  {
    match ToNumber(v)
    case Some(x) => if x > 0.0 && x == x.Floor as real then Some(x.Floor) else None
    case None => None
  }

  /** A positive quantity sent as decimal text, within the exact range, is accepted as that number. */
  lemma QuantityTextAccepted(n: nat)
    requires 0 < n <= MaxExactInteger
    ensures ParseQuantity(Str(DecimalText(n))) == Some(n)
  {
    DecimalTextToNumber(n);
  }

  class Inventory {
    /** The product catalog, which the controller only reads. */
    const products: map<ProductId, Product>
    var batches: map<BatchKey, Batch>
    var entries: map<EntryId, Entry>
    /** The counter from which fresh entry ids are drawn. */
    var nextId: nat

    ghost predicate Valid()
      reads this
    {
      && (forall id :: id in products ==> products[id].id == id)
      && (forall k :: k in batches ==> KeyOf(batches[k]) == k)
      && (forall id :: id in entries ==> entries[id].id == id && IsDecimalId(id) && DigitsValue(id) < nextId)
    }

    ghost predicate StockConsistent()
      reads this
    {
      Consistent(batches, entries)
    }

    constructor (catalog: map<ProductId, Product>, lots: map<BatchKey, Batch>)
      requires forall id :: id in catalog ==> catalog[id].id == id
      requires forall k :: k in lots ==> KeyOf(lots[k]) == k
      ensures Valid()
      ensures products == catalog && batches == lots && entries == map[] && nextId == 0
      ensures (forall k :: k in lots ==> lots[k].stock == 0) ==> StockConsistent()
    {
      products := catalog;
      batches := lots;
      entries := map[];
      nextId := 0;
    }

    /** Draws a fresh entry id from the counter. */
    method NewEntryId() returns (id: EntryId)
      requires Valid()
      modifies this`nextId
      ensures Valid()
      ensures id == DecimalText(old(nextId)) && id !in entries && IsDecimalId(id) && DigitsValue(id) < nextId
      ensures nextId == old(nextId) + 1
    {
      id := DecimalText(nextId);
      DecimalTextValue(nextId);
      nextId := nextId + 1;
    }

    /** getEntries: the whole entry store. */
    method GetEntries() returns (all: map<EntryId, Entry>)
      ensures all == entries
    {
      all := entries;
    }

    /** createEntry: validate, then restock an existing lot or open a new one. */
    method CreateEntry(req: EntryRequest) returns (r: Result<Created>)
      requires Valid()
      modifies this
      ensures Valid()
      ensures !HasRequiredFields(req) ==> r == Err(MissingField)
      ensures HasRequiredFields(req) && ParseQuantity(req.quantity).None? ==> r == Err(InvalidQuantity)
      ensures HasRequiredFields(req) && ParseQuantity(req.quantity).Some? && req.productId !in products
        ==> r == Err(ProductNotFound)
      ensures HasRequiredFields(req) && ParseQuantity(req.quantity).Some? && req.productId in products
              && RequestKey(req) !in old(batches) && req.expiryDate == ""
        ==> r == Err(BatchMissingExpiry)
      ensures r.Err? ==> batches == old(batches) && entries == old(entries) && nextId == old(nextId)
      ensures HasRequiredFields(req) && ParseQuantity(req.quantity).Some? && req.productId in products
              && RequestKey(req) in old(batches)
        ==> var k := RequestKey(req);
            var q := ParseQuantity(req.quantity).value;
            var e := Entry(DecimalText(old(nextId)), BatchRef(Snapshot(products[req.productId]), req.batchNumber), q);
            && r == Ok(EntryOnly(e))
            && e.id !in old(entries) && entries == old(entries)[e.id := e]
            && batches == old(batches)[k := Raised(old(batches)[k], q)]
            && nextId == old(nextId) + 1
      ensures HasRequiredFields(req) && ParseQuantity(req.quantity).Some? && req.productId in products
              && RequestKey(req) !in old(batches) && req.expiryDate != ""
        ==> var q := ParseQuantity(req.quantity).value;
            var b := Batch(Snapshot(products[req.productId]), q, req.batchNumber, req.expiryDate);
            var e := Entry(DecimalText(old(nextId)), BatchRef(Snapshot(products[req.productId]), req.batchNumber), q);
            && r == Ok(BatchAndEntry(b, e))
            && batches == old(batches)[RequestKey(req) := b]
            && e.id !in old(entries) && entries == old(entries)[e.id := e]
            && nextId == old(nextId) + 1
      ensures old(StockConsistent()) ==> StockConsistent()
    {
      var quantity := ParseQuantity(req.quantity);
      if !HasRequiredFields(req) {
        return Err(MissingField);
      }
      if quantity.None? {
        return Err(InvalidQuantity);
      }
      var q := quantity.value;
      var key := RequestKey(req);
      if req.productId !in products {
        return Err(ProductNotFound);
      }
      var product := products[req.productId];
      if key in batches {
        var entry := Restock(product, key, q);
        return Ok(EntryOnly(entry));
      } else {
        if req.expiryDate == "" {
          return Err(BatchMissingExpiry);
        }
        var batch, entry := OpenLot(product, req.batchNumber, q, req.expiryDate);
        return Ok(BatchAndEntry(batch, entry));
      }
    }

    /** The restock path: record an entry against an existing lot and raise its stock. */
    method Restock(product: Product, key: BatchKey, q: nat) returns (entry: Entry)
      requires Valid() && product.id == key.productId && key in batches && q > 0
      modifies this`entries, this`batches, this`nextId
      ensures Valid()
      ensures entry == Entry(DecimalText(old(nextId)), BatchRef(Snapshot(product), key.batchNumber), q)
      ensures entry.id !in old(entries) && entries == old(entries)[entry.id := entry]
      ensures batches == old(batches)[key := Raised(old(batches)[key], q)]
      ensures nextId == old(nextId) + 1
      ensures old(StockConsistent()) ==> StockConsistent()
    {
      var batch := batches[key];
      var id := NewEntryId();
      entry := Entry(id, BatchRef(Snapshot(product), batch.batchNumber), q);
      if Consistent(batches, entries) {
        RestockKeepsConsistent(batches, entries, entry);
      }
      entries := entries[id := entry];
      batches := batches[key := Raised(batch, q)];
    }

    /** The open-a-lot path: create the batch with the quantity as its stock, then its first entry. */
    method OpenLot(product: Product, batchNumber: string, q: nat, expiryDate: string) returns (batch: Batch, entry: Entry)
      requires Valid() && BatchKey(product.id, batchNumber) !in batches && q > 0
      modifies this`entries, this`batches, this`nextId
      ensures Valid()
      ensures batch == Batch(Snapshot(product), q, batchNumber, expiryDate)
      ensures entry == Entry(DecimalText(old(nextId)), BatchRef(Snapshot(product), batchNumber), q)
      ensures batches == old(batches)[KeyOf(batch) := batch]
      ensures entry.id !in old(entries) && entries == old(entries)[entry.id := entry]
      ensures nextId == old(nextId) + 1
      ensures old(StockConsistent()) ==> StockConsistent()
    {
      batch := Batch(Snapshot(product), q, batchNumber, expiryDate);
      var id := NewEntryId();
      entry := Entry(id, BatchRef(Snapshot(product), batch.batchNumber), q);
      if Consistent(batches, entries) {
        OpenLotKeepsConsistent(batches, entries, batch, entry);
      }
      batches := batches[KeyOf(batch) := batch];
      entries := entries[id := entry];
    }

    /** updateEntry: patch an existing entry and return the stored record. */
    method UpdateEntry(id: EntryId, patch: EntryPatch) returns (r: Result<Entry>)
      requires Valid()
      modifies this`entries
      ensures Valid()
      ensures id !in old(entries) ==> r == Err(EntryNotFound) && entries == old(entries)
      ensures id in old(entries) ==>
        r == Ok(Patched(old(entries)[id], patch)) && entries == old(entries)[id := r.value]
    {
      if id !in entries {
        return Err(EntryNotFound);
      }
      var updated := Patched(entries[id], patch);
      entries := entries[id := updated];
      return Ok(updated);
    }

    /** deleteEntry: by id, or every entry when the id is the bulk sentinel. */
    method DeleteEntry(id: string) returns (r: Result<Deleted>)
      requires Valid()
      modifies this`entries
      ensures Valid()
      ensures AllSentinel !in old(entries) && "" !in old(entries)
      ensures id == "" ==> r == Err(MissingId) && entries == old(entries)
      ensures id == AllSentinel ==> r == Ok(DeletedAll(|old(entries)|)) && entries == map[]
      ensures id != "" && id != AllSentinel && id !in old(entries)
        ==> r == Err(EntryNotFound) && entries == old(entries)
      ensures id != "" && id != AllSentinel && id in old(entries)
        ==> r == Ok(DeletedOne(id)) && entries == old(entries) - {id}
    {
      assert !IsDecimalId(AllSentinel) by { assert !IsDigit(AllSentinel[0]); }
      if id == "" {
        return Err(MissingId);
      }
      if id == AllSentinel {
        var count := |entries|;
        entries := map[];
        return Ok(DeletedAll(count));
      }
      if id !in entries {
        return Err(EntryNotFound);
      }
      entries := entries - {id};
      return Ok(DeletedOne(id));
    }
  }

  /**
   * A new lot opened with 10 units, then restocked with 5 (no expiry needed),
   * then the identical restock again: entries and stock grow each time.
   */
  method OpenThenRestockScenario() returns (lotOpened: Result<Created>, restocked: Result<Created>,
                                             stockAfterRestock: nat, stockAfterRepeat: nat, entryCount: nat)
    ensures lotOpened.Ok? && lotOpened.value.BatchAndEntry? && lotOpened.value.batch.stock == 10
    ensures restocked.Ok? && restocked.value.EntryOnly? && restocked.value.entry.quantity == 5
    ensures stockAfterRestock == 15 && stockAfterRepeat == 20 && entryCount == 3
  {
    var inv := new Inventory(map["P1" := Product("P1", "Ibuprofen")], map[]);
    var key := BatchKey("P1", "B1");
    var first := EntryRequest("P1", "B1", Num(10.0), "12-31-2025");
    var again := EntryRequest("P1", "B1", Num(5.0), "");
    assert HasRequiredFields(first) && ParseQuantity(first.quantity) == Some(10);
    assert HasRequiredFields(again) && ParseQuantity(again.quantity) == Some(5);
    lotOpened := inv.CreateEntry(first);
    assert inv.batches == map[key := inv.batches[key]] && inv.batches[key].stock == 10;
    assert |inv.entries| == 1;
    restocked := inv.CreateEntry(again);
    stockAfterRestock := inv.batches[key].stock;
    assert stockAfterRestock == 15 && |inv.entries| == 2;
    var repeated := inv.CreateEntry(again);
    stockAfterRepeat := inv.batches[key].stock;
    entryCount := |inv.entries|;
  }

  /** An unknown product is refused and nothing is created. */
  method UnknownProductScenario() returns (r: Result<Created>, batchCount: nat, entryCount: nat)
    ensures r == Err(ProductNotFound) && batchCount == 0 && entryCount == 0
  {
    var inv := new Inventory(map["P1" := Product("P1", "Ibuprofen")], map[]);
    var request := EntryRequest("P9", "B2", Num(3.0), "01-01-2026");
    assert HasRequiredFields(request) && ParseQuantity(request.quantity) == Some(3);
    assert request.productId !in inv.products;
    r := inv.CreateEntry(request);
    batchCount := |inv.batches|;
    entryCount := |inv.entries|;
  }

  /** The literal "2.5" reads as the fraction 2.5. */
  lemma FractionalTextDigits()
    ensures UnsignedDecimal("2.5") == Some(2.5)
  {
    assert IndexOf("2.5", '.') == 1;
    assert "2.5"[..1] == "2" && "2.5"[2..] == "5";
    assert DigitsValue("2") == 2 && DigitsValue("5") == 5;
  }

  /** The text "2.5" converts to the fraction 2.5. */
  lemma FractionalTextValue()
    ensures ToNumber(Str("2.5")) == Some(2.5)
  {
    FractionalTextDigits();
    assert "2.5"[0] == '2' && "2.5"[2] == '5';
    UnsignedTextToNumber("2.5");
  }

  /** The text "2.5" is truthy but is not an integer, so it is an invalid quantity. */
  lemma FractionalTextRefused()
    ensures Truthy(Str("2.5")) && ParseQuantity(Str("2.5")).None?
  {
    FractionalTextValue();
    assert 2.5.Floor == 2;
  }

  /** The text "0" is truthy but converts to 0, so it is an invalid quantity. */
  lemma ZeroTextRefused()
    ensures Truthy(Str("0")) && ParseQuantity(Str("0")).None?
  {
    assert StringToNumber("0") == Some(0.0) by {
      assert AllDigits("0") && DigitsValue("0") == 0;
    }
  }

  /**
   * The presence test runs before the quantity test: a numeric 0 is a missing
   * field, while the text "0", a negative or a fractional quantity is invalid.
   */
  method QuantityScenario() returns (negative: Result<Created>, fractional: Result<Created>,
                                      zeroNumber: Result<Created>, zeroText: Result<Created>)
    ensures negative == Err(InvalidQuantity) && fractional == Err(InvalidQuantity)
    ensures zeroNumber == Err(MissingField) && zeroText == Err(InvalidQuantity)
  {
    var inv := new Inventory(map["P1" := Product("P1", "Ibuprofen")], map[]);
    var fractionalText := EntryRequest("P1", "B3", Str("2.5"), "01-01-2026");
    var zeroAsText := EntryRequest("P1", "B3", Str("0"), "01-01-2026");
    FractionalTextRefused();
    ZeroTextRefused();
    var negativeNumber := EntryRequest("P1", "B3", Num(-2.0), "01-01-2026");
    var zeroAsNumber := EntryRequest("P1", "B3", Num(0.0), "01-01-2026");
    assert HasRequiredFields(negativeNumber) && ParseQuantity(negativeNumber.quantity).None?;
    assert !HasRequiredFields(zeroAsNumber);
    assert HasRequiredFields(fractionalText) && HasRequiredFields(zeroAsText);
    negative := inv.CreateEntry(negativeNumber);
    assert negative == Err(InvalidQuantity);
    fractional := inv.CreateEntry(fractionalText);
    assert fractional == Err(InvalidQuantity);
    zeroNumber := inv.CreateEntry(zeroAsNumber);
    assert zeroNumber == Err(MissingField);
    zeroText := inv.CreateEntry(zeroAsText);
  }
}
