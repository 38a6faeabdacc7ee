# Stock-entry controller of a pharmacy inventory, in Dafny

This project models the controller that records incoming stock movements
("entries") against product batches. It reads a product catalog. It finds a
batch by product id and batch number, and it opens a new batch (a "lot") when
none exists yet. Each batch keeps a stock counter that the entry workflow
raises. The controller has four handlers:

- `getEntries` returns the entry store.
- `createEntry` validates a request, then takes one of two paths. On a
  **restock** it adds an entry and increments the existing batch's stock
  (successCode 1). To **open a lot** it creates a batch whose stock is the
  quantity, then adds its first entry (successCode 2).
- `updateEntry` is a field-level patch of an existing entry.
- `deleteEntry` deletes by id. The route parameter `"all"` deletes every entry.

## Layout

- `wrappers.dfy`: module `Wrappers`, an `Option` type.
- `decimal.dfy`: module `Decimal`. Digit strings and their values. It also
  holds `DecimalText`, the text form of the counter that issues entry ids.
- `json_value.dfy`: module `JsonValue`. A request-body value, its JavaScript
  truthiness (the `!x` test) and `Number(x)`.
- `records.dfy`: module `Records`. Products, batches, entries, the
  product/batch snapshots embedded in them, and entry patches.
- `stock.dfy`: module `Stock`. `StockOf` is the sum of the quantities of the
  entries naming a batch key. `Consistent` says every batch's stock equals
  that sum and every entry names an existing batch. The lemmas show that both
  create paths keep it, and that a delete or a quantity patch breaks it.
- `input_controller.dfy`: module `InputController`. The class `Inventory`
  holds the three stores as map fields: `products` (read only), `batches`
  keyed by `(product id, batch number)`, and `entries` keyed by entry id. It
  also holds the id counter. Each handler is a method returning a `Result`,
  whose errors are `MissingField`, `InvalidQuantity` (errorCode 0),
  `ProductNotFound` (errorCode 1), `BatchMissingExpiry` (errorCode 2),
  `EntryNotFound` and `MissingId`. Three scenario methods replay concrete
  request sequences.

## Assumptions

- The batch lookup (`backend/controllers/inputController.js:33`) filters on a
  top-level `productId`. The batch it creates (lines 58-66) stores the product
  under `product.id`. The batch schema is not part of this model. The model
  assumes the lookup finds exactly the batch with that product id and batch
  number, and it keys the batch map on that pair.
- Two requests racing to open the same lot would meet the store's unique
  index. The controller never handles that duplicate-key error, so the model
  has no `DuplicateBatch` error. Handlers run one at a time, and the open-lot
  path runs only when the key is absent.
- The missing-field error text mentions `expiryDate`, but the presence test
  (line 24) checks only `productId`, `batchNumber` and `quantity`. The model
  follows the code. A missing expiry date matters only on the open-lot path
  (line 54).
- The presence test runs before the quantity test. A numeric `0` is therefore
  a missing field, while the text `"0"`, a negative number or a fraction is an
  invalid quantity (`QuantityScenario`).

## Model

| member | source | states |
|---|---|---|
| `InputController.Inventory.constructor` | backend/controllers/inputController.js:32-33 | the stores start with the given catalog and batches, no entries and a zero counter; when every given batch has stock 0 the stores start stock-consistent, the state that `CreateEntry` then preserves |
| `InputController.Inventory.GetEntries` | backend/controllers/inputController.js:7-10 | returns the whole entry store and changes nothing |
| `InputController.ParseQuantity` | backend/controllers/inputController.js:21-22 | accepts a quantity exactly when `Number(value)` is an integer greater than 0, and returns that integer; every accepted value is truthy, so it passes the presence test |
| `InputController.QuantityTextAccepted` | backend/controllers/inputController.js:21-22 | a positive quantity up to 2^53, sent as decimal text, is accepted as that number |
| `InputController.HasRequiredFields` | backend/controllers/inputController.js:24 | the presence test passes exactly when product id and batch number are non-empty and the quantity is none of the falsy values `undefined`, `null`, `false`, `0`, `""`; when it fails on the quantity alone, `Number` of that quantity is 0 or NaN, so the presence test never refuses a quantity the quantity test would accept |
| `InputController.FractionalTextDigits` | backend/controllers/inputController.js:21 | the literal "2.5" reads as 2.5 |
| `InputController.FractionalTextValue` | backend/controllers/inputController.js:21 | `Number("2.5")` is 2.5 |
| `InputController.FractionalTextRefused` | backend/controllers/inputController.js:21-30 | the text "2.5" passes the presence test but is not an integer, so it fails the quantity test |
| `InputController.ZeroTextRefused` | backend/controllers/inputController.js:21-30 | the text "0" passes the presence test but converts to 0, so it fails the quantity test |
| `JsonValue.Truthy` | backend/controllers/inputController.js:24 | the `!x` test: exactly `undefined`, `null`, `false`, `0` and `""` are falsy among JSON values |
| `JsonValue.ToNumber` | backend/controllers/inputController.js:21 | a value that `Number` turns into a non-zero number is truthy; text is converted by `StringToNumber`, whose round trip with the id text is `DecimalTextToNumber` |
| `JsonValue.LeadingSpaces` | backend/controllers/inputController.js:21 | counts the white space at the start of the text: every counted character is white space, and the next one, if any, is not |
| `JsonValue.TrailingSpaces` | backend/controllers/inputController.js:21 | counts the white space at the end of the text: every counted character is white space, and the one before them, if any, is not |
| `JsonValue.Trim` | backend/controllers/inputController.js:21 | the trimmed text is the contiguous piece of the original that follows its leading white space; everything removed before and after it is white space; it neither starts nor ends with white space; text with no white space at either end is kept whole |
| `JsonValue.TrimEnds` | backend/controllers/inputController.js:21 | the trailing white space of what follows the leading white space is trailing white space of the whole text, and text with no white space at either end has none to remove |
| `JsonValue.StringToNumber` | backend/controllers/inputController.js:21 | `Number` on text: blank text gives 0, and a negative result needs a minus sign in the text; its partner `DigitTextToNumber` gives the value of digit text |
| `JsonValue.UnsignedTextToNumber` | backend/controllers/inputController.js:21 | text that starts with a digit and does not end in white space is read as an unsigned decimal literal, with no trimming and no sign |
| `JsonValue.DigitTextToNumber` | backend/controllers/inputController.js:21 | digit text whose value is at most 2^53 converts to exactly that value |
| `JsonValue.DecimalTextToNumber` | backend/controllers/inputController.js:21 | round trip: `Number` applied to the decimal text of n gives back n, for n up to 2^53 |
| `InputController.Inventory.CreateEntry` | backend/controllers/inputController.js:20-81 | checks in order: missing field, then quantity, then unknown product, then missing expiry for a new lot; every error leaves batches, entries and the id counter unchanged; a restock returns `EntryOnly` with the new entry, adds exactly that entry under a fresh id, and raises only that batch's stock by the quantity; opening a lot returns `BatchAndEntry(batch, entry)` in that order, adds exactly that batch with stock equal to the quantity and exactly one entry; stock consistency is preserved |
| `InputController.Inventory.Restock` | backend/controllers/inputController.js:39-52 | the new entry snapshots the product id, product name, batch number and quantity; its id was not in the store; only that batch changes, by exactly the quantity; stock consistency is preserved |
| `InputController.Inventory.OpenLot` | backend/controllers/inputController.js:58-79 | the new batch holds the product snapshot, the quantity as stock, the batch number and the expiry date; exactly one entry referencing it is added under a fresh id; stock consistency is preserved |
| `InputController.Inventory.NewEntryId` | backend/controllers/inputController.js:50 | issues an id that no stored entry has, and advances the counter |
| `InputController.Inventory.UpdateEntry` | backend/controllers/inputController.js:85-92 | an unknown id gives `EntryNotFound` and changes nothing; otherwise only that entry is replaced by the patched record, which is returned; batches are not in its frame |
| `InputController.Inventory.DeleteEntry` | backend/controllers/inputController.js:96-114 | an empty id gives `MissingId`; `"all"` empties the entry store and reports how many entries it held; an unknown id gives `EntryNotFound` and changes nothing; otherwise only that entry is removed and its id returned; neither `"all"` nor the empty id can name a stored entry; batches are not in its frame |
| `InputController.OpenThenRestockScenario` | backend/controllers/inputController.js:39-79 | opening lot B1 with 10 gives `BatchAndEntry` and stock 10; a restock of 5 without an expiry gives `EntryOnly` and stock 15; repeating the same request gives stock 20 and three entries, so the call is not idempotent |
| `InputController.UnknownProductScenario` | backend/controllers/inputController.js:32-37 | an unknown product id gives `ProductNotFound` and creates no batch and no entry |
| `InputController.QuantityScenario` | backend/controllers/inputController.js:21-30 | -2 and "2.5" are invalid quantities; a numeric 0 is a missing field; the text "0" is an invalid quantity |
| `Records.Raised` | backend/controllers/inputController.js:51 | the `$inc` of stock changes only the stock, by exactly the increment |
| `Records.Patched` | backend/controllers/inputController.js:90 | a patch keeps the entry's id; each field the patch carries takes the patch's value, and each field it does not carry keeps the entry's value |
| `Decimal.DecimalText` | backend/controllers/inputController.js:50 | an issued entry id is a non-empty string of digits |
| `Decimal.DecimalTextValue` | backend/controllers/inputController.js:50 | reading an issued id back gives the counter value it came from, so distinct counter values give distinct ids |
| `Stock.StockOfRemove` | backend/controllers/inputController.js:112 | removing an entry takes exactly its quantity off the sum for its batch and nothing off any other batch |
| `Stock.StockOfInsert` | backend/controllers/inputController.js:50 | adding an entry under a fresh id adds exactly its quantity to the sum for its batch |
| `Stock.StockOfUnnamed` | backend/controllers/inputController.js:58-67 | a batch key that no entry names has a sum of 0 |
| `Stock.RestockKeepsConsistent` | backend/controllers/inputController.js:50-51 | after a new entry plus an increment by its quantity, every batch's stock still equals its entries' sum |
| `Stock.OpenLotKeepsConsistent` | backend/controllers/inputController.js:63-78 | after a new batch with stock equal to the quantity plus one entry for it, every batch's stock still equals its entries' sum |
| `Stock.DeleteBreaksConsistency` | backend/controllers/inputController.js:107-113 | deleting an entry with a non-zero quantity leaves its batch's stock differing from its entries' sum, since the delete does not adjust stock |
| `Stock.QuantityPatchBreaksConsistency` | backend/controllers/inputController.js:90 | patching an entry's quantity to a different value leaves its batch's stock differing from its entries' sum |

## Left out

- HTTP: Express `req`/`res`, `asyncHandler`, status codes and JSON bodies. Each reply is a `Result` value.
- Store failures, connection errors and timeouts. Each handler is modelled as one sequential step that cannot fail in the store.
- Concurrency. Races between requests and the atomicity of `$inc` are not modelled.
- The orphan-batch window. A failure between `Batch.create` and `Entry.create` (lines 67-78) cannot happen in a model without store failures.
- Mongoose ObjectIds. Entry ids come from a counter, rendered as decimal text.
- Malformed ids. `findById` with a string that is not an ObjectId raises a cast error. The model reports such an id as not found.
- Batch document ids. A batch is identified by its (product id, batch number) key.
- The unique index on batches and its duplicate-key error. The controller never reaches it in a sequential run.
- Schema casting of `req.body.quantity` when it is stored in the entry and added to stock (lines 48, 51, 63, 76). The model stores the parsed integer.
- StringToNumber, and through it ParseQuantity: `Number` on text is modelled for decimal literals: an optional sign, digits, an optional fraction, and trimming of space, tab, LF, CR, vertical tab and form feed. The model reads them as exact rationals, while JavaScript rounds them to the nearest double. The results therefore differ in two ways. Text with more significant digits than a double holds can round to an integer: `"1.0000000000000001"` is accepted as 1 by the source and refused by the model. Integers above 2^53 are rounded: `"9007199254740993"` is read as 9007199254740992 by the source and exactly by the model.
- StringToNumber, and through it ParseQuantity: exponent forms, hexadecimal, binary and octal forms, `Infinity` and non-ASCII Unicode spaces are read as NaN. Of these, text that denotes a positive integer (such as `"1e2"`) is accepted by the source and refused by the model.
- ToNumber, and through it ParseQuantity: numeric JSON quantities are exact reals in the model. Array and object quantities are not modelled.
- QuantityTextAccepted: promised only for quantities up to 2^53, the range where a JavaScript number holds every integer exactly.
- DigitTextToNumber: promised only for values up to 2^53, for the same reason.
- DecimalTextToNumber: promised only for values up to 2^53, for the same reason.
- Batch stock and entry quantities are unbounded integers. The store keeps them as doubles, so sums above 2^53 would lose precision there.
- Non-string text fields. `productId`, `batchNumber`, `expiryDate` and the route id are strings, and "" stands for both a missing and an empty value (both are falsy).
- The expiry date format. It is not validated, so it is kept as opaque text.
- Patches. Only the entry's top-level `batch` and `quantity` fields can be patched. Dotted-path updates, schema validation and attempts to change `_id` are not modelled.
- Bulk-delete reply. Only `deletedCount` of the `deleteMany` reply is modelled, not its `acknowledged` flag.
- Entry order. `getEntries` returns the store as a map, so the store's natural order is not modelled.
- Stock reconciliation. The controller does not adjust stock on update or delete. The model does not either, and `Stock.DeleteBreaksConsistency` and `Stock.QuantityPatchBreaksConsistency` state the resulting gap.
- `frontend/components/Search.jsx` is presentational markup with no logic, so it is not part of this model.
