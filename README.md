# Shared shopping cart and mock checkout

A Dafny model of the cart core of a small e-commerce backend. There is one
cart for the whole system: it is the collection of `CartItem` line items
`{id, productId, title, price, image, quantity}`, with no owning cart entity.
Four route handlers act on it:

- `GET /cart` returns every row and the total, the sum of `price * quantity`;
- `POST /cart` validates its body, then merges the quantity into the row for
  the same product or inserts a new row (200 for a merge, 201 for a new row);
- `DELETE /cart/:id` removes one row by identity (404 when no row has it);
- `POST /checkout` refuses an empty cart (400); otherwise it returns a receipt
  of the rows and their total and clears the collection.

Files and modules:

- `wrappers.dfy` (`Wrappers`): `Option` and `Result`.
- `cart_item.dfy` (`CartItemModel`): the line-item datatype, the document a
  row is built from, and the schema (`Validate`, `ValidItem`): required
  `productId`, `title` and `price`, optional `image`, `quantity` of at least 1
  with default 1.
- `cart.dfy` (`Cart`): the pure parts of the routes. `Total` is the handlers'
  left `reduce`; `SumOfLines` is the reference sum it is proved equal to. Also
  the receipt lines (the `map` at checkout), the first-match search behind the
  two store lookups, row removal,
  and the invariant that no two rows share a product (`UniqueProducts`).
- `cart_store.dfy` (`CartStore`): class `Collection`, the stored rows as a
  `seq` field plus an identity counter, with one method per store call the
  routes make: `find`, `findOne`, `save` of a new or an existing document,
  `findByIdAndDelete` and `deleteMany`. `Valid()` says that every stored row
  passed the schema and that identities are distinct.
- `cart_api.dfy` (`CartApi`): the four handlers as methods over a `Collection`.
  Each returns a `Response(status, body)` with the source's status codes and
  messages. `ShirtScenario` is a client whose assertions are proved from the
  handlers' contracts alone.

Modelling choices:

- Prices are integer cents, so totals are exact. The `toFixed(2)` and
  `parseFloat` rounding of the total is the identity on them.
- A request body field is an `Option`: `None` is a field the client left out.
  The guard `!productId || !quantity || !name || !price` is JavaScript
  truthiness: 0 and the empty string are refused like missing fields.
- A merge updates the stored row's quantity and saves it. The save runs the
  schema, as `save()` does, so a merged quantity below 1 is refused. The
  handler's `catch` then answers 500 and the store is unchanged. The same holds
  for a new row whose quantity is below 1.
- Identities come from a counter in the collection. A malformed identity is
  an `int` that no row carries, so it gets the same 404 as an unknown one.
- Reading the cart changes nothing: `GetCart` has no `modifies` clause.

Where the code and the system's design description differ, the model follows
the code:

- The design's worked example merges a second add that gives only `productId`
  and `quantity`. The code refuses that add with 400, because `name` and
  `price` are missing. `ShirtScenario` shows this.
- The design asks for a positive quantity and a non-negative price. The code
  only tests truthiness, so a negative quantity passes the guard and lowers the
  row's quantity when the sum stays at least 1 (see `ShirtScenario`). A
  negative price is accepted, and a price of 0 is refused.

## Model

| member | source | states |
|---|---|---|
| `CartItemModel.Validate` | models/cartItem.js:4-26 | every document the schema accepts becomes a row that satisfies the schema (non-empty title, quantity at least 1) under the identity assigned to it |
| `CartItemModel.ValidateAccepts` | models/cartItem.js:4-26 | a document is accepted exactly when productId, title and price are present, the title is not empty and the quantity, 1 by default, is at least 1 |
| `CartItemModel.ValidateRoundTrip` | models/cartItem.js:4-26 | a row that satisfies the schema validates back to itself from its own fields |
| `CartItemModel.RequiredFields` | models/cartItem.js:5-16 | a document without productId, title or price is refused with a required-field error |
| `CartItemModel.ValidateKeepsFields` | models/cartItem.js:4-26 | an accepted row carries the document's productId, title, price and image unchanged |
| `CartItemModel.ImageOptional` | models/cartItem.js:17-19 | leaving out the image never changes whether a document is accepted |
| `CartItemModel.QuantityDefault` | models/cartItem.js:20-25 | a document without a quantity gets quantity 1, one with a quantity keeps it |
| `Cart.ReduceIsSum` | routes/api.js:42 | the reduce from any starting value adds exactly the sum of price times quantity over all rows |
| `Cart.TotalIsSum` | routes/api.js:141 | the cart total equals the sum over all rows of price times quantity |
| `Cart.SumAppend` | routes/api.js:42 | the sum of row amounts splits over concatenation |
| `Cart.TotalAppendRow` | routes/api.js:42 | appending a row raises the total by that row's price times quantity |
| `Cart.TotalReplaceRow` | routes/api.js:42 | replacing one row changes the total by the new row's amount minus the old row's |
| `Cart.TotalRemoveRow` | routes/api.js:42 | removing one row lowers the total by that row's amount |
| `Cart.RemoveAt` | routes/api.js:101 | the rows without the one at the given index, every other row kept in its order |
| `Cart.FirstIndex` | routes/api.js:68 | the first index whose row matches the query, or none exactly when no row matches; the lookups by productId and by identity are this search |
| `Cart.IndexOfOwnId` | routes/api.js:72-73 | with distinct identities, looking up a row's own identity finds that very row |
| `Cart.UniqueCount` | routes/api.js:68-86 | in a cart without duplicate products a product has exactly one row when the lookup finds it and none otherwise |
| `Cart.UniqueAfterReplace` | routes/api.js:70-74 | changing a row in place without changing its product keeps products unique |
| `Cart.UniqueAfterAppend` | routes/api.js:75-86 | appending a row for a product the lookup did not find keeps products unique |
| `Cart.UniqueAfterRemove` | routes/api.js:101 | removing a row keeps products unique |
| `Cart.ReceiptLines` | routes/api.js:146-150 | one receipt line per row, in order, carrying the row's title, quantity and price |
| `Cart.ReceiptSumIsTotal` | routes/api.js:141-151 | the receipt's lines add up to the total of the rows they were taken from |
| `CartStore.Collection.constructor` | models/cartItem.js:28-30 | a new collection is empty and valid |
| `CartStore.Collection.Find` | routes/api.js:39 | returns every stored row in storage order |
| `CartStore.Collection.FindOne` | routes/api.js:68 | returns the first row for the product, and nothing exactly when no row has it |
| `CartStore.Collection.Insert` | routes/api.js:77-85 | runs the schema; an accepted document is appended under a fresh identity, a refused one leaves the collection unchanged |
| `CartStore.Collection.Save` | routes/api.js:72-73 | succeeds exactly when the row passes the schema and its identity is stored, and then replaces that row and nothing else; otherwise nothing changes |
| `CartStore.Collection.FindByIdAndDelete` | routes/api.js:101 | removes and returns the row with the identity, or reports none and changes nothing |
| `CartStore.Collection.DeleteMany` | routes/api.js:156 | leaves the collection empty and reports how many rows it held |
| `CartApi.GetCart` | routes/api.js:37-52 | status 200 with every row and a total equal to the sum of price times quantity; the store is not modified |
| `CartApi.PostCart` | routes/api.js:58-92 | a missing or falsy detail gives 400 and no change; a known product gets its quantity raised by the new quantity, title, price and image kept and every other row kept, with 200; an unknown product gets exactly one new row with the given fields appended, with 201; a quantity that breaks the schema gives 500 and no change; products stay unique and the product then has exactly one row |
| `CartApi.DeleteCartItem` | routes/api.js:98-119 | a stored identity loses exactly its row, the rest kept in order, with 200; an unknown or malformed identity gives 404 and no change; products stay unique |
| `CartApi.PostCheckout` | routes/api.js:128-165 | an empty cart gives 400 and no change; otherwise 200 with a receipt whose lines are the rows in order as (title, quantity, price) and whose total is the read-cart total of the same rows and the sum of its own lines, and the store is empty afterwards |

## Left out

- The product catalog route `GET /products` (routes/api.js:12-29): a call to an external service over the network, followed by reshaping of fields.
- server.js is not part of this model: the web framework setup, the CORS and JSON middleware and the database connection with its `isConnected` flag are start-up plumbing.
- Floating-point amounts and the rounding of totals by `toFixed(2)` and `parseFloat` (routes/api.js:46, 151): the model works in integer cents, where that rounding is the identity.
- The receipt identifier built from `Date.now()` and the ISO timestamp (routes/api.js:145, 152): both read the clock, so `Receipt` holds only the lines and the total.
- Storage failures other than a schema refusal, such as a lost connection: each handler's `catch` would answer 500, and the model has no such failure.
- The parsing of identities into ObjectIds (routes/api.js:113-116): a malformed identity is modelled as one that no stored row carries. Identities come from a counter instead of the ObjectId generator.
- Concurrency: the race between `findOne` and `save` on a merge (routes/api.js:68-73) and between `find` and `deleteMany` at checkout (routes/api.js:134, 156). The model runs one handler at a time.
- JavaScript type coercion and body parsing: inputs are typed integers and strings, so NaN, fractional quantities and string concatenation in `item.quantity + quantity` do not arise.
- CartItemModel.Validate: reports the first schema violation it meets, whereas the schema library collects all of them; the handlers never send that detail to the client.
- CartApi.PostCart: the response body is the saved row; the extra fields the store adds when it serialises a document, such as a version key, are not modelled.
