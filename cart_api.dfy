/**
 * The cart and checkout route handlers (routes/api.js), each a method over the
 * shared collection that returns the status code and body it would send.
 */
module CartApi {
  import opened Wrappers
  import opened CartItemModel
  import opened Cart
  import opened CartStore

  const StatusOk := 200
  const StatusCreated := 201
  const StatusBadRequest := 400
  const StatusNotFound := 404
  const StatusServerError := 500

  const MsgMissingDetails := "Please include all product details"
  const MsgNotFound := "Item not found in cart"
  const MsgRemoved := "Item removed from cart"
  const MsgEmptyCart := "Cart is empty, cannot checkout."
  const TextServerError := "Server Error"

  /** What a handler sends back. */
  datatype Body =
    | CartBody(items: seq<LineItem>, total: int)   // GET /cart
    | ItemBody(item: LineItem)                     // the saved row of POST /cart
    | ReceiptBody(receipt: Receipt)                // POST /checkout
    | Message(msg: string)                         // a JSON `{ msg }`
    | Text(text: string)                           // a plain-text body

  datatype Response = Response(status: int, body: Body)

  /** The body of `POST /cart`; a field the client left out is `None`. */
  datatype AddRequest = AddRequest(
    productId: Option<int>,
    quantity: Option<int>,
    name: Option<string>,
    price: Option<int>,
    image: Option<string>)

  /** JavaScript truthiness of a number that may be missing: present and not 0. */
  predicate TruthyNumber(v: Option<int>)
  {
    v.Some? && v.value != 0
  }

  /** JavaScript truthiness of a string that may be missing: present and not empty. */
  predicate TruthyString(v: Option<string>)
  {
    v.Some? && v.value != ""
  }

  /** The guard of `POST /cart`: productId, quantity, name and price all truthy. */
  predicate HasAllDetails(req: AddRequest)
  {
    TruthyNumber(req.productId) && TruthyNumber(req.quantity)
    && TruthyString(req.name) && TruthyNumber(req.price)
  }

  /** The reply to any store failure the handlers catch. */
  function ServerErrorResponse(): Response
  {
    Response(StatusServerError, Text(TextServerError))
  }

  /** `GET /cart`: every row and their total; the store is not changed. */
  method GetCart(db: Collection) returns (resp: Response)
    ensures resp.status == StatusOk && resp.body.CartBody?
    ensures resp.body.items == db.rows
    ensures resp.body.total == SumOfLines(db.rows)
  {
    var cartItems := db.Find();
    var total := Total(cartItems);
    TotalIsSum(cartItems);
    resp := Response(StatusOk, CartBody(cartItems, total));
  }

  /**
   * `POST /cart`: refuse a request missing a detail; otherwise add the quantity
   * to the product's row if there is one, or store a new row if there is not.
   * A row the schema refuses (its quantity below 1) is a server error.
   */
  method PostCart(db: Collection, req: AddRequest) returns (resp: Response)
    requires db.Valid()
    modifies db
    ensures db.Valid()
    ensures !HasAllDetails(req) ==>
      resp == Response(StatusBadRequest, Message(MsgMissingDetails))
      && db.rows == old(db.rows) && db.nextId == old(db.nextId)
    ensures HasAllDetails(req) && IndexOfProduct(old(db.rows), req.productId.value).Some? ==>
      var k := IndexOfProduct(old(db.rows), req.productId.value).value;
      var merged := old(db.rows)[k].(quantity := old(db.rows)[k].quantity + req.quantity.value);
      db.nextId == old(db.nextId) &&
      if merged.quantity >= MinQuantity then
        resp == Response(StatusOk, ItemBody(merged)) && db.rows == old(db.rows)[k := merged]
      else
        resp == ServerErrorResponse() && db.rows == old(db.rows)
    ensures HasAllDetails(req) && IndexOfProduct(old(db.rows), req.productId.value).None? ==>
      var item := LineItem(old(db.nextId), req.productId.value, req.name.value,
                           req.price.value, req.image, req.quantity.value);
      if item.quantity >= MinQuantity then
        resp == Response(StatusCreated, ItemBody(item)) && db.rows == old(db.rows) + [item]
      else
        resp == ServerErrorResponse() && db.rows == old(db.rows) && db.nextId == old(db.nextId)
    ensures UniqueProducts(old(db.rows)) ==> UniqueProducts(db.rows)
    ensures UniqueProducts(old(db.rows)) && HasAllDetails(req) && resp.status != StatusServerError ==>
      ProductCount(db.rows, req.productId.value) == 1
  {
    if !HasAllDetails(req) {
      return Response(StatusBadRequest, Message(MsgMissingDetails));
    }
    var productId, quantity := req.productId.value, req.quantity.value;
    ghost var before := db.rows;
    var existing := db.FindOne(productId);
    if existing.Some? {
      ghost var k := IndexOfProduct(before, productId).value;
      var item := existing.value.(quantity := existing.value.quantity + quantity);
      IndexOfOwnId(before, k);
      var saved := db.Save(item);
      if saved {
        resp := Response(StatusOk, ItemBody(item));
        if UniqueProducts(before) {
          UniqueAfterReplace(before, k, item);
          assert db.rows[k].productId == productId;
          UniqueCount(db.rows, productId);
        }
      } else {
        resp := ServerErrorResponse();
      }
    } else {
      var doc := Document(Some(productId), Some(req.name.value), Some(req.price.value), req.image, Some(quantity));
      var saved := db.Insert(doc);
      if saved.Ok? {
        resp := Response(StatusCreated, ItemBody(saved.value));
        if UniqueProducts(before) {
          UniqueAfterAppend(before, saved.value);
          assert db.rows[|before|].productId == productId;
          UniqueCount(db.rows, productId);
        }
      } else {
        resp := ServerErrorResponse();
      }
    }
  }

  /**
   * `DELETE /cart/:id`: remove the row with that identity. An identity that no
   * row has, malformed ones included, is reported as not found.
   */
  method DeleteCartItem(db: Collection, id: int) returns (resp: Response)
    requires db.Valid()
    modifies db
    ensures db.Valid() && db.nextId == old(db.nextId)
    ensures IndexOfId(old(db.rows), id).None? ==>
      resp == Response(StatusNotFound, Message(MsgNotFound)) && db.rows == old(db.rows)
    ensures IndexOfId(old(db.rows), id).Some? ==>
      resp == Response(StatusOk, Message(MsgRemoved))
      && db.rows == RemoveAt(old(db.rows), IndexOfId(old(db.rows), id).value)
    ensures UniqueProducts(old(db.rows)) ==> UniqueProducts(db.rows)
  {
    ghost var before := db.rows;
    var item := db.FindByIdAndDelete(id);
    if item.None? {
      return Response(StatusNotFound, Message(MsgNotFound));
    }
    if UniqueProducts(before) {
      UniqueAfterRemove(before, IndexOfId(before, id).value);
    }
    resp := Response(StatusOk, Message(MsgRemoved));
  }

  /**
   * `POST /checkout`: refuse an empty cart; otherwise answer with a receipt of
   * the rows and their total, and clear every row that went into it.
   */
  method PostCheckout(db: Collection) returns (resp: Response)
    requires db.Valid()
    modifies db
    ensures db.Valid() && db.nextId == old(db.nextId)
    ensures old(db.rows) == [] ==>
      resp == Response(StatusBadRequest, Message(MsgEmptyCart)) && db.rows == old(db.rows)
    ensures old(db.rows) != [] ==>
      resp == Response(StatusOk, ReceiptBody(Receipt(ReceiptLines(old(db.rows)), Total(old(db.rows)))))
      && db.rows == []
    ensures old(db.rows) != [] ==>
      |resp.body.receipt.items| == |old(db.rows)|
      && resp.body.receipt.total == SumOfLines(old(db.rows))
      && resp.body.receipt.total == ReceiptSum(resp.body.receipt.items)
  {
    var cartItems := db.Find();
    if |cartItems| == 0 {
      return Response(StatusBadRequest, Message(MsgEmptyCart));
    }
    var total := Total(cartItems);
    var receipt := Receipt(ReceiptLines(cartItems), total);
    TotalIsSum(cartItems);
    ReceiptSumIsTotal(cartItems);
    var _ := db.DeleteMany();
    resp := Response(StatusOk, ReceiptBody(receipt));
  }

  /**
   * A client run: two adds of one product merge into one row that keeps the
   * first add's title and price; an add that leaves out name and price is
   * refused; a negative quantity passes the guard and lowers the row's
   * quantity; checkout issues the receipt and empties the cart.
   */
  method ShirtScenario()
  {
    var db := new Collection();
    var r := PostCart(db, AddRequest(Some(1), Some(2), Some("Shirt"), Some(1000), None));
    assert r.status == StatusCreated;
    r := PostCart(db, AddRequest(Some(1), Some(3), None, None, None));
    assert r.status == StatusBadRequest;
    r := PostCart(db, AddRequest(Some(1), Some(3), Some("Shirt, blue"), Some(1200), None));
    assert r.status == StatusOk;
    assert db.rows == [LineItem(0, 1, "Shirt", 1000, None, 5)];
    r := GetCart(db);
    assert r.body.total == 5000;
    r := PostCart(db, AddRequest(Some(1), Some(-1), Some("Shirt"), Some(1000), None));
    assert r.status == StatusOk && db.rows == [LineItem(0, 1, "Shirt", 1000, None, 4)];
    r := PostCart(db, AddRequest(Some(1), Some(-4), Some("Shirt"), Some(1000), None));
    assert r.status == StatusServerError && db.rows == [LineItem(0, 1, "Shirt", 1000, None, 4)];
    r := PostCheckout(db);
    assert r.body.receipt.items == [ReceiptLine("Shirt", 4, 1000)];
    assert r.body.receipt.total == 4000;
    assert db.rows == [];
    r := PostCheckout(db);
    assert r.status == StatusBadRequest;
  }
}
