/**
 * The line-item record of the cart (models/cartItem.js). There is no cart
 * entity: a line item has no owner, and the cart is the set of stored rows.
 */
module CartItemModel {
  import opened Wrappers

  /**
   * A stored cart row. `id` is the identity the store assigns on insertion;
   * `price` is in integer cents; `image` is the only optional field.
   */
  datatype LineItem = LineItem(
    id: nat,
    productId: int,
    title: string,
    price: int,
    image: Option<string>,
    quantity: int)

  /** A document handed to the model before validation: any field may be absent. */
  datatype Document = Document(
    productId: Option<int>,
    title: Option<string>,
    price: Option<int>,
    image: Option<string>,
    quantity: Option<int>)

  /** Why the schema refuses a document. */
  datatype ValidationError = Required(path: string) | BelowMin(path: string, min: int)

  /** The schema's `min` for `quantity`. */
  const MinQuantity := 1

  /** The schema's `default` for `quantity`. */
  const DefaultQuantity := 1

  /**
   * A row the schema accepts. `productId` and `price` are required and always
   * present in a `LineItem`; a required String also refuses the empty string.
   */
  predicate ValidItem(item: LineItem)
  {
    |item.title| > 0 && item.quantity >= MinQuantity
  }

  /**
   * Casting a document through the schema: required fields, the default
   * quantity, then the minimum quantity. Only accepted rows come out.
   */
  function Validate(d: Document, id: nat): (r: Result<LineItem, ValidationError>)
    ensures r.Ok? ==> ValidItem(r.value) && r.value.id == id
  {
    if d.productId.None? then Err(Required("productId"))
    else if d.title.None? || d.title.value == "" then Err(Required("title"))
    else if d.price.None? then Err(Required("price"))
    else
      var quantity := d.quantity.GetOr(DefaultQuantity);
      if quantity < MinQuantity then Err(BelowMin("quantity", MinQuantity))
      else Ok(LineItem(id, d.productId.value, d.title.value, d.price.value, d.image, quantity))
  }

  /** The document a stored row reads back as. */
  function ToDocument(item: LineItem): Document
  {
    Document(Some(item.productId), Some(item.title), Some(item.price), item.image, Some(item.quantity))
  }

  /** Every row the schema accepts survives writing it out and validating it again. */
  lemma ValidateRoundTrip(item: LineItem)
    requires ValidItem(item)
    ensures Validate(ToDocument(item), item.id) == Ok(item)
  {
  }

  /** Validation refuses exactly the documents that break the schema. */
  lemma ValidateAccepts(d: Document, id: nat)
    ensures Validate(d, id).Ok? <==>
      d.productId.Some? && d.title.Some? && d.title.value != "" && d.price.Some?
      && d.quantity.GetOr(DefaultQuantity) >= MinQuantity
  {
  }

  /** `productId`, `title` and `price` are required. */
  lemma RequiredFields(d: Document, id: nat)
    requires d.productId.None? || d.title.None? || d.price.None?
    ensures Validate(d, id).Err? && Validate(d, id).error.Required?
  {
  }

  /** An accepted document keeps every supplied field; the image may be absent. */
  lemma ValidateKeepsFields(d: Document, id: nat)
    requires Validate(d, id).Ok?
    ensures Validate(d, id).value.productId == d.productId.value
    ensures Validate(d, id).value.title == d.title.value
    ensures Validate(d, id).value.price == d.price.value
    ensures Validate(d, id).value.image == d.image
  {
  }

  /** A document without a quantity gets quantity 1; one with a quantity keeps it. */
  lemma QuantityDefault(d: Document, id: nat)
    requires Validate(d, id).Ok?
    ensures d.quantity.None? ==> Validate(d, id).value.quantity == DefaultQuantity
    ensures d.quantity.Some? ==> Validate(d, id).value.quantity == d.quantity.value
  {
  }

  /** Leaving out the image never changes whether a document is accepted. */
  lemma ImageOptional(d: Document, id: nat)
    ensures Validate(d.(image := None), id).Ok? <==> Validate(d, id).Ok?
  {
  }
}
