/**
 * The single collection of cart rows behind the `CartItem` model
 * (models/cartItem.js:30), with the store calls the routes make. Rows are kept
 * in storage order; a counter stands in for the store's identity generator.
 */
module CartStore {
  import opened Wrappers
  import opened CartItemModel
  import opened Cart

  class Collection {
    /** Every stored row, in storage order: this set of rows is the cart. */
    var rows: seq<LineItem>
    /** The identity the next inserted row receives. */
    var nextId: nat

    /** Every stored row passed schema validation and has an identity of its own. */
    ghost predicate Valid()
      reads this
    {
      && (forall i :: 0 <= i < |rows| ==> ValidItem(rows[i]) && rows[i].id < nextId)
      && DistinctIds(rows)
    }

    /** An empty collection. */
    constructor ()
      ensures Valid() && rows == [] && nextId == 0
    {
      rows := [];
      nextId := 0;
    }

    /** `find()`: all rows, in storage order. */
    method Find() returns (items: seq<LineItem>)
      ensures items == rows
    {
      items := rows;
    }

    /** `findOne({ productId })`: the row for that product, if there is one. */
    method FindOne(productId: int) returns (found: Option<LineItem>)
      ensures found.None? <==> forall j :: 0 <= j < |rows| ==> rows[j].productId != productId
      ensures found.Some? ==>
        IndexOfProduct(rows, productId).Some? && found.value == rows[IndexOfProduct(rows, productId).value]
    {
      var k := IndexOfProduct(rows, productId);
      found := if k.Some? then Some(rows[k.value]) else None;
    }

    /**
     * `save()` of a new document: validate it against the schema, then store it
     * under a fresh identity. A refused document leaves the collection as it was.
     */
    method Insert(doc: Document) returns (r: Result<LineItem, ValidationError>)
      requires Valid()
      modifies this
      ensures Valid()
      ensures r == Validate(doc, old(nextId))
      ensures r.Ok? ==> rows == old(rows) + [r.value] && nextId == old(nextId) + 1
      ensures r.Err? ==> rows == old(rows) && nextId == old(nextId)
    {
      r := Validate(doc, nextId);
      if r.Ok? {
        rows := rows + [r.value];
        nextId := nextId + 1;
      }
    }

    /**
     * `save()` of a row already stored: validate it against the schema, then
     * replace the stored row that has its identity. Fails when the row does not
     * validate or is no longer stored.
     */
    method Save(item: LineItem) returns (ok: bool)
      requires Valid()
      modifies this
      ensures Valid() && nextId == old(nextId)
      ensures ok <==> ValidItem(item) && IndexOfId(old(rows), item.id).Some?
      ensures ok ==> rows == old(rows)[IndexOfId(old(rows), item.id).value := item]
      ensures !ok ==> rows == old(rows)
    {
      var k := IndexOfId(rows, item.id);
      ok := ValidItem(item) && k.Some?;
      if ok {
        rows := rows[k.value := item];
      }
    }

    /** `findByIdAndDelete(id)`: remove the row with that identity and return it. */
    method FindByIdAndDelete(id: int) returns (removed: Option<LineItem>)
      requires Valid()
      modifies this
      ensures Valid() && nextId == old(nextId)
      ensures removed.None? <==> IndexOfId(old(rows), id).None?
      ensures removed.None? ==> rows == old(rows)
      ensures removed.Some? ==>
        var k := IndexOfId(old(rows), id).value;
        removed.value == old(rows)[k] && rows == RemoveAt(old(rows), k)
    {
      var k := IndexOfId(rows, id);
      if k.Some? {
        removed := Some(rows[k.value]);
        rows := RemoveAt(rows, k.value);
      } else {
        removed := None;
      }
    }

    /** `deleteMany({})`: remove every row and report how many there were. */
    method DeleteMany() returns (deletedCount: nat)
      requires Valid()
      modifies this
      ensures Valid() && nextId == old(nextId)
      ensures rows == [] && deletedCount == |old(rows)|
    {
      deletedCount := |rows|;
      rows := [];
    }
  }
}
