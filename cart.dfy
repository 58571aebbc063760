/**
 * The pure parts of the cart routes (routes/api.js): the total computed by
 * reading the cart and by checkout, the receipt's item list, the lookups the
 * handlers rely on, and the one-row-per-product rule that merging keeps.
 */
module Cart {
  import opened Wrappers
  import opened CartItemModel

  /** What one row contributes to the total: unit price times quantity, in cents. */
  function LineAmount(item: LineItem): int
  {
    item.price * item.quantity
  }

  /** The reducer `acc + price * quantity`, folded left over `items` from `acc`. */
  function Reduce(acc: int, items: seq<LineItem>): int
    decreases |items|
  {
    if items == [] then acc else Reduce(acc + LineAmount(items[0]), items[1..])
  }

  /** The cart total as both the read path and checkout compute it: the fold from 0. */
  function Total(items: seq<LineItem>): int
  {
    Reduce(0, items)
  }

  /** Reference definition of the total: the sum of every row's amount. */
  function SumOfLines(items: seq<LineItem>): int
  {
    if items == [] then 0 else LineAmount(items[0]) + SumOfLines(items[1..])
  }

  /** The left fold adds exactly the sum of the rows to its starting value. */
  lemma {:induction false} ReduceIsSum(acc: int, items: seq<LineItem>)
    ensures Reduce(acc, items) == acc + SumOfLines(items)
    decreases |items|
  {
    if items != [] {
      ReduceIsSum(acc + LineAmount(items[0]), items[1..]);
    }
  }

  /** The total equals the sum over all rows of price times quantity. */
  lemma TotalIsSum(items: seq<LineItem>)
    ensures Total(items) == SumOfLines(items)
  {
    ReduceIsSum(0, items);
  }

  /** The sum splits over concatenation. */
  lemma {:induction false} SumAppend(a: seq<LineItem>, b: seq<LineItem>)
    ensures SumOfLines(a + b) == SumOfLines(a) + SumOfLines(b)
    decreases |a|
  {
    if a == [] {
      assert a + b == b;
    } else {
      assert (a + b)[1..] == a[1..] + b;
      SumAppend(a[1..], b);
    }
  }

  /** Appending a row raises the total by that row's amount. */
  lemma TotalAppendRow(rows: seq<LineItem>, item: LineItem)
    ensures Total(rows + [item]) == Total(rows) + LineAmount(item)
  {
    TotalIsSum(rows + [item]);
    TotalIsSum(rows);
    SumAppend(rows, [item]);
  }

  /** Replacing row `k` changes the total by the difference of the two amounts. */
  lemma TotalReplaceRow(rows: seq<LineItem>, k: nat, item: LineItem)
    requires k < |rows|
    ensures Total(rows[k := item]) == Total(rows) - LineAmount(rows[k]) + LineAmount(item)
  {
    assert rows == rows[..k] + [rows[k]] + rows[k + 1..];
    assert rows[k := item] == rows[..k] + [item] + rows[k + 1..];
    TotalIsSum(rows);
    TotalIsSum(rows[k := item]);
    SumAppend(rows[..k] + [rows[k]], rows[k + 1..]);
    SumAppend(rows[..k], [rows[k]]);
    SumAppend(rows[..k] + [item], rows[k + 1..]);
    SumAppend(rows[..k], [item]);
  }

  /** `rows` without its row at index `k`, the others in their order. */
  function RemoveAt(rows: seq<LineItem>, k: nat): (r: seq<LineItem>)
    requires k < |rows|
    ensures |r| == |rows| - 1
    ensures forall i :: 0 <= i < k ==> r[i] == rows[i]
    ensures forall i :: k <= i < |r| ==> r[i] == rows[i + 1]
  {
    rows[..k] + rows[k + 1..]
  }

  /** Removing row `k` lowers the total by that row's amount. */
  lemma TotalRemoveRow(rows: seq<LineItem>, k: nat)
    requires k < |rows|
    ensures Total(RemoveAt(rows, k)) == Total(rows) - LineAmount(rows[k])
  {
    assert rows == rows[..k] + [rows[k]] + rows[k + 1..];
    TotalIsSum(rows);
    TotalIsSum(RemoveAt(rows, k));
    SumAppend(rows[..k] + [rows[k]], rows[k + 1..]);
    SumAppend(rows[..k], [rows[k]]);
    SumAppend(rows[..k], rows[k + 1..]);
  }

  /** The first index of `s` whose element satisfies `p`, if there is one. */
  function FirstIndex<T>(s: seq<T>, p: T -> bool): (r: Option<nat>)
    ensures r.Some? ==> r.value < |s| && p(s[r.value])
    ensures r.Some? ==> forall j :: 0 <= j < r.value ==> !p(s[j])
    ensures r.None? ==> forall j :: 0 <= j < |s| ==> !p(s[j])
    decreases |s|
  {
    if s == [] then None
    else if p(s[0]) then Some(0)
    else match FirstIndex(s[1..], p)
      case None => None
      case Some(k) => Some(k + 1)
  }

  /** The lookup `findOne({ productId })`: the first row for that product. */
  function IndexOfProduct(rows: seq<LineItem>, productId: int): Option<nat>
  {
    FirstIndex(rows, (item: LineItem) => item.productId == productId)
  }

  /** The lookup `findById(id)`: the first row with that identity. */
  function IndexOfId(rows: seq<LineItem>, id: int): Option<nat>
  {
    FirstIndex(rows, (item: LineItem) => item.id == id)
  }

  /** No two rows carry the same identity. */
  predicate DistinctIds(rows: seq<LineItem>)
  {
    forall i, j :: 0 <= i < j < |rows| ==> rows[i].id != rows[j].id
  }

  /** With distinct identities, looking up a row's own id finds that row. */
  lemma IndexOfOwnId(rows: seq<LineItem>, k: nat)
    requires DistinctIds(rows) && k < |rows|
    ensures IndexOfId(rows, rows[k].id) == Some(k)
  {
  }

  /** The cart invariant that merging keeps: no two rows share a product. */
  predicate UniqueProducts(rows: seq<LineItem>)
  {
    forall i, j :: 0 <= i < j < |rows| ==> rows[i].productId != rows[j].productId
  }

  /** How many rows carry `productId`. */
  function ProductCount(rows: seq<LineItem>, productId: int): nat
  {
    if rows == [] then 0
    else (if rows[0].productId == productId then 1 else 0) + ProductCount(rows[1..], productId)
  }

  /** In a cart without duplicates a product has one row if it is found and none otherwise. */
  lemma {:induction false} UniqueCount(rows: seq<LineItem>, productId: int)
    requires UniqueProducts(rows)
    ensures ProductCount(rows, productId) == if IndexOfProduct(rows, productId).Some? then 1 else 0
    decreases |rows|
  {
    if rows != [] {
      assert UniqueProducts(rows[1..]);
      UniqueCount(rows[1..], productId);
      if rows[0].productId == productId {
        assert IndexOfProduct(rows[1..], productId).None?;
      }
    }
  }

  /** Changing a row in place without changing its product keeps products unique. */
  lemma UniqueAfterReplace(rows: seq<LineItem>, k: nat, item: LineItem)
    requires UniqueProducts(rows) && k < |rows| && item.productId == rows[k].productId
    ensures UniqueProducts(rows[k := item])
  {
  }

  /** Appending a row for a product not yet in the cart keeps products unique. */
  lemma UniqueAfterAppend(rows: seq<LineItem>, item: LineItem)
    requires UniqueProducts(rows) && IndexOfProduct(rows, item.productId).None?
    ensures UniqueProducts(rows + [item])
  {
  }

  /** Removing a row keeps products unique. */
  lemma UniqueAfterRemove(rows: seq<LineItem>, k: nat)
    requires UniqueProducts(rows) && k < |rows|
    ensures UniqueProducts(RemoveAt(rows, k))
  {
    var r := RemoveAt(rows, k);
    forall i, j | 0 <= i < j < |r| ensures r[i].productId != r[j].productId {
      var i' := if i < k then i else i + 1;
      var j' := if j < k then j else j + 1;
      assert r[i] == rows[i'] && r[j] == rows[j'];
    }
  }

  /** One line of a receipt: the row's title, quantity and unit price. */
  datatype ReceiptLine = ReceiptLine(name: string, qty: int, price: int)

  /** The checkout receipt: its lines and its total (identifier and timestamp left out). */
  datatype Receipt = Receipt(items: seq<ReceiptLine>, total: int)

  /** The receipt's lines: one per row, in storage order. */
  function ReceiptLines(rows: seq<LineItem>): (r: seq<ReceiptLine>)
    ensures |r| == |rows|
    ensures forall i :: 0 <= i < |rows| ==>
      r[i].name == rows[i].title && r[i].qty == rows[i].quantity && r[i].price == rows[i].price
  {
    if rows == [] then []
    else [ReceiptLine(rows[0].title, rows[0].quantity, rows[0].price)] + ReceiptLines(rows[1..])
  }

  /** What a receipt's own lines add up to. */
  function ReceiptSum(lines: seq<ReceiptLine>): int
  {
    if lines == [] then 0 else lines[0].price * lines[0].qty + ReceiptSum(lines[1..])
  }

  /** The lines of a receipt add up to the total of the rows they were taken from. */
  lemma {:induction false} ReceiptSumIsTotal(rows: seq<LineItem>)
    ensures ReceiptSum(ReceiptLines(rows)) == Total(rows)
    decreases |rows|
  {
    TotalIsSum(rows);
    if rows != [] {
      ReceiptSumIsTotal(rows[1..]);
      TotalIsSum(rows[1..]);
    }
  }
}
