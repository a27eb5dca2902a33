/** Products and the stock arithmetic that invoices drive: a sale takes
    each line's quantity off its product's stock (no floor: stock may go
    negative), a stock-restoring delete puts it back. */
module Inventory {
  import opened Wrappers

  type ProductId = nat

  datatype Product = Product(
    itemCode: string,
    description: string,
    tamilName: Option<string>,
    uom: string,
    price: int,          // cents
    stock: int,
    restockLevel: int,   // reporting threshold only, never enforced
    stockLocations: Option<string>,
    tags: Option<string>,
    notes: Option<string>)

  /** One `InvoiceItem`: `amount` is what the caller sent, not checked
      against quantity times price. */
  datatype LineItem = LineItem(productId: ProductId, quantity: int, price: int, amount: int)

  /** Every line names a product that exists. */
  predicate AllListed(products: map<ProductId, Product>, lines: seq<LineItem>) {
    forall i :: 0 <= i < |lines| ==> lines[i].productId in products
  }

  /** The total quantity the lines give for product `p`. */
  function QtyOf(lines: seq<LineItem>, p: ProductId): int {
    if lines == [] then 0
    else QtyOf(lines[..|lines| - 1], p) + (if lines[|lines| - 1].productId == p then lines[|lines| - 1].quantity else 0)
  }

  /** Add `delta` to the stock of product `p`, leaving its other fields. */
  function Shift(products: map<ProductId, Product>, p: ProductId, delta: int): map<ProductId, Product>
    requires p in products
  {
    products[p := products[p].(stock := products[p].stock + delta)]
  }

  /** `product.stock -= item.quantity` for each line, in order. */
  function Withdraw(products: map<ProductId, Product>, lines: seq<LineItem>): (r: map<ProductId, Product>)
    requires AllListed(products, lines)
    ensures r.Keys == products.Keys
  {
    if lines == [] then products
    else
      var last := lines[|lines| - 1];
      assert AllListed(products, lines[..|lines| - 1]);
      Shift(Withdraw(products, lines[..|lines| - 1]), last.productId, -last.quantity)
  }

  /** `item.product.stock += item.quantity` for each line, in order. */
  function Restock(products: map<ProductId, Product>, lines: seq<LineItem>): (r: map<ProductId, Product>)
    requires AllListed(products, lines)
    ensures r.Keys == products.Keys
  {
    if lines == [] then products
    else
      var last := lines[|lines| - 1];
      assert AllListed(products, lines[..|lines| - 1]);
      Shift(Restock(products, lines[..|lines| - 1]), last.productId, last.quantity)
  }

  /** Selling the lines lowers each product's stock by exactly the quantity
      the lines give for it; nothing else about any product changes. */
  lemma {:induction false} WithdrawEffect(products: map<ProductId, Product>, lines: seq<LineItem>)
    requires AllListed(products, lines)
    ensures forall p :: p in products ==>
      Withdraw(products, lines)[p] == products[p].(stock := products[p].stock - QtyOf(lines, p))
  {
    if lines != [] {
      assert AllListed(products, lines[..|lines| - 1]);
      WithdrawEffect(products, lines[..|lines| - 1]);
    }
  }

  /** Restoring the lines raises each product's stock by exactly the
      quantity the lines give for it. */
  lemma {:induction false} RestockEffect(products: map<ProductId, Product>, lines: seq<LineItem>)
    requires AllListed(products, lines)
    ensures forall p :: p in products ==>
      Restock(products, lines)[p] == products[p].(stock := products[p].stock + QtyOf(lines, p))
  {
    if lines != [] {
      assert AllListed(products, lines[..|lines| - 1]);
      RestockEffect(products, lines[..|lines| - 1]);
    }
  }

  /** A product no line names keeps its stock. */
  lemma {:induction false} QtyOfUnlisted(lines: seq<LineItem>, p: ProductId)
    requires forall i :: 0 <= i < |lines| ==> lines[i].productId != p
    ensures QtyOf(lines, p) == 0
  {
    if lines != [] {
      QtyOfUnlisted(lines[..|lines| - 1], p);
    }
  }

  /** Creating an invoice and then deleting it with `restore_stock` gives
      back the stock exactly as it was. */
  lemma RestockUndoesWithdraw(products: map<ProductId, Product>, lines: seq<LineItem>)
    requires AllListed(products, lines)
    ensures AllListed(Withdraw(products, lines), lines)
    ensures Restock(Withdraw(products, lines), lines) == products
  {
    var sold := Withdraw(products, lines);
    WithdrawEffect(products, lines);
    RestockEffect(sold, lines);
    assert Restock(sold, lines).Keys == products.Keys;
    forall p | p in products ensures Restock(sold, lines)[p] == products[p] {
    }
  }

  /** Editing an invoice (restore the old lines, then sell the new ones)
      changes each product's stock by old quantity minus new quantity. */
  lemma EditEffect(products: map<ProductId, Product>, oldLines: seq<LineItem>, newLines: seq<LineItem>)
    requires AllListed(products, oldLines) && AllListed(products, newLines)
    ensures AllListed(Restock(products, oldLines), newLines)
    ensures Withdraw(Restock(products, oldLines), newLines).Keys == products.Keys
    ensures forall p :: p in products ==>
      Withdraw(Restock(products, oldLines), newLines)[p] ==
        products[p].(stock := products[p].stock + QtyOf(oldLines, p) - QtyOf(newLines, p))
  {
    RestockEffect(products, oldLines);
    WithdrawEffect(Restock(products, oldLines), newLines);
  }

  /** Saving an invoice with the lines it already has leaves every stock
      as it was. */
  lemma EditWithSameLines(products: map<ProductId, Product>, lines: seq<LineItem>)
    requires AllListed(products, lines)
    ensures AllListed(Restock(products, lines), lines)
    ensures Withdraw(Restock(products, lines), lines) == products
  {
    EditEffect(products, lines, lines);
    var edited := Withdraw(Restock(products, lines), lines);
    forall p | p in products ensures edited[p] == products[p] {
    }
  }
  /** Restoring two runs of lines one after the other is restoring their
      concatenation. */
  lemma {:induction false} RestockConcat(products: map<ProductId, Product>, a: seq<LineItem>, b: seq<LineItem>)
    requires AllListed(products, a + b)
    ensures AllListed(products, a) && AllListed(Restock(products, a), b)
    ensures Restock(products, a + b) == Restock(Restock(products, a), b)
    decreases |b|
  {
    assert forall i :: 0 <= i < |a| ==> a[i] == (a + b)[i];
    assert forall i :: 0 <= i < |b| ==> b[i] == (a + b)[|a| + i];
    if b == [] {
      assert a + b == a;
    } else {
      var b' := b[..|b| - 1];
      assert (a + b)[..|a + b| - 1] == a + b';
      assert AllListed(products, a + b');
      RestockConcat(products, a, b');
    }
  }

  // ---------------------------------------------------------------------
  // The loops of the invoice routes.

  /** The loop of `new_invoice` and of the invoice edit over the submitted
      lines: look the product up, then take the quantity off its stock.  A
      line whose product does not exist fails the whole request. */
  method SellLines(products: map<ProductId, Product>, lines: seq<LineItem>) returns (r: Option<map<ProductId, Product>>)
    ensures r.None? <==> !AllListed(products, lines)
    ensures r.Some? ==> AllListed(products, lines) && r.value == Withdraw(products, lines)
  {
    var current := products;
    var i := 0;
    while i < |lines|
      invariant 0 <= i <= |lines|
      invariant AllListed(products, lines[..i])
      invariant current == Withdraw(products, lines[..i])
    {
      var line := lines[i];
      assert lines[..i + 1][..i] == lines[..i];
      if line.productId !in current {
        return None;
      }
      current := current[line.productId := current[line.productId].(stock := current[line.productId].stock - line.quantity)];
      i := i + 1;
    }
    assert lines[..i] == lines;
    return Some(current);
  }

  /** The loop that gives an invoice's quantities back to stock; a line
      whose product no longer exists fails the request. */
  method RestoreLines(products: map<ProductId, Product>, lines: seq<LineItem>) returns (r: Option<map<ProductId, Product>>)
    ensures r.None? <==> !AllListed(products, lines)
    ensures r.Some? ==> AllListed(products, lines) && r.value == Restock(products, lines)
  {
    var current := products;
    var i := 0;
    while i < |lines|
      invariant 0 <= i <= |lines|
      invariant AllListed(products, lines[..i])
      invariant current == Restock(products, lines[..i])
    {
      var line := lines[i];
      assert lines[..i + 1][..i] == lines[..i];
      if line.productId !in current {
        return None;
      }
      current := current[line.productId := current[line.productId].(stock := current[line.productId].stock + line.quantity)];
      i := i + 1;
    }
    assert lines[..i] == lines;
    return Some(current);
  }
}
