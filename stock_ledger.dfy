/** The stock side of the order workflow: the walk over a cart that checks and
    decrements each product's stock in turn (order creation), and the walk over an
    order's lines that adds the quantities back (rejection). Both are specified here
    as functions of the product collection; the controller's loops are proved
    against them. */
module StockLedger {
  import opened Common
  import opened OrderSchema
  import opened Store

  /** The total quantity a list of order lines holds of one product. */
  function LineQtyOf(lines: seq<LineItem>, pid: ProductId): int
  {
    if lines == [] then 0
    else (if lines[0].productId == pid then lines[0].quantity else 0) + LineQtyOf(lines[1..], pid)
  }

  /** The name in the "Insufficient stock for ..." reply: `product?.name || 'item'`. */
  function ShortName(products: map<ProductId, Product>, pid: ProductId): (name: string)
    ensures name != ""
    ensures if pid in products && products[pid].name != "" then name == products[pid].name else name == "item"
  {
    if pid in products && products[pid].name != "" then products[pid].name else "item"
  }

  /** The stock check of one cart line: the product exists and holds enough. */
  predicate CanTake(products: map<ProductId, Product>, item: CartItem)
  {
    item.productId in products && products[item.productId].stock >= item.quantity
  }

  function Take(products: map<ProductId, Product>, item: CartItem): map<ProductId, Product>
    requires item.productId in products
  {
    var p := products[item.productId];
    products[item.productId := p.(stock := p.stock - item.quantity)]
  }

  /** How the walk over a cart ends: every line reserved, or stopped at a line that
      could not be served. Either way `products` is the collection as left behind. */
  datatype Reservation =
    | Reserved(products: map<ProductId, Product>)
    | Short(products: map<ProductId, Product>, name: string)

  /** Check and decrement the lines in order, stopping at the first that fails;
      decrements already made are kept. */
  function Reserve(products: map<ProductId, Product>, items: seq<CartItem>): Reservation
  {
    if items == [] then Reserved(products)
    else if !CanTake(products, items[0]) then Short(products, ShortName(products, items[0].productId))
    else Reserve(Take(products, items[0]), items[1..])
  }

  /** Every product of the cart holds at least what the whole cart asks of it. */
  ghost predicate Sufficient(products: map<ProductId, Product>, items: seq<CartItem>)
  {
    forall i :: 0 <= i < |items| ==>
      items[i].productId in products && products[items[i].productId].stock >= QtyOf(items, items[i].productId)
  }

  /** Add one order line back to its product's stock, if the product still exists. */
  function PutBack(products: map<ProductId, Product>, line: LineItem): map<ProductId, Product>
  {
    if line.productId in products then
      var p := products[line.productId];
      products[line.productId := p.(stock := p.stock + line.quantity)]
    else products
  }

  /** Add every line of an order back to stock, in order. */
  function Restock(products: map<ProductId, Product>, lines: seq<LineItem>): map<ProductId, Product>
  {
    if lines == [] then products else Restock(PutBack(products, lines[0]), lines[1..])
  }

  /** The walk over a cart never adds or removes products, nor renames or reprices one. */
  lemma {:induction false} ReserveKeepsCatalog(products: map<ProductId, Product>, items: seq<CartItem>)
    ensures Reserve(products, items).products.Keys == products.Keys
    ensures forall id :: id in products ==>
      Reserve(products, items).products[id].name == products[id].name &&
      Reserve(products, items).products[id].price == products[id].price
  {
    if items != [] && CanTake(products, items[0]) {
      ReserveKeepsCatalog(Take(products, items[0]), items[1..]);
    }
  }

  /** A walk that reserves every line leaves each product short by exactly the
      quantity the cart asks of it. */
  lemma {:induction false} ReservedStock(products: map<ProductId, Product>, items: seq<CartItem>)
    requires Reserve(products, items).Reserved?
    ensures forall id :: id in products ==>
      id in Reserve(products, items).products &&
      Reserve(products, items).products[id].stock == products[id].stock - QtyOf(items, id)
  {
    ReserveKeepsCatalog(products, items);
    if items != [] {
      ReservedStock(Take(products, items[0]), items[1..]);
    }
  }

  /** With non-negative quantities, the walk over a cart reserves every line exactly
      when every product holds at least the total the cart asks of it. */
  lemma {:induction false} ReserveSucceedsIff(products: map<ProductId, Product>, items: seq<CartItem>)
    requires forall i :: 0 <= i < |items| ==> items[i].quantity >= 0
    ensures Reserve(products, items).Reserved? <==> Sufficient(products, items)
  {
    if items == [] {
      return;
    }
    var x, rest := items[0], items[1..];
    QtyOfNonNegative(rest, x.productId);
    assert QtyOf(items, x.productId) == x.quantity + QtyOf(rest, x.productId);
    if !CanTake(products, x) {
      assert !(x.productId in products && products[x.productId].stock >= QtyOf(items, x.productId));
      assert !Sufficient(products, items);
      return;
    }
    var taken := Take(products, x);
    ReserveSucceedsIff(taken, rest);
    assert Reserve(products, items) == Reserve(taken, rest);
    // QtyOf over the whole cart versus the rest, product by product
    assert forall i :: 0 <= i < |rest| ==> rest[i] == items[i + 1];
    forall pid ensures QtyOf(items, pid) == (if x.productId == pid then x.quantity else 0) + QtyOf(rest, pid) {
    }
    if Sufficient(taken, rest) {
      forall i | 0 <= i < |items|
        ensures items[i].productId in products && products[items[i].productId].stock >= QtyOf(items, items[i].productId)
      {
        if i > 0 {
          assert rest[i - 1] == items[i];
        } else if exists j :: 0 <= j < |rest| && rest[j].productId == x.productId {
          var j :| 0 <= j < |rest| && rest[j].productId == x.productId;
          assert taken[rest[j].productId].stock >= QtyOf(rest, rest[j].productId);
        } else {
          QtyOfAbsent(rest, x.productId);
        }
      }
    }
    if Sufficient(products, items) {
      forall i | 0 <= i < |rest|
        ensures rest[i].productId in taken && taken[rest[i].productId].stock >= QtyOf(rest, rest[i].productId)
      {
        assert items[i + 1] == rest[i];
      }
    }
  }

  /** The walk over `items` stopped at line k: the collection it left behind is the
      one that reserving the first k lines produces, line k could not be served,
      and the reply names line k's product. */
  ghost predicate StoppedAt(products: map<ProductId, Product>, items: seq<CartItem>, k: int)
  {
    && 0 <= k < |items|
    && Reserve(products, items).Short?
    && Reserve(products, items[..k]) == Reserved(Reserve(products, items).products)
    && !CanTake(Reserve(products, items).products, items[k])
    && Reserve(products, items).name == ShortName(Reserve(products, items).products, items[k].productId)
  }

  /** A walk that stops at a line has made exactly the decrements of the lines
      before it: it stopped at some line k, the collection left behind is the one
      that reserving the first k lines produces, and line k could not be served. */
  lemma {:induction false} ShortKeepsEarlierDecrements(products: map<ProductId, Product>, items: seq<CartItem>)
    requires Reserve(products, items).Short?
    ensures exists k :: StoppedAt(products, items, k)
  {
    var x, rest := items[0], items[1..];
    if !CanTake(products, x) {
      assert items[..0] == [];
      assert Reserve(products, items[..0]) == Reserved(products);
      assert StoppedAt(products, items, 0);
    } else {
      var taken := Take(products, x);
      ShortKeepsEarlierDecrements(taken, rest);
      var k :| StoppedAt(taken, rest, k);
      assert items[..k + 1][0] == x && items[..k + 1][1..] == rest[..k];
      assert Reserve(products, items[..k + 1]) == Reserve(taken, rest[..k]);
      assert items[k + 1] == rest[k];
      assert StoppedAt(products, items, k + 1);
    }
  }

  /** The walk over a cart never drives a stock below zero, whichever way it ends. */
  lemma {:induction false} ReserveKeepsStockNonNegative(products: map<ProductId, Product>, items: seq<CartItem>)
    requires StockNonNegative(products)
    ensures StockNonNegative(Reserve(products, items).products)
  {
    if items != [] && CanTake(products, items[0]) {
      ReserveKeepsStockNonNegative(Take(products, items[0]), items[1..]);
    }
  }

  /** Restocking adds to every still-existing product exactly the quantity the
      order's lines hold of it, and changes nothing else. */
  lemma {:induction false} RestockStock(products: map<ProductId, Product>, lines: seq<LineItem>)
    ensures Restock(products, lines).Keys == products.Keys
    ensures forall id :: id in products ==>
      Restock(products, lines)[id] == products[id].(stock := products[id].stock + LineQtyOf(lines, id))
  {
    if lines != [] {
      RestockStock(PutBack(products, lines[0]), lines[1..]);
    }
  }

  /** Nothing guards a repeated rejection: restocking the same lines twice adds
      their quantities twice. */
  lemma RestockTwiceAddsTwice(products: map<ProductId, Product>, lines: seq<LineItem>)
    ensures Restock(Restock(products, lines), lines).Keys == products.Keys
    ensures forall id :: id in products ==>
      Restock(Restock(products, lines), lines)[id].stock == products[id].stock + 2 * LineQtyOf(lines, id)
  {
    RestockStock(products, lines);
    RestockStock(Restock(products, lines), lines);
  }

  /** Restocking lines of non-negative quantity keeps every stock non-negative. */
  lemma RestockKeepsStockNonNegative(products: map<ProductId, Product>, lines: seq<LineItem>)
    requires StockNonNegative(products)
    requires forall i :: 0 <= i < |lines| ==> lines[i].quantity >= 0
    ensures StockNonNegative(Restock(products, lines))
  {
    RestockStock(products, lines);
    forall id | id in products ensures LineQtyOf(lines, id) >= 0 {
      LineQtyNonNegative(lines, id);
    }
  }

  lemma {:induction false} LineQtyNonNegative(lines: seq<LineItem>, pid: ProductId)
    requires forall i :: 0 <= i < |lines| ==> lines[i].quantity >= 0
    ensures LineQtyOf(lines, pid) >= 0
  {
    if lines != [] {
      LineQtyNonNegative(lines[1..], pid);
    }
  }
}
