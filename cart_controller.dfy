/** The cart controller: each user has at most one cart, a list of product lines.
    Adding merges into the line of the same product or appends a new line;
    removing filters out the product's lines. */
module CartController {
  import opened Common
  import opened Store

  /** `items.findIndex(item => item.productId === productId)`: the first line of the
      product, or -1. */
  function FindIndex(items: seq<CartItem>, productId: ProductId): (i: int)
    ensures -1 <= i < |items|
    ensures i == -1 <==> forall k :: 0 <= k < |items| ==> items[k].productId != productId
    ensures i >= 0 ==> items[i].productId == productId && forall k :: 0 <= k < i ==> items[k].productId != productId
  {
    if items == [] then -1
    else if items[0].productId == productId then 0
    else
      var i := FindIndex(items[1..], productId);
      if i == -1 then -1 else i + 1
  }

  /** `items.filter(item => item.productId !== productId)`. */
  function Without(items: seq<CartItem>, productId: ProductId): (r: seq<CartItem>)
    ensures |r| <= |items|
    ensures forall k :: 0 <= k < |r| ==> r[k].productId != productId && r[k] in items
  {
    if items == [] then []
    else (if items[0].productId == productId then [] else [items[0]]) + Without(items[1..], productId)
  }

  /** Filtering a concatenation filters each part. */
  lemma {:induction false} WithoutAppend(a: seq<CartItem>, b: seq<CartItem>, productId: ProductId)
    ensures Without(a + b, productId) == Without(a, productId) + Without(b, productId)
  {
    if a == [] {
      assert a + b == b;
    } else {
      assert (a + b)[1..] == a[1..] + b;
      WithoutAppend(a[1..], b, productId);
    }
  }

  /** Removing a product nobody ordered leaves the lines as they are. */
  lemma {:induction false} WithoutAbsent(items: seq<CartItem>, productId: ProductId)
    requires forall k :: 0 <= k < |items| ==> items[k].productId != productId
    ensures Without(items, productId) == items
  {
    if items != [] {
      WithoutAbsent(items[1..], productId);
      assert [items[0]] + items[1..] == items;
    }
  }

  /** After the filter the product is asked for in quantity zero, and every other
      product in the quantity it was before. */
  lemma {:induction false} WithoutQty(items: seq<CartItem>, productId: ProductId, pid: ProductId)
    ensures QtyOf(Without(items, productId), pid) == if pid == productId then 0 else QtyOf(items, pid)
  {
    if items != [] {
      var head := if items[0].productId == productId then [] else [items[0]];
      WithoutQty(items[1..], productId, pid);
      assert Without(items, productId) == head + Without(items[1..], productId);
      if head == [] {
        assert head + Without(items[1..], productId) == Without(items[1..], productId);
      } else {
        assert (head + Without(items[1..], productId))[1..] == Without(items[1..], productId);
      }
    }
  }

  /** The filter keeps a well-formed cart well formed. */
  lemma {:induction false} WithoutWellFormed(items: seq<CartItem>, productId: ProductId)
    requires CartWellFormed(items)
    ensures CartWellFormed(Without(items, productId))
  {
    if items != [] {
      WithoutWellFormed(items[1..], productId);
      var rest := Without(items[1..], productId);
      forall k | 0 <= k < |rest| ensures rest[k].productId != items[0].productId {
        var j :| 0 <= j < |items[1..]| && items[1..][j] == rest[k];
        assert items[j + 1] == rest[k];
      }
    }
  }

  /** `after` asks for `quantity` more of `productId` than `before`, and for the
      same of every other product. */
  ghost predicate AddsQty(before: seq<CartItem>, after: seq<CartItem>, productId: ProductId, quantity: int)
  {
    forall pid :: QtyOf(after, pid) == QtyOf(before, pid) + (if pid == productId then quantity else 0)
  }

  lemma MergeAddsQty(items: seq<CartItem>, i: nat, quantity: int)
    requires i < |items|
    ensures AddsQty(items, items[i := items[i].(quantity := items[i].quantity + quantity)], items[i].productId, quantity)
  {
    forall pid {
      QtyOfUpdate(items, i, items[i].quantity + quantity, pid);
    }
  }

  lemma AppendAddsQty(items: seq<CartItem>, x: CartItem)
    ensures AddsQty(items, items + [x], x.productId, x.quantity)
  {
    forall pid {
      QtyOfAppend(items, x, pid);
    }
  }

  /** Raising one line's quantity keeps a cart well formed. */
  lemma MergeKeepsWellFormed(items: seq<CartItem>, i: nat, q: int)
    requires CartWellFormed(items) && i < |items| && q >= 1
    ensures CartWellFormed(items[i := items[i].(quantity := q)])
  {
    var merged := items[i := items[i].(quantity := q)];
    assert forall k :: 0 <= k < |merged| ==> merged[k].productId == items[k].productId;
  }

  /** Appending a line for a product the cart does not hold keeps it well formed. */
  lemma AppendKeepsWellFormed(items: seq<CartItem>, x: CartItem)
    requires CartWellFormed(items) && x.quantity >= 1 && x.productId != ""
    requires forall k :: 0 <= k < |items| ==> items[k].productId != x.productId
    ensures CartWellFormed(items + [x])
  {
    var appended := items + [x];
    assert forall k :: 0 <= k < |items| ==> appended[k] == items[k];
  }

  /** Storing a well-formed cart keeps every stored cart well formed. */
  lemma StoreKeepsCartsWellFormed(carts: map<UserId, seq<CartItem>>, userId: UserId, items: seq<CartItem>)
    requires CartsWellFormed(carts) && CartWellFormed(items)
    ensures CartsWellFormed(carts[userId := items])
  {
  }

  /** `getCart`: the user's cart, or 404 when there is none. */
  function GetCart(db: Database, userId: UserId): (r: Result<seq<CartItem>, Failure>)
    reads db
    ensures r.Ok? <==> userId in db.carts
    ensures r.Ok? ==> r.value == db.carts[userId]
    ensures r.Err? ==> r.error == Failure(404, "Cart not found")
  {
    if userId in db.carts then Ok(db.carts[userId]) else Err(Failure(404, "Cart not found"))
  }

  /** `addToCart`: a missing product id or a quantity below 1 is refused; otherwise
      the cart is created with the single line, or the product's line grows by the
      quantity, or a new line is appended. Either way the cart now asks for exactly
      `quantity` more of the product and the same of every other, and stays well
      formed. */
  method AddToCart(db: Database, userId: UserId, productId: ProductId, quantity: int)
    returns (r: Result<seq<CartItem>, Failure>)
    modifies db
    ensures productId == "" || quantity < 1 ==>
      r == Err(Failure(400, "Product ID and quantity (minimum 1) are required")) && db.carts == old(db.carts)
    ensures productId != "" && quantity >= 1 && userId !in old(db.carts) ==>
      db.carts == old(db.carts)[userId := [CartItem(productId, quantity)]]
    ensures productId != "" && quantity >= 1 && userId in old(db.carts) ==>
      var items := old(db.carts)[userId];
      var i := FindIndex(items, productId);
      db.carts == old(db.carts)[userId :=
        if i >= 0 then items[i := items[i].(quantity := items[i].quantity + quantity)]
        else items + [CartItem(productId, quantity)]]
    ensures r.Ok? <==> productId != "" && quantity >= 1
    ensures r.Ok? ==> userId in db.carts && r.value == db.carts[userId]
    ensures r.Ok? ==> AddsQty(if userId in old(db.carts) then old(db.carts)[userId] else [], db.carts[userId], productId, quantity)
    ensures CartsWellFormed(old(db.carts)) ==> CartsWellFormed(db.carts)
    ensures db.products == old(db.products) && db.orders == old(db.orders) && db.users == old(db.users)
  {
    if productId == "" || quantity < 1 {
      return Err(Failure(400, "Product ID and quantity (minimum 1) are required"));
    }
    var items: seq<CartItem>;
    if userId !in db.carts {
      items := [CartItem(productId, quantity)];
      assert items == [] + [CartItem(productId, quantity)];
      AppendAddsQty([], CartItem(productId, quantity));
    } else {
      var old_items := db.carts[userId];
      var i := FindIndex(old_items, productId);
      if i > -1 {
        items := old_items[i := old_items[i].(quantity := old_items[i].quantity + quantity)];
        MergeAddsQty(old_items, i, quantity);
        if CartWellFormed(old_items) {
          MergeKeepsWellFormed(old_items, i, old_items[i].quantity + quantity);
        }
      } else {
        items := old_items + [CartItem(productId, quantity)];
        AppendAddsQty(old_items, CartItem(productId, quantity));
        if CartWellFormed(old_items) {
          AppendKeepsWellFormed(old_items, CartItem(productId, quantity));
        }
      }
    }
    if CartsWellFormed(db.carts) {
      StoreKeepsCartsWellFormed(db.carts, userId, items);
    }
    db.carts := db.carts[userId := items];
    return Ok(items);
  }

  /** `removeFromCart`: a missing product id is refused, a user with no cart gets
      404; otherwise every line of the product goes and the others stay in order. */
  method RemoveFromCart(db: Database, userId: UserId, productId: ProductId)
    returns (r: Result<seq<CartItem>, Failure>)
    modifies db
    ensures productId == "" ==> r == Err(Failure(400, "Product ID is required"))
    ensures productId != "" && userId !in old(db.carts) ==> r == Err(Failure(404, "Cart not found"))
    ensures r.Err? ==> db.carts == old(db.carts)
    ensures r.Ok? <==> productId != "" && userId in old(db.carts)
    ensures r.Ok? ==> db.carts == old(db.carts)[userId := Without(old(db.carts)[userId], productId)]
    ensures r.Ok? ==> r.value == db.carts[userId]
    ensures CartsWellFormed(old(db.carts)) ==> CartsWellFormed(db.carts)
    ensures db.products == old(db.products) && db.orders == old(db.orders) && db.users == old(db.users)
  {
    if productId == "" {
      return Err(Failure(400, "Product ID is required"));
    }
    if userId !in db.carts {
      return Err(Failure(404, "Cart not found"));
    }
    var items := Without(db.carts[userId], productId);
    if CartsWellFormed(db.carts) {
      WithoutWellFormed(db.carts[userId], productId);
      StoreKeepsCartsWellFormed(db.carts, userId, items);
    }
    db.carts := db.carts[userId := items];
    return Ok(items);
  }
}
