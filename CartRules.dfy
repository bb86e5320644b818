/**
 * The cart of the sales register (App.tsx:59-99): the state updaters of
 * `addToCart` and `updateQuantity`, and the `subtotal`, `tax` and `total`
 * derived from the cart.
 */
module CartRules {
  import opened Types
  import opened Tables

  /** `{ ...product, quantity }`: a cart line copying the product's fields. */
  function LineOf(p: Product, quantity: int): CartItem {
    CartItem(p.id, p.name, p.category, p.price, p.stock, p.imageUrl, quantity)
  }

  /** `products.find(p => p.id === id)`. */
  function FindProduct(products: seq<Product>, id: int): (r: Option<Product>)
    ensures r.Some? ==> r.value in products && r.value.id == id
    ensures r.None? ==> forall k :: 0 <= k < |products| ==> products[k].id != id
  {
    var i := FirstIndex(products, ProductId, id);
    if i < |products| then Some(products[i]) else None
  }

  /** `map(item => item.id === id ? { ...item, quantity: q(item) } : item)` with `q` adding one. */
  function IncrementLines(cart: seq<CartItem>, id: int): (r: seq<CartItem>)
    ensures |r| == |cart|
    ensures forall k :: 0 <= k < |cart| ==>
      r[k] == if cart[k].id == id then cart[k].(quantity := cart[k].quantity + 1) else cart[k]
  {
    seq(|cart|, k requires 0 <= k < |cart| =>
      if cart[k].id == id then cart[k].(quantity := cart[k].quantity + 1) else cart[k])
  }

  /** `map(item => item.id === id ? { ...item, quantity } : item)`. */
  function SetQuantity(cart: seq<CartItem>, id: int, quantity: int): (r: seq<CartItem>)
    ensures |r| == |cart|
    ensures forall k :: 0 <= k < |cart| ==>
      r[k] == if cart[k].id == id then cart[k].(quantity := quantity) else cart[k]
  {
    seq(|cart|, k requires 0 <= k < |cart| =>
      if cart[k].id == id then cart[k].(quantity := quantity) else cart[k])
  }

  /**
   * The updater of `addToCart` (App.tsx:60-72). Nothing happens when the
   * product is out of stock or its line already holds the whole stock; a line
   * for the product is incremented by one, or else a line of quantity 1 is
   * appended. Lines of other products, and their order, are untouched.
   */
  function AddToCart(cart: seq<CartItem>, product: Product): (r: seq<CartItem>)
    ensures product.stock <= 0 ==> r == cart
    ensures !HasId(cart, CartItemId, product.id) && product.stock > 0 ==>
      r == cart + [LineOf(product, 1)]
    ensures HasId(cart, CartItemId, product.id) && product.stock > 0 ==>
      var i := FirstIndex(cart, CartItemId, product.id);
      i < |cart| &&
      (cart[i].quantity >= product.stock ==> r == cart) &&
      (cart[i].quantity < product.stock ==>
        |r| == |cart| &&
        forall k :: 0 <= k < |cart| ==>
          r[k] == if cart[k].id == product.id then cart[k].(quantity := cart[k].quantity + 1) else cart[k])
  {
    if product.stock <= 0 then cart
    else
      var i := FirstIndex(cart, CartItemId, product.id);
      if i < |cart| then
        if cart[i].quantity >= product.stock then cart
        else IncrementLines(cart, product.id)
      else cart + [LineOf(product, 1)]
  }

  /**
   * The updater of `updateQuantity` (App.tsx:76-89): a quantity of zero or
   * less removes the product's line; one above the catalog product's stock is
   * clamped to that stock; any other is set as given. Only lines with that id
   * change.
   */
  function UpdateQuantity(cart: seq<CartItem>, products: seq<Product>, productId: int, newQuantity: int): (r: seq<CartItem>)
    ensures newQuantity <= 0 ==> r == RemoveById(cart, CartItemId, productId)
    ensures newQuantity > 0 ==> |r| == |cart|
    ensures newQuantity > 0 ==> forall k :: 0 <= k < |cart| && cart[k].id != productId ==> r[k] == cart[k]
    ensures newQuantity > 0 ==> forall k :: 0 <= k < |cart| && cart[k].id == productId ==>
      r[k] == cart[k].(quantity := match FindProduct(products, productId)
                                  case Some(p) => if newQuantity > p.stock then p.stock else newQuantity
                                  case None => newQuantity)
  {
    var product := FindProduct(products, productId);
    if newQuantity <= 0 then RemoveById(cart, CartItemId, productId)
    else if product.Some? && newQuantity > product.value.stock then SetQuantity(cart, productId, product.value.stock)
    else SetQuantity(cart, productId, newQuantity)
  }

  /** The amount one line contributes: price times quantity. */
  function LineTotal(item: CartItem): real {
    item.price * item.quantity as real
  }

  /** `cart.reduce((acc, item) => acc + item.price * item.quantity, 0)`. */
  function Subtotal(cart: seq<CartItem>): real {
    if |cart| == 0 then 0.0 else LineTotal(cart[0]) + Subtotal(cart[1..])
  }

  /** `subtotal * taxRate` (App.tsx:98). */
  function Tax(subtotal: real, taxRate: real): real {
    subtotal * taxRate
  }

  /** `subtotal + tax` (App.tsx:99); no discount enters the total. */
  function Total(subtotal: real, tax: real): real {
    subtotal + tax
  }

  /** `items.reduce((acc, item) => acc + item.quantity, 0)`: the number of units in a list of lines. */
  function TotalQuantity(lines: seq<CartItem>): int {
    if |lines| == 0 then 0 else lines[0].quantity + TotalQuantity(lines[1..])
  }

  /** The subtotal of two carts put together is the sum of their subtotals. */
  lemma {:induction false} SubtotalAppend(a: seq<CartItem>, b: seq<CartItem>)
    ensures Subtotal(a + b) == Subtotal(a) + Subtotal(b)
  {
    if |a| > 0 {
      assert (a + b)[1..] == a[1..] + b;
      SubtotalAppend(a[1..], b);
    } else {
      assert a + b == b;
    }
  }

  /** The unit count of two lists put together is the sum of their counts. */
  lemma {:induction false} TotalQuantityAppend(a: seq<CartItem>, b: seq<CartItem>)
    ensures TotalQuantity(a + b) == TotalQuantity(a) + TotalQuantity(b)
  {
    if |a| > 0 {
      assert (a + b)[1..] == a[1..] + b;
      TotalQuantityAppend(a[1..], b);
    } else {
      assert a + b == b;
    }
  }

  /** Taking line j out of a cart lowers the subtotal by exactly that line's amount. */
  lemma SubtotalRemoveAt(b: seq<CartItem>, j: nat)
    requires j < |b|
    ensures Subtotal(b) == LineTotal(b[j]) + Subtotal(b[..j] + b[j + 1..])
  {
    var pre, post := b[..j], b[j + 1..];
    var rest := b[j..];
    assert b == pre + rest;
    assert rest[0] == b[j] && rest[1..] == post;
    assert Subtotal(rest) == LineTotal(b[j]) + Subtotal(post);
    SubtotalAppend(pre, rest);
    SubtotalAppend(pre, post);
  }

  /** Removing one occurrence of an element from both sides of a multiset equation. */
  lemma MultisetRemoveAt(a: seq<CartItem>, b: seq<CartItem>, j: nat)
    requires multiset(a) == multiset(b)
    requires |a| > 0 && j < |b| && b[j] == a[0]
    ensures multiset(a[1..]) == multiset(b[..j] + b[j + 1..])
  {
    assert a == [a[0]] + a[1..];
    assert b == b[..j] + [b[j]] + b[j + 1..];
    var m := multiset(b[..j] + b[j + 1..]);
    assert m == multiset(b[..j]) + multiset(b[j + 1..]);
    assert multiset(b) == m + multiset{a[0]};
    assert multiset(a) == multiset(a[1..]) + multiset{a[0]};
    assert multiset(a[1..]) == multiset(a) - multiset{a[0]};
    assert m == multiset(b) - multiset{a[0]};
  }

  /** The order of the lines does not matter: carts with the same lines have the same subtotal. */
  lemma {:induction false} SubtotalOrderIrrelevant(a: seq<CartItem>, b: seq<CartItem>)
    requires multiset(a) == multiset(b)
    ensures Subtotal(a) == Subtotal(b)
    decreases |a|
  {
    if |a| == 0 {
      assert |b| == |multiset(b)| == 0;
    } else {
      assert a[0] in multiset(b);
      var j :| 0 <= j < |b| && b[j] == a[0];
      MultisetRemoveAt(a, b, j);
      SubtotalOrderIrrelevant(a[1..], b[..j] + b[j + 1..]);
      SubtotalRemoveAt(b, j);
    }
  }

  /** With non-negative prices and quantities the subtotal is never negative. */
  lemma {:induction false} SubtotalNonNegative(cart: seq<CartItem>)
    requires forall k :: 0 <= k < |cart| ==> cart[k].price >= 0.0 && cart[k].quantity >= 0
    ensures Subtotal(cart) >= 0.0
  {
    if |cart| > 0 {
      SubtotalNonNegative(cart[1..]);
    }
  }

  /** Changing the quantity of one line to `q` moves the subtotal by price times the difference. */
  lemma {:induction false} SubtotalSetQuantity(cart: seq<CartItem>, k: nat, q: int)
    requires k < |cart|
    ensures Subtotal(cart[k := cart[k].(quantity := q)]) ==
            Subtotal(cart) + cart[k].price * (q - cart[k].quantity) as real
  {
    var c := cart[k := cart[k].(quantity := q)];
    if k == 0 {
      assert c[1..] == cart[1..];
    } else {
      assert c[1..] == cart[1..][k - 1 := cart[k].(quantity := q)];
      SubtotalSetQuantity(cart[1..], k - 1, q);
    }
  }

  /** The same for the unit count: it moves by exactly the difference in quantity. */
  lemma {:induction false} TotalQuantitySetQuantity(cart: seq<CartItem>, k: nat, q: int)
    requires k < |cart|
    ensures TotalQuantity(cart[k := cart[k].(quantity := q)]) == TotalQuantity(cart) + (q - cart[k].quantity)
  {
    var c := cart[k := cart[k].(quantity := q)];
    if k == 0 {
      assert c[1..] == cart[1..];
    } else {
      assert c[1..] == cart[1..][k - 1 := cart[k].(quantity := q)];
      TotalQuantitySetQuantity(cart[1..], k - 1, q);
    }
  }

  /** With unique cart ids, the increment touches exactly the one line found. */
  lemma IncrementIsPointUpdate(cart: seq<CartItem>, id: int)
    requires UniqueIds(cart, CartItemId)
    requires FirstIndex(cart, CartItemId, id) < |cart|
    ensures var i := FirstIndex(cart, CartItemId, id);
      IncrementLines(cart, id) == cart[i := cart[i].(quantity := cart[i].quantity + 1)]
  {
    var i := FirstIndex(cart, CartItemId, id);
    forall k | 0 <= k < |cart| ensures cart[k].id == id <==> k == i {
      FirstIndexUnique(cart, CartItemId, id, k);
    }
  }

  /**
   * Adding a product to a cart with one line per product either leaves the
   * cart as it was or adds exactly one unit of that product: the unit count
   * grows by one and the subtotal by the price on the product's line. The
   * cart keeps one line per product, and the product's line never goes past
   * the product's stock by this step.
   */
  lemma AddToCartEffect(cart: seq<CartItem>, product: Product)
    requires UniqueIds(cart, CartItemId)
    ensures var r := AddToCart(cart, product);
      && UniqueIds(r, CartItemId)
      && (r == cart || TotalQuantity(r) == TotalQuantity(cart) + 1)
      && (r != cart ==> exists k :: 0 <= k < |r| && r[k].id == product.id && r[k].quantity <= product.stock
                          && Subtotal(r) == Subtotal(cart) + r[k].price)
  {
    var r := AddToCart(cart, product);
    var i := FirstIndex(cart, CartItemId, product.id);
    if product.stock > 0 {
      if i < |cart| {
        if cart[i].quantity < product.stock {
          IncrementIsPointUpdate(cart, product.id);
          SubtotalSetQuantity(cart, i, cart[i].quantity + 1);
          TotalQuantitySetQuantity(cart, i, cart[i].quantity + 1);
          assert r[i].id == product.id && r[i].quantity <= product.stock;
          assert (cart[i].quantity + 1 - cart[i].quantity) as real == 1.0;
          assert Subtotal(r) == Subtotal(cart) + r[i].price;
          forall a, b | 0 <= a < b < |r| ensures r[a].id != r[b].id {
            assert r[a].id == cart[a].id && r[b].id == cart[b].id;
          }
        }
      } else {
        var line := LineOf(product, 1);
        SubtotalAppend(cart, [line]);
        TotalQuantityAppend(cart, [line]);
        assert r[|cart|] == line;
        forall a, b | 0 <= a < b < |r| ensures r[a].id != r[b].id {
          if b == |cart| {
            assert r[a] == cart[a];
          } else {
            assert r[a] == cart[a] && r[b] == cart[b];
          }
        }
      }
    }
  }

  /**
   * After a positive update every line of the product holds at most the
   * catalog stock, when the product is in the catalog; the cart keeps one line
   * per product in every case.
   */
  lemma UpdateQuantityEffect(cart: seq<CartItem>, products: seq<Product>, productId: int, newQuantity: int)
    requires UniqueIds(cart, CartItemId)
    ensures var r := UpdateQuantity(cart, products, productId, newQuantity);
      && UniqueIds(r, CartItemId)
      && (newQuantity > 0 && FindProduct(products, productId).Some? ==>
            forall k :: 0 <= k < |r| && r[k].id == productId ==> r[k].quantity <= FindProduct(products, productId).value.stock)
      && (newQuantity <= 0 ==> !HasId(r, CartItemId, productId))
  {
    var r := UpdateQuantity(cart, products, productId, newQuantity);
    if newQuantity <= 0 {
      RemoveByIdKeepsUnique(cart, CartItemId, productId);
    } else {
      forall a, b | 0 <= a < b < |r| ensures r[a].id != r[b].id {
        assert r[a].id == cart[a].id && r[b].id == cart[b].id;
      }
    }
  }
}
