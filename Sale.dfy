/**
 * Completing a sale (App.tsx:117-147): the stock taken off the catalog for
 * each cart line, and the record of the finished order with its change.
 */
module Sale {
  import opened Types
  import opened Tables
  import opened CartRules
  import Payment

  /** One pass of the `forEach`: the first catalog product with the line's id loses the line's quantity. */
  function ApplyLine(products: seq<Product>, line: CartItem): (r: seq<Product>)
    ensures |r| == |products|
    ensures forall k :: 0 <= k < |products| ==> r[k].id == products[k].id
  {
    var i := FirstIndex(products, ProductId, line.id);
    if i < |products| then products[i := products[i].(stock := products[i].stock - line.quantity)] else products
  }

  /** The catalog after the `forEach` over the given lines, taken in order. */
  function ApplySale(products: seq<Product>, lines: seq<CartItem>): (r: seq<Product>)
    ensures |r| == |products|
    decreases |lines|
  {
    if |lines| == 0 then products
    else ApplyLine(ApplySale(products, lines[..|lines| - 1]), lines[|lines| - 1])
  }

  /** The units of product `id` on the given lines. */
  function QuantityFor(lines: seq<CartItem>, id: int): int
    decreases |lines|
  {
    if |lines| == 0 then 0
    else QuantityFor(lines[..|lines| - 1], id) + (if lines[|lines| - 1].id == id then lines[|lines| - 1].quantity else 0)
  }

  /** With unique catalog ids, one line takes its quantity off exactly the product with its id. */
  lemma ApplyLineMeaning(products: seq<Product>, line: CartItem)
    requires UniqueIds(products, ProductId)
    ensures forall k :: 0 <= k < |products| ==>
      ApplyLine(products, line)[k] ==
        if products[k].id == line.id then products[k].(stock := products[k].stock - line.quantity) else products[k]
  {
    forall k | 0 <= k < |products| {
      FirstIndexUnique(products, ProductId, line.id, k);
    }
  }

  /**
   * The stock update of checkout: with unique catalog ids every product loses
   * exactly the units of it in the cart; products not in the cart, every other
   * field and the catalog's length and order are unchanged.
   */
  lemma {:induction false} StockAfterSale(products: seq<Product>, lines: seq<CartItem>)
    requires UniqueIds(products, ProductId)
    ensures |ApplySale(products, lines)| == |products|
    ensures forall k :: 0 <= k < |products| ==>
      ApplySale(products, lines)[k] == products[k].(stock := products[k].stock - QuantityFor(lines, products[k].id))
    decreases |lines|
  {
    if |lines| > 0 {
      var init := lines[..|lines| - 1];
      var last := lines[|lines| - 1];
      StockAfterSale(products, init);
      var mid := ApplySale(products, init);
      assert forall k :: 0 <= k < |products| ==> mid[k].id == products[k].id;
      assert UniqueIds(mid, ProductId);
      ApplyLineMeaning(mid, last);
    }
  }

  /** Products whose id is on no line keep their stock. */
  lemma {:induction false} QuantityForAbsent(lines: seq<CartItem>, id: int)
    requires forall k :: 0 <= k < |lines| ==> lines[k].id != id
    ensures QuantityFor(lines, id) == 0
    decreases |lines|
  {
    if |lines| > 0 {
      QuantityForAbsent(lines[..|lines| - 1], id);
    }
  }

  /**
   * The order record of `handleProcessPayment` (App.tsx:127-142): the cart,
   * customer, totals, payment method, clock reading, currency and rate; the tendered
   * amount and change are recorded only for cash with a non-zero tendered
   * amount (the source tests the amount's truthiness).
   */
  function CompleteOrder(cart: seq<CartItem>, customer: Option<Customer>, taxRate: real, currency: Currency,
                         paymentMethod: PaymentMethod, amountTendered: Option<real>, now: int): (o: CompletedOrder)
    ensures o.cartItems == cart && o.customer == customer && o.paymentMethod == paymentMethod
    ensures o.subtotal == Subtotal(cart) && o.tax == o.subtotal * taxRate && o.total == o.subtotal + o.tax
    ensures o.change.Some? <==> paymentMethod == Cash && amountTendered.Some? && amountTendered.value != 0.0
    ensures o.change.Some? ==> o.amountTendered == amountTendered && o.change.value + o.total == amountTendered.value
    ensures o.change.None? ==> o.amountTendered.None?
    ensures o.discountAmount.None? && o.date == now && o.taxRate == taxRate
  {
    var subtotal := Subtotal(cart);
    var tax := Tax(subtotal, taxRate);
    var total := Total(subtotal, tax);
    var recorded := paymentMethod == Cash && amountTendered.Some? && amountTendered.value != 0.0;
    CompletedOrder(cart, customer, subtotal, None, tax, total, paymentMethod,
                   if recorded then amountTendered else None,
                   if recorded then Some(amountTendered.value - total) else None,
                   now, currency, taxRate, false, None)
  }

  /**
   * A payment the checkout dialog let through, for the total the register
   * shows, is recorded with the change the dialog showed, so the recorded
   * change is never negative.
   */
  lemma RecordedChangeMatchesDialog(cart: seq<CartItem>, customer: Option<Customer>, taxRate: real, currency: Currency,
                                    paymentMethod: PaymentMethod, tendered: ParsedFloat, now: int)
    ensures var total := Total(Subtotal(cart), Tax(Subtotal(cart), taxRate));
      var c := Payment.ConfirmedPayment(paymentMethod, tendered, total);
      c.Some? ==>
        var o := CompleteOrder(cart, customer, taxRate, currency, c.value.paymentMethod, c.value.amountTendered, now);
        && (o.change.Some? ==> o.change.value == Payment.ChangeDue(paymentMethod, tendered, total) && o.change.value >= 0.0)
        && (o.change.None? ==> paymentMethod == Card || tendered == Num(0.0))
  {
  }
}
