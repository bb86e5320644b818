/**
 * The invoice payload sent to the tax authority for a finished sale
 * (utils/fbrApi.ts:13-36). The ISO-8601 text of the order's date is a
 * parameter (date formatting is not part of this model), and the logging of
 * the payload is left out.
 */
module Fbr {
  import opened Types
  import opened CartRules

  /**
   * Which reading of line 33 builds the items: the division as written, or
   * the same division with a zero subtotal handled.
   */
  datatype TaxRule = AsWritten | Corrected

  /** An item's `TaxCharged` is `None` when it is not a number (`JSON.stringify` writes it as null). */
  datatype FbrItem = FbrItem(
    itemCode: string,
    itemName: string,
    quantity: int,
    pctCode: string,
    taxRate: real,
    saleValue: real,
    taxCharged: Option<real>,
    discount: real)

  datatype FbrPayload = FbrPayload(
    sellerNtn: string,
    posId: string,
    invoiceNumber: Option<string>,
    dateTime: string,
    buyerNtn: string,
    buyerName: string,
    buyerPhoneNumber: string,
    totalBillAmount: real,
    totalQuantity: int,
    totalSaleValue: real,
    totalTaxCharged: real,
    paymentMode: int,
    items: seq<FbrItem>)

  /** The placeholder customs tariff code put on every item. */
  const PlaceholderPctCode: string := "1101.0010"

  const WalkInBuyer: string := "Walk-in Customer"

  // ---- `String(item.id)`: the decimal text of an integer, and its parser ----

  predicate IsDigit(c: char) {
    '0' as int <= c as int <= '9' as int
  }

  function DigitChar(d: int): (c: char)
    requires 0 <= d < 10
    ensures IsDigit(c) && c as int - '0' as int == d
  {
    (d + '0' as int) as char
  }

  /** The decimal digits of a natural number, without leading zeros. */
  function NatString(n: nat): (s: string)
    ensures |s| > 0 && forall k :: 0 <= k < |s| ==> IsDigit(s[k])
    ensures s[0] == '0' ==> n == 0
    decreases n
  {
    if n < 10 then [DigitChar(n)] else NatString(n / 10) + [DigitChar(n % 10)]
  }

  /** `String(n)` for an integer: a minus sign before the digits of a negative number. */
  function DecimalString(n: int): (s: string)
    ensures |s| > 0
    ensures n < 0 <==> s[0] == '-'
  {
    if n < 0 then "-" + NatString(-n) else NatString(n)
  }

  /** The value of a string of decimal digits, read from the left. */
  function DigitsValue(s: string): nat
    requires forall k :: 0 <= k < |s| ==> IsDigit(s[k])
    decreases |s|
  {
    if |s| == 0 then 0 else DigitsValue(s[..|s| - 1]) * 10 + DigitValue(s[|s| - 1])
  }

  function DigitValue(c: char): (d: nat)
    requires IsDigit(c)
    ensures d < 10 && DigitChar(d) == c
  {
    c as int - '0' as int
  }

  /** Reading an item code back: an optional minus sign and at least one digit, anything else is rejected. */
  function ParseDecimal(s: string): (r: Option<int>)
    ensures r.Some? && |s| > 0 && s[0] != '-' ==> r.value >= 0
  {
    if |s| > 0 && s[0] == '-' then
      var digits := s[1..];
      if |digits| > 0 && forall k :: 0 <= k < |digits| ==> IsDigit(digits[k]) then Some(0 - DigitsValue(digits) as int) else None
    else if |s| > 0 && forall k :: 0 <= k < |s| ==> IsDigit(s[k]) then Some(DigitsValue(s))
    else None
  }

  lemma {:induction false} NatStringRoundTrip(n: nat)
    ensures DigitsValue(NatString(n)) == n
    decreases n
  {
    if n >= 10 {
      NatStringRoundTrip(n / 10);
      var s := NatString(n);
      assert s[..|s| - 1] == NatString(n / 10);
    }
  }

  /** Item codes identify their product: the code reads back as the id. */
  lemma DecimalStringRoundTrip(n: int)
    ensures ParseDecimal(DecimalString(n)) == Some(n)
  {
    if n < 0 {
      NatStringRoundTrip(-n);
      assert DecimalString(n)[1..] == NatString(-n);
    } else {
      NatStringRoundTrip(n);
    }
  }

  /** Distinct ids never share an item code. */
  lemma DecimalStringInjective(a: int, b: int)
    requires a != b
    ensures DecimalString(a) != DecimalString(b)
  {
    DecimalStringRoundTrip(a);
    DecimalStringRoundTrip(b);
  }

  // ---- The payload ----

  /** `order.customer?.name || 'Walk-in Customer'` (line 19): an absent customer or an empty name falls back. */
  function BuyerName(customer: Option<Customer>): (r: string)
    ensures customer.Some? && customer.value.name != "" ==> r == customer.value.name
    ensures customer.None? || customer.value.name == "" ==> r == WalkInBuyer
    ensures r != ""
  {
    if customer.Some? && customer.value.name != "" then customer.value.name else WalkInBuyer
  }

  /** Line 25: 2 for card, 1 for cash. */
  function PaymentMode(m: PaymentMethod): (r: int)
    ensures r == 1 || r == 2
    ensures r == 2 <==> m == Card
  {
    if m == Card then 2 else 1
  }

  /** `order.discountAmount || 0`. */
  function Discount(order: CompletedOrder): real {
    if order.discountAmount.Some? then order.discountAmount.value else 0.0
  }

  /**
   * Line 33 as written: the line's share of the discounted amount, taxed at
   * the order's rate. The division by the subtotal is unguarded, so for a
   * zero subtotal JavaScript yields not-a-number (0/0) or an infinity
   * times a zero sale value, which is again not-a-number: no finite value,
   * `None` here.
   */
  function ItemTaxChargedAsWritten(line: CartItem, order: CompletedOrder): (r: Option<real>)
    ensures r.None? <==> order.subtotal == 0.0
    ensures r.Some? ==> r.value == LineTotal(line) * (1.0 - Discount(order) / order.subtotal) * order.taxRate
  {
    if order.subtotal == 0.0 then None
    else Some(LineTotal(line) * (1.0 - Discount(order) / order.subtotal) * order.taxRate)
  }

  /** The share of the sale that remains after the discount; the whole sale when the subtotal is zero. */
  function KeptShare(order: CompletedOrder): (r: real)
    ensures order.subtotal != 0.0 ==> r * order.subtotal == order.subtotal - Discount(order)
    ensures Discount(order) == 0.0 ==> r == 1.0
  {
    if order.subtotal == 0.0 then 1.0 else 1.0 - Discount(order) / order.subtotal
  }

  /**
   * Line 33 with the zero subtotal handled: the same apportioned tax, and the
   * line's full tax when nothing was sold for money (no discount can be
   * apportioned then).
   */
  function ItemTaxCharged(line: CartItem, order: CompletedOrder): (r: real)
    ensures order.subtotal != 0.0 ==> Some(r) == ItemTaxChargedAsWritten(line, order)
    ensures order.subtotal == 0.0 || Discount(order) == 0.0 ==> r == LineTotal(line) * order.taxRate
  {
    if order.subtotal == 0.0 then LineTotal(line) * order.taxRate
    else ItemTaxChargedAsWritten(line, order).value
  }

  lemma ItemTaxIsFactor(line: CartItem, order: CompletedOrder)
    ensures ItemTaxCharged(line, order) == LineTotal(line) * TaxFactor(order)
  {
    var x, k, t := LineTotal(line), KeptShare(order), order.taxRate;
    assert x * k * t == x * (k * t);
  }

  /** The rate applied to each line's sale value: the kept share of the sale taxed at the order's rate. */
  function TaxFactor(order: CompletedOrder): real {
    KeptShare(order) * order.taxRate
  }

  lemma Distribute(a: real, b: real, f: real)
    ensures a * f + b * f == (a + b) * f
  {
  }

  /** The entry of `Items` for one cart line (lines 26-35), its tax under the given rule. */
  function ItemFor(line: CartItem, order: CompletedOrder, rule: TaxRule): FbrItem {
    var tax := if rule == AsWritten then ItemTaxChargedAsWritten(line, order) else Some(ItemTaxCharged(line, order));
    FbrItem(DecimalString(line.id), line.name, line.quantity, PlaceholderPctCode, order.taxRate,
            LineTotal(line), tax, 0.0)
  }

  /** `order.cartItems.map(...)`: one entry per line, in order. */
  function Items(lines: seq<CartItem>, order: CompletedOrder, rule: TaxRule): (r: seq<FbrItem>)
    ensures |r| == |lines|
    ensures forall k :: 0 <= k < |lines| ==> r[k] == ItemFor(lines[k], order, rule)
  {
    if |lines| == 0 then [] else [ItemFor(lines[0], order, rule)] + Items(lines[1..], order, rule)
  }

  /**
   * The payload built by `sendInvoiceToFBR` (lines 13-36); `AsWritten` is
   * the payload the code sends, `Corrected` the one with line 33 corrected.
   */
  function InvoicePayload(order: CompletedOrder, settings: FbrSettings, isoDate: string, rule: TaxRule): (p: FbrPayload)
    ensures p.sellerNtn == settings.ntn && p.posId == settings.posId
    ensures p.invoiceNumber == order.fbrInvoiceNumber && p.dateTime == isoDate
    ensures p.buyerNtn == "" && p.buyerPhoneNumber == "" && p.buyerName == BuyerName(order.customer)
    ensures p.totalBillAmount == order.total && p.totalSaleValue == order.subtotal && p.totalTaxCharged == order.tax
    ensures p.totalQuantity == TotalQuantity(order.cartItems)
    ensures p.paymentMode == PaymentMode(order.paymentMethod)
    ensures |p.items| == |order.cartItems|
  {
    FbrPayload(settings.ntn, settings.posId, order.fbrInvoiceNumber, isoDate, "", BuyerName(order.customer), "",
               order.total, TotalQuantity(order.cartItems), order.subtotal, order.tax,
               PaymentMode(order.paymentMethod), Items(order.cartItems, order, rule))
  }

  /**
   * One item per cart line, in the cart's order: its code reads back as the
   * line's product id, it carries the line's name and quantity, the line's
   * price times quantity as its sale value, no discount, the order's rate and
   * the apportioned tax: line 33's value as written, or the corrected one.
   */
  lemma ItemsDescribeLines(order: CompletedOrder, settings: FbrSettings, isoDate: string, rule: TaxRule)
    ensures var p := InvoicePayload(order, settings, isoDate, rule);
      && |p.items| == |order.cartItems|
      && forall k :: 0 <= k < |p.items| ==>
        var item, line := p.items[k], order.cartItems[k];
        && ParseDecimal(item.itemCode) == Some(line.id)
        && item.itemName == line.name && item.quantity == line.quantity
        && item.saleValue == line.price * line.quantity as real && item.discount == 0.0
        && item.taxRate == order.taxRate
        && (rule == AsWritten ==> item.taxCharged == ItemTaxChargedAsWritten(line, order))
        && (rule == Corrected ==> item.taxCharged == Some(ItemTaxCharged(line, order)))
  {
    forall k | 0 <= k < |order.cartItems| {
      DecimalStringRoundTrip(order.cartItems[k].id);
    }
  }

  // ---- The payload's totals agree with its items ----

  function SumQuantity(items: seq<FbrItem>): int {
    if |items| == 0 then 0 else items[0].quantity + SumQuantity(items[1..])
  }

  function SumSaleValue(items: seq<FbrItem>): real {
    if |items| == 0 then 0.0 else items[0].saleValue + SumSaleValue(items[1..])
  }

  /** The items' taxes added up; not a number as soon as one of them is not. */
  function SumTaxCharged(items: seq<FbrItem>): Option<real> {
    if forall k :: 0 <= k < |items| ==> items[k].taxCharged.Some? then Some(TaxTotal(items)) else None
  }

  /** The sum of the items' taxes that are numbers. */
  function TaxTotal(items: seq<FbrItem>): real {
    if |items| == 0 then 0.0 else TaxValue(items[0]) + TaxTotal(items[1..])
  }

  function TaxValue(item: FbrItem): real {
    if item.taxCharged.Some? then item.taxCharged.value else 0.0
  }

  lemma {:induction false} ItemsQuantity(lines: seq<CartItem>, order: CompletedOrder, rule: TaxRule)
    ensures SumQuantity(Items(lines, order, rule)) == TotalQuantity(lines)
  {
    if |lines| > 0 {
      ItemsQuantity(lines[1..], order, rule);
      assert Items(lines, order, rule)[1..] == Items(lines[1..], order, rule);
    }
  }

  lemma {:induction false} ItemsSaleValue(lines: seq<CartItem>, order: CompletedOrder, rule: TaxRule)
    ensures SumSaleValue(Items(lines, order, rule)) == Subtotal(lines)
  {
    if |lines| > 0 {
      ItemsSaleValue(lines[1..], order, rule);
      assert Items(lines, order, rule)[1..] == Items(lines[1..], order, rule);
    }
  }

  /**
   * Every item is taxed at the same factor of its sale value, so the items'
   * taxes are that factor of their total sale value: always under the
   * corrected rule, and as written whenever the subtotal is non-zero.
   */
  lemma {:induction false} ItemsTax(lines: seq<CartItem>, order: CompletedOrder, rule: TaxRule)
    requires rule == Corrected || order.subtotal != 0.0
    ensures SumTaxCharged(Items(lines, order, rule)) == Some(SumSaleValue(Items(lines, order, rule)) * TaxFactor(order))
  {
    ItemsTaxed(lines, order, rule);
    ItemsTaxTotal(lines, order, rule);
  }

  lemma ItemsTaxed(lines: seq<CartItem>, order: CompletedOrder, rule: TaxRule)
    requires rule == Corrected || order.subtotal != 0.0
    ensures forall k :: 0 <= k < |lines| ==> Items(lines, order, rule)[k].taxCharged.Some?
  {
  }

  lemma {:induction false} ItemsTaxTotal(lines: seq<CartItem>, order: CompletedOrder, rule: TaxRule)
    requires rule == Corrected || order.subtotal != 0.0
    ensures TaxTotal(Items(lines, order, rule)) == SumSaleValue(Items(lines, order, rule)) * TaxFactor(order)
  {
    if |lines| > 0 {
      var items, f := Items(lines, order, rule), TaxFactor(order);
      ItemsTaxTotal(lines[1..], order, rule);
      assert items[1..] == Items(lines[1..], order, rule);
      ItemTaxValue(lines[0], order, rule);
      Distribute(items[0].saleValue, SumSaleValue(items[1..]), f);
    }
  }

  /** Where the rule yields a number, an item's tax is its sale value times the common factor. */
  lemma ItemTaxValue(line: CartItem, order: CompletedOrder, rule: TaxRule)
    requires rule == Corrected || order.subtotal != 0.0
    ensures TaxValue(ItemFor(line, order, rule)) == LineTotal(line) * TaxFactor(order)
  {
    ItemTaxIsFactor(line, order);
    if rule == AsWritten {
      assert ItemTaxChargedAsWritten(line, order) == Some(ItemTaxCharged(line, order));
    }
  }

  /** As written, a zero subtotal makes every item's tax, and so their sum, not a number. */
  lemma {:induction false} ItemsTaxLost(lines: seq<CartItem>, order: CompletedOrder)
    requires order.subtotal == 0.0 && |lines| > 0
    ensures SumTaxCharged(Items(lines, order, AsWritten)) == None
  {
    assert Items(lines, order, AsWritten)[0].taxCharged == None;
  }

  /**
   * The invoice is consistent: `TotalQuantity` counts the units on the
   * items, and for an order the register recorded (its subtotal is the sum of
   * its lines) `TotalSaleValue` is the sum of the items' sale values.
   */
  lemma PayloadTotalsMatchItems(order: CompletedOrder, settings: FbrSettings, isoDate: string, rule: TaxRule)
    ensures var p := InvoicePayload(order, settings, isoDate, rule);
      && p.totalQuantity == SumQuantity(p.items)
      && (order.subtotal == Subtotal(order.cartItems) ==> p.totalSaleValue == SumSaleValue(p.items))
  {
    ItemsQuantity(order.cartItems, order, rule);
    ItemsSaleValue(order.cartItems, order, rule);
  }

  /**
   * Line 33 as written, for a recorded order: with a non-zero subtotal the
   * apportioned taxes add up to the tax on the discounted amount, and with no
   * discount to `TotalTaxCharged`, the register's subtotal times the rate;
   * with a zero subtotal and at least one line they add up to no number.
   */
  lemma ItemTaxesAddUp(order: CompletedOrder)
    requires order.subtotal == Subtotal(order.cartItems)
    ensures var sum := SumTaxCharged(Items(order.cartItems, order, AsWritten));
      && (order.subtotal != 0.0 ==> sum == Some((order.subtotal - Discount(order)) * order.taxRate))
      && (order.subtotal != 0.0 && Discount(order) == 0.0 && order.tax == order.subtotal * order.taxRate ==> sum == Some(order.tax))
      && (order.subtotal == 0.0 && |order.cartItems| > 0 ==> sum == None)
  {
    if order.subtotal != 0.0 {
      TaxesOfRecordedOrder(order, AsWritten);
    } else if |order.cartItems| > 0 {
      ItemsTaxLost(order.cartItems, order);
    }
  }

  /**
   * The corrected rule, for a recorded order of any subtotal: the item taxes
   * always add up to a number, the tax on the discounted amount when the
   * subtotal is non-zero, and with no discount to `TotalTaxCharged`.
   */
  lemma CorrectedTaxesAddUp(order: CompletedOrder)
    requires order.subtotal == Subtotal(order.cartItems)
    ensures var sum := SumTaxCharged(Items(order.cartItems, order, Corrected));
      && sum.Some?
      && (order.subtotal != 0.0 ==> sum == Some((order.subtotal - Discount(order)) * order.taxRate))
      && (Discount(order) == 0.0 && order.tax == order.subtotal * order.taxRate ==> sum == Some(order.tax))
  {
    TaxesOfRecordedOrder(order, Corrected);
  }

  /** For a recorded order, the items' taxes are the subtotal at the per-line factor, wherever the rule yields numbers. */
  lemma TaxesOfRecordedOrder(order: CompletedOrder, rule: TaxRule)
    requires order.subtotal == Subtotal(order.cartItems)
    requires rule == Corrected || order.subtotal != 0.0
    ensures var sum := SumTaxCharged(Items(order.cartItems, order, rule));
      && sum.Some?
      && (order.subtotal != 0.0 ==> sum.value == (order.subtotal - Discount(order)) * order.taxRate)
      && (Discount(order) == 0.0 ==> sum.value == order.subtotal * order.taxRate)
  {
    var items := Items(order.cartItems, order, rule);
    ItemsSaleValue(order.cartItems, order, rule);
    ItemsTaxed(order.cartItems, order, rule);
    ItemsTaxTotal(order.cartItems, order, rule);
    var taxed := TaxTotal(items);
    assert SumTaxCharged(items) == Some(taxed);
    ShareOfSubtotal(order, taxed);
  }

  /** The corrected payload differs from the one sent only when the subtotal is zero. */
  lemma CorrectedAgreesOnNonZeroSubtotal(order: CompletedOrder, settings: FbrSettings, isoDate: string)
    requires order.subtotal != 0.0
    ensures InvoicePayload(order, settings, isoDate, Corrected) == InvoicePayload(order, settings, isoDate, AsWritten)
  {
    var a, b := Items(order.cartItems, order, Corrected), Items(order.cartItems, order, AsWritten);
    assert a == b by {
      forall k | 0 <= k < |a| ensures a[k] == b[k] { }
    }
  }

  /** The subtotal taxed at the per-line factor is the tax on the discounted subtotal. */
  lemma ShareOfSubtotal(order: CompletedOrder, taxed: real)
    requires taxed == order.subtotal * TaxFactor(order)
    ensures order.subtotal != 0.0 ==> taxed == (order.subtotal - Discount(order)) * order.taxRate
    ensures Discount(order) == 0.0 ==> taxed == order.subtotal * order.taxRate
  {
    var s, k, t := order.subtotal, KeptShare(order), order.taxRate;
    assert s * (k * t) == (s * k) * t;
  }

  /**
   * The unguarded division of line 33: a cart of items priced 0 (the product
   * form accepts a price of 0) has subtotal 0, and then the item's tax is not
   * a number although the register's own tax for the sale is 0.
   */
  lemma ZeroSubtotalLosesItemTax(settings: FbrSettings, isoDate: string)
    ensures var line := CartItem(1, "Sample", "Coffee", 0.0, 10, "", 1);
      var order := CompletedOrder([line], None, Subtotal([line]), None, Tax(Subtotal([line]), 0.08),
                                  Total(Subtotal([line]), Tax(Subtotal([line]), 0.08)), Cash, None, None, 0,
                                  Currency("PKR", "Pakistani Rupee", "Rs"), 0.08, false, None);
      && order.subtotal == 0.0 && order.tax == 0.0
      && InvoicePayload(order, settings, isoDate, AsWritten).items[0].taxCharged.None?
      && SumTaxCharged(InvoicePayload(order, settings, isoDate, AsWritten).items) == None
      && SumTaxCharged(InvoicePayload(order, settings, isoDate, Corrected).items) == Some(order.tax)
  {
    var line := CartItem(1, "Sample", "Coffee", 0.0, 10, "", 1);
    assert Subtotal([line]) == LineTotal(line) + Subtotal([]);
    var order := CompletedOrder([line], None, Subtotal([line]), None, Tax(Subtotal([line]), 0.08),
                                Total(Subtotal([line]), Tax(Subtotal([line]), 0.08)), Cash, None, None, 0,
                                Currency("PKR", "Pakistani Rupee", "Rs"), 0.08, false, None);
    ItemTaxesAddUp(order);
    CorrectedTaxesAddUp(order);
  }
}
