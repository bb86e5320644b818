/**
 * The checkout dialog (components/PaymentModal.tsx): the chosen payment
 * method, the cash tendered, whether the payment may be confirmed, and the
 * change shown. The tendered text is held as its `parseFloat` result.
 */
module Payment {
  import opened Types

  /** What the dialog hands to the register: the method, and for cash the amount tendered. */
  datatype Confirmation = Confirmation(paymentMethod: PaymentMethod, amountTendered: Option<real>)

  /** `isCashPaymentInvalid` (PaymentModal.tsx:35): cash that is unreadable or short of the total. */
  predicate IsCashPaymentInvalid(paymentMethod: PaymentMethod, tendered: ParsedFloat, totalAmount: real) {
    paymentMethod == Cash && (tendered.NaN? || tendered.value < totalAmount)
  }

  /** `change` (PaymentModal.tsx:36): what is handed back; never negative. */
  function ChangeDue(paymentMethod: PaymentMethod, tendered: ParsedFloat, totalAmount: real): (r: real)
    ensures r >= 0.0
    ensures paymentMethod == Card ==> r == 0.0
    ensures paymentMethod == Cash && tendered.Num? && tendered.value >= totalAmount ==> r + totalAmount == tendered.value
    ensures IsCashPaymentInvalid(paymentMethod, tendered, totalAmount) ==> r == 0.0
  {
    if paymentMethod == Cash && !IsCashPaymentInvalid(paymentMethod, tendered, totalAmount) then tendered.value - totalAmount else 0.0
  }

  /**
   * The confirm button (PaymentModal.tsx:27-33, 93): disabled, so nothing
   * reaches the register, while the payment is invalid; card confirms without
   * an amount, cash with the parsed amount, which then covers the total.
   */
  function ConfirmedPayment(paymentMethod: PaymentMethod, tendered: ParsedFloat, totalAmount: real): (r: Option<Confirmation>)
    ensures r.None? <==> IsCashPaymentInvalid(paymentMethod, tendered, totalAmount)
    ensures r.Some? ==> r.value.paymentMethod == paymentMethod
    ensures paymentMethod == Card ==> r == Some(Confirmation(Card, None))
    ensures r.Some? && paymentMethod == Cash ==>
      tendered.Num? && r.value.amountTendered == Some(tendered.value) && tendered.value >= totalAmount
  {
    if IsCashPaymentInvalid(paymentMethod, tendered, totalAmount) then None
    else if paymentMethod == Cash then Some(Confirmation(Cash, Some(tendered.value)))
    else Some(Confirmation(Card, None))
  }

  /** Card payments are never blocked, whatever is in the cash field. */
  lemma CardNeverBlocked(tendered: ParsedFloat, totalAmount: real)
    ensures !IsCashPaymentInvalid(Card, tendered, totalAmount)
    ensures ConfirmedPayment(Card, tendered, totalAmount).Some?
  {
  }

  /** The dialog's state (PaymentModal.tsx:15-16). */
  class PaymentModal {
    var activeMethod: PaymentMethod
    var cashTendered: ParsedFloat

    /** `useState('Card')` and `useState('')`; the empty text parses to NaN. */
    constructor ()
      ensures activeMethod == Card && cashTendered == NaN
    {
      activeMethod := Card;
      cashTendered := NaN;
    }

    /** The effect run when the dialog opens (PaymentModal.tsx:18-23): back to card and an empty cash field. */
    method Open()
      modifies this
      ensures activeMethod == Card && cashTendered == NaN
    {
      activeMethod := Card;
      cashTendered := NaN;
    }

    /** The card and cash buttons. */
    method SelectMethod(m: PaymentMethod)
      modifies this
      ensures activeMethod == m && cashTendered == old(cashTendered)
    {
      activeMethod := m;
    }

    /** Typing into the cash field. */
    method EnterCash(parsed: ParsedFloat)
      modifies this
      ensures cashTendered == parsed && activeMethod == old(activeMethod)
    {
      cashTendered := parsed;
    }

    /** The change line shown for the current state. */
    function Change(totalAmount: real): (r: real)
      reads this
      ensures r >= 0.0
      ensures r > 0.0 ==> activeMethod == Cash && cashTendered.Num? && cashTendered.value == totalAmount + r
    {
      ChangeDue(activeMethod, cashTendered, totalAmount)
    }

    /** Pressing confirm; `None` while the button is disabled. */
    method Confirm(totalAmount: real) returns (r: Option<Confirmation>)
      ensures r == ConfirmedPayment(activeMethod, cashTendered, totalAmount)
      ensures r.Some? && r.value.paymentMethod == Cash ==> r.value.amountTendered.Some? && r.value.amountTendered.value >= totalAmount
    {
      if activeMethod == Cash {
        if cashTendered.NaN? || cashTendered.value < totalAmount {
          r := None;
        } else {
          r := Some(Confirmation(Cash, Some(cashTendered.value)));
        }
      } else {
        r := Some(Confirmation(Card, None));
      }
    }
  }
}
