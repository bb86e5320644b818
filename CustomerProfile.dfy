/**
 * The loyalty figures of the customer profile (components/CustomerProfileModal.tsx):
 * the defaults for a customer's optional fields, the progress bar towards the
 * next reward, the amount still to spend, and the item count of each past order.
 *
 * The progress is a JavaScript number: it is computed by a division that the
 * component does not guard, so a zero spend threshold yields an infinity or
 * not-a-number. `JsNumber` keeps those outcomes apart from finite values.
 */
module CustomerProfile {
  import opened Types
  import opened CartRules

  /** A JavaScript number with its non-finite values. */
  datatype JsNumber = Finite(v: real) | PosInfinity | NegInfinity | NotANumber

  /** `customer.totalSpent || 0` (line 24); a recorded 0 and a missing value both give 0. */
  function TotalSpent(c: Customer): (r: real)
    ensures c.totalSpent.None? ==> r == 0.0
    ensures c.totalSpent.Some? ==> r == c.totalSpent.value
  {
    match c.totalSpent
    case Some(v) => v
    case None => 0.0
  }

  /** `customer.rewardAvailable || false` (line 25). */
  function RewardAvailable(c: Customer): (r: bool)
    ensures r <==> c.rewardAvailable == Some(true)
  {
    match c.rewardAvailable
    case Some(b) => b
    case None => false
  }

  /** IEEE division of finite operands: a zero divisor gives an infinity, or not-a-number for 0/0. */
  function Divide(a: real, b: real): (r: JsNumber)
    ensures b != 0.0 ==> r == Finite(a / b)
    ensures b == 0.0 ==> (r.Finite? == false) && (r == NotANumber <==> a == 0.0)
  {
    if b != 0.0 then Finite(a / b)
    else if a > 0.0 then PosInfinity
    else if a < 0.0 then NegInfinity
    else NotANumber
  }

  /** `x * 100` for a positive constant factor. */
  function Percent(x: JsNumber): JsNumber {
    match x
    case Finite(v) => Finite(v * 100.0)
    case _ => x
  }

  /** `Math.min(x, 100)`: not-a-number propagates, +infinity is capped. */
  function MinHundred(x: JsNumber): (r: JsNumber)
    ensures r != PosInfinity
    ensures r.Finite? ==> r.v <= 100.0
    ensures x.Finite? ==> r.Finite? && (r.v == x.v || r.v == 100.0)
  {
    match x
    case Finite(v) => if v <= 100.0 then x else Finite(100.0)
    case PosInfinity => Finite(100.0)
    case NegInfinity => NegInfinity
    case NotANumber => NotANumber
  }

  /** `progressPercentage` (lines 27-31). */
  function ProgressPercentage(c: Customer, loyalty: LoyaltySettings): (r: JsNumber)
    ensures RewardAvailable(c) ==> r == Finite(100.0)
    ensures !RewardAvailable(c) && !loyalty.enabled ==> r == Finite(0.0)
    ensures r != PosInfinity && (r.Finite? ==> r.v <= 100.0)
    ensures !RewardAvailable(c) && loyalty.enabled && loyalty.spendThreshold > 0.0 && TotalSpent(c) >= 0.0 ==>
      r.Finite? && 0.0 <= r.v <= 100.0
    ensures !RewardAvailable(c) && loyalty.enabled && loyalty.spendThreshold == 0.0 && TotalSpent(c) == 0.0 ==>
      r == NotANumber
    ensures !RewardAvailable(c) && loyalty.enabled && 0.0 <= TotalSpent(c) < loyalty.spendThreshold ==>
      r.Finite? && r.v * loyalty.spendThreshold == 100.0 * TotalSpent(c)
    ensures !RewardAvailable(c) && loyalty.enabled && 0.0 < loyalty.spendThreshold <= TotalSpent(c) ==>
      r == Finite(100.0)
  {
    if RewardAvailable(c) then Finite(100.0)
    else if loyalty.enabled then
      var q := Divide(TotalSpent(c), loyalty.spendThreshold);
      assert loyalty.spendThreshold > 0.0 && TotalSpent(c) >= 0.0 ==> q.Finite? && q.v >= 0.0;
      MinHundred(Percent(q))
    else Finite(0.0)
  }

  /** `amountToNextReward` (line 33): what is left to spend; never negative. */
  function AmountToNextReward(c: Customer, loyalty: LoyaltySettings): (r: real)
    ensures r >= 0.0
    ensures !loyalty.enabled ==> r == 0.0
    ensures loyalty.enabled ==> r >= loyalty.spendThreshold - TotalSpent(c)
    ensures loyalty.enabled && r > 0.0 ==> TotalSpent(c) + r == loyalty.spendThreshold
  {
    if loyalty.enabled then
      if loyalty.spendThreshold - TotalSpent(c) >= 0.0 then loyalty.spendThreshold - TotalSpent(c) else 0.0
    else 0.0
  }

  /**
   * The two figures agree: while the progress bar is shown (loyalty enabled,
   * no reward yet), nothing is left to spend exactly when the bar is full,
   * and otherwise the spend so far and the amount left make up the threshold.
   */
  lemma ProgressMatchesAmountLeft(c: Customer, loyalty: LoyaltySettings)
    requires loyalty.enabled && !RewardAvailable(c)
    requires loyalty.spendThreshold > 0.0 && TotalSpent(c) >= 0.0
    ensures AmountToNextReward(c, loyalty) == 0.0 <==> ProgressPercentage(c, loyalty) == Finite(100.0)
    ensures AmountToNextReward(c, loyalty) > 0.0 ==>
      ProgressPercentage(c, loyalty).v * loyalty.spendThreshold == 100.0 * TotalSpent(c)
  {
    RatioBelowOne(TotalSpent(c), loyalty.spendThreshold);
  }

  /** For a positive divisor the ratio is below one exactly when the dividend is below the divisor. */
  lemma RatioBelowOne(a: real, b: real)
    requires b > 0.0
    ensures a < b <==> a / b < 1.0
  {
    assert (a / b - 1.0) * b == a - b;
  }

  /** The item count of an order in the history table (line 92): the units on its lines. */
  function ItemCount(order: CompletedOrder): int {
    TotalQuantity(order.cartItems)
  }

  /** Every line of a cart the register builds holds at least one unit, so an order counts at least one item per line. */
  lemma {:induction false} ItemCountBounds(lines: seq<CartItem>)
    requires forall k :: 0 <= k < |lines| ==> lines[k].quantity >= 0
    ensures TotalQuantity(lines) >= 0
    ensures (forall k :: 0 <= k < |lines| ==> lines[k].quantity >= 1) ==> TotalQuantity(lines) >= |lines|
    ensures TotalQuantity(lines) == 0 <==> forall k :: 0 <= k < |lines| ==> lines[k].quantity == 0
  {
    if |lines| > 0 {
      ItemCountBounds(lines[1..]);
      assert forall k :: 1 <= k < |lines| ==> lines[k] == lines[1..][k - 1];
    }
  }
}
