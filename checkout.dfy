/**
 * The cart panel and payment dialog: the amounts derived from the cart lines and
 * the discount percentage, the quantity buttons, and the two-field state machine
 * of the payment dialog.
 */
module Checkout {
  import opened Wrappers
  import opened Catalog
  import opened CartState

  // ---------------------------------------------------------------------------
  // Rounding
  // ---------------------------------------------------------------------------

  /**
   * `Math.round(num / den)` for a positive denominator: the nearest integer,
   * halves rounded towards positive infinity.
   */
  function RoundDiv(num: int, den: int): (r: int)
    requires den > 0
    ensures 2 * den * r - den <= 2 * num < 2 * den * r + den
  {
    var a, m := 2 * num + den, 2 * den;
    var q := a / m;
    assert q * m <= a < q * m + m;
    q
  }

  /** The bounds in RoundDiv's contract single out its result. */
  lemma RoundDivUnique(num: int, den: int, r: int)
    requires den > 0
    requires 2 * den * r - den <= 2 * num < 2 * den * r + den
    ensures r == RoundDiv(num, den)
  {
    var q := RoundDiv(num, den);
    if r > q {
      ScaledGap(2 * den, r, q);
    } else if r < q {
      ScaledGap(2 * den, q, r);
    }
  }

  /** Integers at least one apart stay at least `m` apart when scaled by `m`. */
  lemma ScaledGap(m: int, x: int, y: int)
    requires m > 0 && x > y
    ensures m * x >= m * y + m
  {
    var d := x - y - 1;
    assert m * x == m * (y + d + 1);
    assert m * (y + d + 1) == m * y + m * d + m;
    assert m * d >= 0;
  }

  // ---------------------------------------------------------------------------
  // Derived amounts
  // ---------------------------------------------------------------------------

  /** `subtotal`: the sum of price times quantity over the lines. */
  function Subtotal(items: seq<CartItem>): (r: int)
    ensures items == [] ==> r == 0
    ensures NonNegative(items) ==> r >= 0
  {
    if items == [] then 0
    else Amount(items[0]) + Subtotal(items[1..])
  }

  /** `item.price * item.quantity`: what one line costs. */
  function Amount(line: CartItem): (r: int)
    ensures line.product.price >= 0 && line.quantity >= 0 ==> r >= 0
  {
    line.product.price * line.quantity
  }

  /** Every line has a non-negative price and a non-negative quantity. */
  predicate NonNegative(items: seq<CartItem>)
  {
    forall i :: 0 <= i < |items| ==> items[i].product.price >= 0 && items[i].quantity >= 0
  }

  /** `discountAmount`: the discount percentage of the subtotal, rounded. */
  function DiscountAmount(subtotal: int, discount: int): (r: int)
    ensures 200 * r - 100 <= 2 * subtotal * discount < 200 * r + 100
    ensures 0 <= subtotal && 0 <= discount <= 100 ==> 0 <= r <= subtotal
    ensures discount == 0 ==> r == 0
  {
    assert 0 <= subtotal && 0 <= discount <= 100 ==> 0 <= subtotal * discount <= 100 * subtotal;
    RoundDiv(subtotal * discount, 100)
  }

  /** `total`: the subtotal less the discount. */
  function Total(subtotal: int, discount: int): (r: int)
    ensures 0 <= subtotal && 0 <= discount <= 100 ==> 0 <= r <= subtotal
    ensures discount == 0 ==> r == subtotal
  {
    subtotal - DiscountAmount(subtotal, discount)
  }

  /** The payment methods the dialog lists. */
  datatype PaymentMethod = Sber | TBank | Sbp

  /** Only the Sber button is enabled; the other two are placeholders. */
  predicate Enabled(m: PaymentMethod)
  {
    m == Sber
  }

  /** `commission`: two percent of the total, rounded, for Sber; nothing otherwise. */
  function Commission(total: int, chosen: Option<PaymentMethod>): (r: int)
    ensures chosen != Some(Sber) ==> r == 0
    ensures chosen == Some(Sber) ==> 200 * r - 100 <= 4 * total < 200 * r + 100
    ensures total >= 0 ==> 0 <= r <= total
  {
    if chosen == Some(Sber) then RoundDiv(total * 2, 100) else 0
  }

  /** `finalTotal`: the total plus the commission. */
  function FinalTotal(total: int, chosen: Option<PaymentMethod>): (r: int)
    ensures total >= 0 ==> total <= r <= 2 * total
    ensures chosen != Some(Sber) ==> r == total
  {
    total + Commission(total, chosen)
  }

  // ---------------------------------------------------------------------------
  // Lemmas about the amounts
  // ---------------------------------------------------------------------------

  lemma {:induction false} SubtotalConcat(a: seq<CartItem>, b: seq<CartItem>)
    ensures Subtotal(a + b) == Subtotal(a) + Subtotal(b)
  {
    if a == [] {
      assert a + b == b;
    } else {
      assert (a + b)[1..] == a[1..] + b;
      SubtotalConcat(a[1..], b);
    }
  }

  /** One more unit adds the unit price to the line amount. */
  lemma LineAmountIncrement(line: CartItem)
    ensures Amount(line.(quantity := line.quantity + 1)) == Amount(line) + line.product.price
  {
    assert line.product.price * (line.quantity + 1) == line.product.price * line.quantity + line.product.price;
  }

  /** Raising the quantity of line `i`, the only one with its id, adds that line's price. */
  lemma {:induction false} IncrementedSubtotal(items: seq<CartItem>, i: nat)
    requires UniqueIds(items) && i < |items|
    ensures Subtotal(Incremented(items, items[i].product.id)) == Subtotal(items) + items[i].product.price
  {
    var id := items[i].product.id;
    var r := Incremented(items, id);
    if i == 0 {
      IncrementedHead(items);
      LineAmountIncrement(items[0]);
    } else {
      assert r[1..] == Incremented(items[1..], id);
      UniqueIdsCons(items);
      assert items[1..][i - 1] == items[i];
      assert r[0] == items[0];
      IncrementedSubtotal(items[1..], i - 1);
    }
  }

  /** Raising the first line's quantity touches no other line when ids are unique. */
  lemma IncrementedHead(items: seq<CartItem>)
    requires UniqueIds(items) && items != []
    ensures Incremented(items, items[0].product.id) ==
      [items[0].(quantity := items[0].quantity + 1)] + items[1..]
  {
    var r := Incremented(items, items[0].product.id);
    forall k | 1 <= k < |items| ensures r[k] == items[k] {
      assert items[0].product.id != items[k].product.id;
    }
  }

  /** `addToCart(p)` raises the subtotal by the price of the product's line. */
  lemma AddedSubtotal(items: seq<CartItem>, p: Product)
    requires UniqueIds(items)
    ensures Subtotal(Added(items, p)) ==
      Subtotal(items) + (match Find(items, p.id) case Some(line) => line.product.price case None => p.price)
  {
    match Find(items, p.id)
    case Some(line) =>
      var i :| 0 <= i < |items| && items[i] == line && line.product.id == p.id;
      IncrementedSubtotal(items, i);
    case None =>
      SubtotalConcat(items, [CartItem(p, 1)]);
  }

  /** Removing a line lowers the subtotal by exactly that line's amount. */
  lemma {:induction false} WithoutSubtotal(items: seq<CartItem>, i: nat)
    requires UniqueIds(items) && i < |items|
    ensures Subtotal(Without(items, items[i].product.id)) ==
      Subtotal(items) - Amount(items[i])
  {
    var id := items[i].product.id;
    UniqueIdsCons(items);
    if i == 0 {
      assert !HasId(items[1..], id) by {
        forall k | 0 <= k < |items[1..]| ensures items[1..][k].product.id != id {
          assert items[1..][k] in items[1..];
        }
      }
      assert Without(items, id) == Without(items[1..], id) == items[1..];
    } else {
      assert items[1..][i - 1] == items[i];
      assert items[0].product.id != id;
      assert Without(items, id) == [items[0]] + Without(items[1..], id);
      WithoutSubtotal(items[1..], i - 1);
    }
  }

  /** Totals are never negative, and the payable amount is never below the total. */
  lemma TotalsNonNegative(items: seq<CartItem>, discount: int, chosen: Option<PaymentMethod>)
    requires NonNegative(items) && 0 <= discount <= 100
    ensures var total := Total(Subtotal(items), discount);
      && 0 <= DiscountAmount(Subtotal(items), discount) <= Subtotal(items)
      && 0 <= total <= Subtotal(items)
      && total <= FinalTotal(total, chosen)
  {
  }

  /** Twenty percent of 1000 is 200, leaving 800. */
  lemma DiscountExample()
    ensures DiscountAmount(1000, 20) == 200 && Total(1000, 20) == 800
  {
  }

  /** Two percent of 800 is 16, so 816 is payable. */
  lemma CommissionExample()
    ensures Commission(800, Some(Sber)) == 16 && FinalTotal(800, Some(Sber)) == 816
  {
  }

  // ---------------------------------------------------------------------------
  // The quantity buttons of the cart panel
  // ---------------------------------------------------------------------------

  /** The quantity the minus button asks for: one less, but never below one. */
  function DecrementTarget(q: int): (r: int)
    ensures r >= 1
    ensures q >= 2 ==> r == q - 1
    ensures q <= 1 ==> r == 1
  {
    if 1 > q - 1 then 1 else q - 1
  }

  /** The minus button of line `i`. */
  method ClickMinus(session: Session, i: nat)
    requires session.Valid() && i < |session.cartItems|
    modifies session
    ensures session.Valid()
    ensures session.cartItems ==
      WithQuantity(old(session.cartItems), old(session.cartItems[i].product.id), DecrementTarget(old(session.cartItems[i].quantity)))
    ensures AllPositive(old(session.cartItems)) ==> AllPositive(session.cartItems)
    ensures session.isCartOpen == old(session.isCartOpen) && session.discountActivated == old(session.discountActivated)
  {
    var line := session.cartItems[i];
    if AllPositive(session.cartItems) {
      WithQuantityKeepsPositive(session.cartItems, line.product.id, DecrementTarget(line.quantity));
    }
    session.UpdateQuantity(line.product.id, DecrementTarget(line.quantity));
  }

  /** The plus button of line `i`. */
  method ClickPlus(session: Session, i: nat)
    requires session.Valid() && i < |session.cartItems|
    modifies session
    ensures session.Valid()
    ensures session.cartItems ==
      WithQuantity(old(session.cartItems), old(session.cartItems[i].product.id), old(session.cartItems[i].quantity) + 1)
    ensures AllPositive(old(session.cartItems)) ==> AllPositive(session.cartItems)
    ensures TotalItems(session.cartItems) == TotalItems(old(session.cartItems)) + 1
    ensures session.isCartOpen == old(session.isCartOpen) && session.discountActivated == old(session.discountActivated)
  {
    var line := session.cartItems[i];
    if AllPositive(session.cartItems) {
      WithQuantityKeepsPositive(session.cartItems, line.product.id, line.quantity + 1);
    }
    WithQuantityTotal(session.cartItems, i, line.quantity + 1);
    session.UpdateQuantity(line.product.id, line.quantity + 1);
  }

  /** The remove button of line `i`: the subtotal drops by that line's amount. */
  method ClickRemove(session: Session, i: nat)
    requires session.Valid() && i < |session.cartItems|
    modifies session
    ensures session.Valid()
    ensures session.cartItems == Without(old(session.cartItems), old(session.cartItems[i].product.id))
    ensures Subtotal(session.cartItems) ==
      Subtotal(old(session.cartItems)) - Amount(old(session.cartItems[i]))
    ensures AllPositive(old(session.cartItems)) ==> AllPositive(session.cartItems)
    ensures session.isCartOpen == old(session.isCartOpen) && session.discountActivated == old(session.discountActivated)
  {
    var line := session.cartItems[i];
    WithoutSubtotal(session.cartItems, i);
    if AllPositive(session.cartItems) {
      WithoutKeepsPositive(session.cartItems, line.product.id);
    }
    session.RemoveFromCart(line.product.id);
  }

  /** Setting the quantity of the one line with a given id changes the item count by the difference. */
  lemma {:induction false} WithQuantityTotal(items: seq<CartItem>, i: nat, q: int)
    requires UniqueIds(items) && i < |items|
    ensures TotalItems(WithQuantity(items, items[i].product.id, q)) == TotalItems(items) - items[i].quantity + q
  {
    var id := items[i].product.id;
    var r := WithQuantity(items, id, q);
    assert r[1..] == WithQuantity(items[1..], id, q);
    UniqueIdsCons(items);
    if i == 0 {
      assert r[1..] == items[1..] by {
        forall k | 0 <= k < |items[1..]| ensures r[1..][k] == items[1..][k] {
          assert items[1..][k] in items[1..];
        }
      }
    } else {
      assert items[1..][i - 1] == items[i];
      WithQuantityTotal(items[1..], i - 1, q);
    }
  }

  // ---------------------------------------------------------------------------
  // The payment dialog
  // ---------------------------------------------------------------------------

  /** The payment dialog's state: whether it is shown, and the chosen method. */
  class PaymentDialog {
    var showPayment: bool
    var paymentMethod: Option<PaymentMethod>

    /** No disabled method is chosen. */
    ghost predicate ChosenIsEnabled()
      reads this
    {
      paymentMethod.Some? ==> Enabled(paymentMethod.value)
    }

    constructor ()
      ensures !showPayment && paymentMethod == None
      ensures ChosenIsEnabled()
    {
      showPayment := false;
      paymentMethod := None;
    }

    /** `handleCheckout`: opens the dialog only for a non-empty cart. */
    method HandleCheckout(items: seq<CartItem>)
      modifies this
      ensures showPayment == (old(showPayment) || items != [])
      ensures paymentMethod == old(paymentMethod)
    {
      if |items| > 0 {
        showPayment := true;
      }
    }

    /** `handlePayment(m)`: records the chosen method. */
    method HandlePayment(m: PaymentMethod)
      modifies this
      ensures paymentMethod == Some(m)
      ensures showPayment == old(showPayment)
      ensures ChosenIsEnabled() <==> Enabled(m)
    {
      paymentMethod := Some(m);
    }

    /** The back button: clears the chosen method, leaving the dialog shown. */
    method Back()
      modifies this
      ensures paymentMethod == None
      ensures showPayment == old(showPayment)
      ensures ChosenIsEnabled()
    {
      paymentMethod := None;
    }

    /** The dialog's open-state handler; closing keeps the chosen method. */
    method OnOpenChange(open: bool)
      modifies this
      ensures showPayment == open
      ensures paymentMethod == old(paymentMethod)
    {
      showPayment := open;
    }
  }

  /** A checkout session as the enabled controls drive it: Sber is chosen, the dialog is closed and reopened. */
  method CheckoutScenario(items: seq<CartItem>)
    requires items != []
  {
    var dialog := new PaymentDialog();
    dialog.HandleCheckout(items);
    assert dialog.showPayment;
    dialog.HandlePayment(Sber);
    dialog.OnOpenChange(false);
    dialog.HandleCheckout(items);
    assert dialog.showPayment && dialog.paymentMethod == Some(Sber) && dialog.ChosenIsEnabled();
    dialog.Back();
    assert dialog.showPayment && dialog.paymentMethod == None;
  }
}
