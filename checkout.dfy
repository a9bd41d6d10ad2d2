/**
 * The cart page (`Cart.jsx`): the order summary derived from the cart lines, and the
 * stepper, remove and clear buttons, which only forward to the cart store.
 */
module Checkout {
  import opened Js
  import opened Cart

  /** Shipping is free only for a subtotal strictly above $100. */
  const FreeShippingAboveCents := 10000
  const ShippingCents := 1500

  /**
   * The order summary. `subtotal` and `shipping` are in cents; tax and total are in
   * hundredths of a cent, so that 8% of a whole number of cents is exact.
   */
  datatype Summary = Summary(
    lineAmounts: seq<int>,
    subtotal: int,
    shipping: int,
    taxHundredths: int,
    totalHundredths: int,
    lineCount: nat,
    showsEmptyState: bool)

  /** `subtotal > 100 ? 0 : 15` */
  function Shipping(subtotal: int): (r: int)
    ensures r == 0 <==> subtotal > FreeShippingAboveCents
    ensures r == 0 || r == ShippingCents
  {
    if subtotal > FreeShippingAboveCents then 0 else ShippingCents
  }

  /** The amount printed on each line: price times quantity. */
  function LineAmounts(items: seq<Item>): (r: seq<int>)
    ensures |r| == |items|
    ensures forall i :: 0 <= i < |items| ==> r[i] == items[i].product.priceCents * items[i].quantity
  {
    if items == [] then [] else [LineAmount(items[0])] + LineAmounts(items[1..])
  }

  function Summarize(items: seq<Item>): (r: Summary)
    ensures r.lineAmounts == LineAmounts(items)
    ensures r.subtotal == CartTotal(items)
    ensures r.shipping == Shipping(r.subtotal)
    ensures r.taxHundredths == 8 * r.subtotal
    ensures r.totalHundredths == 100 * r.subtotal + 100 * r.shipping + r.taxHundredths
    ensures r.lineCount == |items|
    ensures r.showsEmptyState <==> items == []
  {
    var subtotal := CartTotal(items);
    var shipping := Shipping(subtotal);
    var tax := subtotal * 8;
    Summary(LineAmounts(items), subtotal, shipping, tax, subtotal * 100 + shipping * 100 + tax,
            |items|, |items| == 0)
  }

  function Identity(x: int): int
  {
    x
  }

  /** The amounts shown on the lines add up to the subtotal. */
  lemma {:induction false} LineAmountsSumToSubtotal(items: seq<Item>)
    ensures Sum(Summarize(items).lineAmounts, Identity) == Summarize(items).subtotal
  {
    LineAmountsSum(items);
  }

  lemma {:induction false} LineAmountsSum(items: seq<Item>)
    ensures Sum(LineAmounts(items), Identity) == Sum(items, LineAmount)
  {
    if items != [] {
      LineAmountsSum(items[1..]);
      assert LineAmounts(items)[1..] == LineAmounts(items[1..]);
    }
  }

  /**
   * The header counts lines, not units: when every line holds at least one unit, there
   * are never more lines than units.
   */
  lemma {:induction false} LinesAtMostUnits(items: seq<Item>)
    requires forall i :: 0 <= i < |items| ==> items[i].quantity >= 1
    ensures Summarize(items).lineCount <= CartCount(items)
  {
    if items != [] {
      LinesAtMostUnits(items[1..]);
    }
  }

  /** A subtotal of exactly $100 still pays shipping, and one cent more does not. */
  lemma ShippingThreshold()
    ensures Summarize([Item(Product("", Some(1), "", 10000), 1)]).shipping == ShippingCents
    ensures Summarize([Item(Product("", Some(1), "", 10001), 1)]).shipping == 0
  {
    var a := [Item(Product("", Some(1), "", 10000), 1)];
    var b := [Item(Product("", Some(1), "", 10001), 1)];
    assert Sum(a, LineAmount) == 10000 && Sum(b, LineAmount) == 10001;
  }

  // ---------------------------------------------------------------------------
  // Buttons
  // ---------------------------------------------------------------------------

  /** The minus button is disabled at a quantity of 1 or less. */
  predicate MinusDisabled(quantity: int)
  {
    quantity <= 1
  }

  /** Minus: `updateQuantity(id, quantity - 1)`, only while the button is enabled. */
  method ClickMinus(cart: CartStore, item: Item)
    modifies cart
    ensures !MinusDisabled(item.quantity) ==>
      cart.items == WithQuantity(old(cart.items), LineId(item), item.quantity - 1)
    ensures MinusDisabled(item.quantity) ==> cart.items == old(cart.items)
    ensures |cart.items| == |old(cart.items)|
  {
    if !MinusDisabled(item.quantity) {
      cart.UpdateQuantity(LineId(item), item.quantity - 1);
    }
  }

  /** Plus: `updateQuantity(id, quantity + 1)`; from a non-negative quantity it keeps the line. */
  method ClickPlus(cart: CartStore, item: Item)
    modifies cart
    ensures item.quantity >= 0 ==>
      cart.items == WithQuantity(old(cart.items), LineId(item), item.quantity + 1) &&
      |cart.items| == |old(cart.items)|
  {
    cart.UpdateQuantity(LineId(item), item.quantity + 1);
  }

  /** The trash button: `removeFromCart(id)`. */
  method ClickRemove(cart: CartStore, item: Item)
    modifies cart
    ensures cart.items == Removed(old(cart.items), LineId(item))
  {
    cart.RemoveFromCart(LineId(item));
  }

  /** Clear Cart, which empties the cart only when the user confirms. */
  method ClickClear(cart: CartStore, confirmed: bool)
    modifies cart
    ensures confirmed ==> cart.items == []
    ensures !confirmed ==> cart.items == old(cart.items)
  {
    if confirmed {
      cart.ClearCart();
    }
  }
}
