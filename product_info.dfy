/**
 * The quantity picker on the product page (`Productinfo.jsx`): a counter that starts at 1,
 * steps up and down without going below 1, and is handed to the cart.
 */
module ProductInfo {
  import opened Cart

  /** `handleQuantityChange(action)` on the current quantity. */
  function Step(quantity: int, action: string): (r: int)
    ensures quantity >= 1 ==> r >= 1
    ensures action == "increment" ==> r == quantity + 1
    ensures action == "decrement" && quantity > 1 ==> r == quantity - 1
    ensures action != "increment" && (action != "decrement" || quantity <= 1) ==> r == quantity
  {
    if action == "increment" then quantity + 1
    else if action == "decrement" && quantity > 1 then quantity - 1
    else quantity
  }

  /** Decrement undoes increment. */
  lemma DecrementUndoesIncrement(quantity: int)
    requires quantity >= 1
    ensures Step(Step(quantity, "increment"), "decrement") == quantity
  {
  }

  /** Increment undoes decrement, except at the floor of 1. */
  lemma IncrementUndoesDecrement(quantity: int)
    requires quantity > 1
    ensures Step(Step(quantity, "decrement"), "increment") == quantity
  {
  }

  class QuantitySelector {
    var quantity: int

    constructor()
      ensures quantity == 1
    {
      quantity := 1;
    }

    method HandleQuantityChange(action: string)
      modifies this
      ensures quantity == Step(old(quantity), action)
      ensures old(quantity) >= 1 ==> quantity >= 1
    {
      if action == "increment" {
        quantity := quantity + 1;
      } else if action == "decrement" && quantity > 1 {
        quantity := quantity - 1;
      }
    }

    /** Add to Cart: `addToCart(product, quantity)`. */
    method HandleAddToCart(cart: CartStore, product: Product)
      modifies cart
      ensures cart.items == Added(old(cart.items), product, quantity)
      ensures quantity == old(quantity)
    {
      cart.AddToCart(product, quantity);
    }

    /** Buy Now: the same call as Add to Cart, followed by navigation to the cart page. */
    method HandleBuyNow(cart: CartStore, product: Product)
      modifies cart
      ensures cart.items == Added(old(cart.items), product, quantity)
      ensures quantity == old(quantity)
    {
      cart.AddToCart(product, quantity);
    }
  }
}
