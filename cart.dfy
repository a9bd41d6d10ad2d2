/**
 * The shopping cart store (`ShoppingContext.jsx`): a list of cart lines, one per product,
 * each line being the product record spread together with a `quantity`, plus the flag
 * that says whether the cart drawer is open.
 */
module Cart {
  import opened Js

  /**
   * The fields of a product the cart reads. `mongoId` is `_id`, with `""` standing for
   * an absent or empty `_id` (both are falsy and behave alike); `id` is the local id.
   * Prices are whole cents.
   */
  datatype Product = Product(mongoId: string, id: Option<int>, name: string, priceCents: int)

  /** The value `getProductId` returns: `_id`, else `id`, else `undefined`. */
  datatype Key = MongoKey(s: string) | LocalKey(n: int) | NoKey

  /** A cart line: `{...product, quantity}`. */
  datatype Item = Item(product: Product, quantity: int)

  /** `product._id || product.id` */
  function ProductId(p: Product): (k: Key)
    ensures k.MongoKey? <==> p.mongoId != ""
    ensures k.MongoKey? ==> k.s == p.mongoId
    ensures k.LocalKey? <==> p.mongoId == "" && p.id.Some?
    ensures k.LocalKey? ==> k.n == p.id.value
  {
    if p.mongoId != "" then MongoKey(p.mongoId)
    else if p.id.Some? then LocalKey(p.id.value)
    else NoKey
  }

  function LineId(it: Item): Key
  {
    ProductId(it.product)
  }

  function Units(it: Item): int
  {
    it.quantity
  }

  /** What a line costs: price times quantity, in cents. */
  function LineAmount(it: Item): int
  {
    it.product.priceCents * it.quantity
  }

  /** No two lines share a product id. */
  ghost predicate DistinctIds(items: seq<Item>)
  {
    forall i, j :: 0 <= i < j < |items| ==> LineId(items[i]) != LineId(items[j])
  }

  /** `isInCart(productId)`: `cartItems.some(item => getProductId(item) === productId)` */
  predicate IsInCart(items: seq<Item>, k: Key)
  {
    exists i | 0 <= i < |items| :: LineId(items[i]) == k
  }

  /** `getCartTotal()`: the reduce over the lines, which equals the sum of the line amounts. */
  function CartTotal(items: seq<Item>): (r: int)
    ensures r == Sum(items, LineAmount)
  {
    ReduceIsSum(items, LineAmount, 0);
    Reduce(items, LineAmount, 0)
  }

  /** `getCartCount()`: the reduce over the lines, which equals the sum of the quantities. */
  function CartCount(items: seq<Item>): (r: int)
    ensures r == Sum(items, Units)
  {
    ReduceIsSum(items, Units, 0);
    Reduce(items, Units, 0)
  }

  /**
   * `items.map(item => getProductId(item) === k ? {...item, quantity: f(item.quantity)} : item)`:
   * every line with id `k` gets quantity `f` of its old quantity; nothing else changes.
   */
  function MapMatching(items: seq<Item>, k: Key, f: int -> int): (r: seq<Item>)
    ensures |r| == |items|
    ensures forall i :: 0 <= i < |items| ==> r[i].product == items[i].product
    ensures forall i :: 0 <= i < |items| && LineId(items[i]) == k ==> r[i].quantity == f(items[i].quantity)
    ensures forall i :: 0 <= i < |items| && LineId(items[i]) != k ==> r[i] == items[i]
  {
    if items == [] then []
    else
      var head := if LineId(items[0]) == k then Item(items[0].product, f(items[0].quantity)) else items[0];
      [head] + MapMatching(items[1..], k, f)
  }

  /** The lines after `addToCart(product, quantity)`. */
  function Added(items: seq<Item>, product: Product, quantity: int): (r: seq<Item>)
    ensures IsInCart(r, ProductId(product))
    ensures IsInCart(items, ProductId(product)) ==>
      |r| == |items| &&
      (forall i :: 0 <= i < |items| && LineId(items[i]) == ProductId(product) ==>
         r[i] == Item(items[i].product, items[i].quantity + quantity)) &&
      (forall i :: 0 <= i < |items| && LineId(items[i]) != ProductId(product) ==> r[i] == items[i])
    ensures !IsInCart(items, ProductId(product)) ==> r == items + [Item(product, quantity)]
  {
    var k := ProductId(product);
    if IsInCart(items, k) then
      var r := MapMatching(items, k, q => q + quantity);
      var i :| 0 <= i < |items| && LineId(items[i]) == k;
      assert LineId(r[i]) == k;
      r
    else
      var r := items + [Item(product, quantity)];
      assert LineId(r[|items|]) == k;
      r
  }

  /** The lines after `removeFromCart(k)`: those whose id is not `k`, in their order. */
  function Removed(items: seq<Item>, k: Key): (r: seq<Item>)
    ensures !IsInCart(r, k)
    ensures IsSubsequence(r, items)
    ensures forall i :: 0 <= i < |items| && LineId(items[i]) != k ==> items[i] in r
    ensures !IsInCart(items, k) ==> r == items
  {
    var keep := (it: Item) => LineId(it) != k;
    FilterIsSubsequence(items, keep);
    var r := Filter(items, keep);
    if IsInCart(items, k) then r else FilterAll(items, keep); r
  }

  /** The lines after `updateQuantity(k, quantity)` with a positive quantity. */
  function WithQuantity(items: seq<Item>, k: Key, quantity: int): seq<Item>
  {
    MapMatching(items, k, _ => quantity)
  }

  // ---------------------------------------------------------------------------
  // Lemmas
  // ---------------------------------------------------------------------------

  /** Mapping the lines of an absent id changes nothing. */
  lemma MapMatchingAbsent(items: seq<Item>, k: Key, f: int -> int)
    requires !IsInCart(items, k)
    ensures MapMatching(items, k, f) == items
  {
    var r := MapMatching(items, k, f);
    assert forall i :: 0 <= i < |items| ==> r[i] == items[i];
  }

  /** Mapping quantities never changes a line's product, so distinct ids stay distinct. */
  lemma MapMatchingKeepsDistinct(items: seq<Item>, k: Key, f: int -> int)
    requires DistinctIds(items)
    ensures DistinctIds(MapMatching(items, k, f))
  {
    var r := MapMatching(items, k, f);
    assert forall i :: 0 <= i < |r| ==> LineId(r[i]) == LineId(items[i]);
  }

  /**
   * With distinct ids, mapping the one line with id `k` changes the unit count by exactly
   * the change in that line's quantity.
   */
  lemma {:induction false} MapMatchingUnits(items: seq<Item>, k: Key, f: int -> int, i: int)
    requires DistinctIds(items)
    requires 0 <= i < |items| && LineId(items[i]) == k
    ensures Sum(MapMatching(items, k, f), Units) == Sum(items, Units) - items[i].quantity + f(items[i].quantity)
  {
    var r := MapMatching(items, k, f);
    var tail := items[1..];
    assert r == [r[0]] + MapMatching(tail, k, f);
    assert Sum(r, Units) == Units(r[0]) + Sum(MapMatching(tail, k, f), Units) by {
      assert r[1..] == MapMatching(tail, k, f);
    }
    assert Sum(items, Units) == Units(items[0]) + Sum(tail, Units);
    if i == 0 {
      assert !IsInCart(tail, k) by {
        forall j | 0 <= j < |tail|
          ensures LineId(tail[j]) != k
        {
          assert tail[j] == items[j + 1];
        }
      }
      MapMatchingAbsent(tail, k, f);
    } else {
      assert LineId(items[0]) != k;
      assert DistinctIds(tail) by {
        forall a, b | 0 <= a < b < |tail| ensures LineId(tail[a]) != LineId(tail[b]) {
          assert tail[a] == items[a + 1] && tail[b] == items[b + 1];
        }
      }
      assert tail[i - 1] == items[i];
      MapMatchingUnits(tail, k, f, i - 1);
    }
  }

  /** Adding keeps at most one line per product id. */
  lemma AddedKeepsDistinct(items: seq<Item>, product: Product, quantity: int)
    requires DistinctIds(items)
    ensures DistinctIds(Added(items, product, quantity))
  {
    var k := ProductId(product);
    if IsInCart(items, k) {
      MapMatchingKeepsDistinct(items, k, q => q + quantity);
    } else {
      var r := Added(items, product, quantity);
      forall i, j | 0 <= i < j < |r|
        ensures LineId(r[i]) != LineId(r[j])
      {
        if j == |items| {
          assert r[i] == items[i];
        }
      }
    }
  }

  /** With distinct ids, adding `quantity` of a product raises the unit count by `quantity`. */
  lemma AddedCount(items: seq<Item>, product: Product, quantity: int)
    requires DistinctIds(items)
    ensures CartCount(Added(items, product, quantity)) == CartCount(items) + quantity
  {
    var k := ProductId(product);
    if IsInCart(items, k) {
      var i :| 0 <= i < |items| && LineId(items[i]) == k;
      MapMatchingUnits(items, k, q => q + quantity, i);
    } else {
      SumAppend(items, [Item(product, quantity)], Units);
    }
  }

  /** Adding a product that is not in the cart raises the total by its price times the quantity. */
  lemma AddedNewTotal(items: seq<Item>, product: Product, quantity: int)
    requires !IsInCart(items, ProductId(product))
    ensures CartTotal(Added(items, product, quantity)) == CartTotal(items) + product.priceCents * quantity
  {
    SumAppend(items, [Item(product, quantity)], LineAmount);
  }

  /** Removing keeps distinct ids distinct. */
  lemma RemovedKeepsDistinct(items: seq<Item>, k: Key)
    requires DistinctIds(items)
    ensures DistinctIds(Removed(items, k))
  {
    SubsequenceKeepsDistinct(Removed(items, k), items);
  }

  lemma {:induction false} SubsequenceKeepsDistinct(r: seq<Item>, s: seq<Item>)
    requires IsSubsequence(r, s) && DistinctIds(s)
    ensures DistinctIds(r)
  {
    if r != [] && s != [] {
      assert DistinctIds(s[1..]) by {
        forall i, j | 0 <= i < j < |s[1..]|
          ensures LineId(s[1..][i]) != LineId(s[1..][j])
        {
          assert s[1..][i] == s[i + 1] && s[1..][j] == s[j + 1];
        }
      }
      if r[0] == s[0] && IsSubsequence(r[1..], s[1..]) {
        SubsequenceKeepsDistinct(r[1..], s[1..]);
        SubsequenceElements(r[1..], s[1..]);
        forall i, j | 0 <= i < j < |r|
          ensures LineId(r[i]) != LineId(r[j])
        {
          if i == 0 {
            assert r[j] == r[1..][j - 1];
            var m :| 0 <= m < |s[1..]| && s[1..][m] == r[j];
            assert s[1..][m] == s[m + 1];
          } else {
            assert r[i] == r[1..][i - 1] && r[j] == r[1..][j - 1];
          }
        }
      } else {
        SubsequenceKeepsDistinct(r, s[1..]);
      }
    }
  }

  lemma {:induction false} SubsequenceElements(r: seq<Item>, s: seq<Item>)
    requires IsSubsequence(r, s)
    ensures forall i :: 0 <= i < |r| ==> exists m :: 0 <= m < |s| && s[m] == r[i]
  {
    if r != [] && s != [] {
      if r[0] == s[0] && IsSubsequence(r[1..], s[1..]) {
        SubsequenceElements(r[1..], s[1..]);
        forall i | 0 <= i < |r|
          ensures exists m :: 0 <= m < |s| && s[m] == r[i]
        {
          if i == 0 {
            assert s[0] == r[0];
          } else {
            assert r[i] == r[1..][i - 1];
            var m :| 0 <= m < |s[1..]| && s[1..][m] == r[1..][i - 1];
            assert s[m + 1] == r[i];
          }
        }
      } else {
        SubsequenceElements(r, s[1..]);
        forall i | 0 <= i < |r|
          ensures exists m :: 0 <= m < |s| && s[m] == r[i]
        {
          var m :| 0 <= m < |s[1..]| && s[1..][m] == r[i];
          assert s[m + 1] == r[i];
        }
      }
    }
  }

  /** The units held under id `k`. */
  function KeyUnits(items: seq<Item>, k: Key): int
  {
    Sum(items, it => if LineId(it) == k then it.quantity else 0)
  }

  /**
   * With every quantity at least 1, `isInCart(k)` holds exactly when the cart
   * holds some units under `k`.
   */
  lemma {:induction false} InCartIffUnitsHeld(items: seq<Item>, k: Key)
    requires forall i :: 0 <= i < |items| ==> items[i].quantity >= 1
    ensures KeyUnits(items, k) >= 0
    ensures IsInCart(items, k) <==> KeyUnits(items, k) > 0
  {
    if items != [] {
      InCartIffUnitsHeld(items[1..], k);
      assert IsInCart(items, k) <==> LineId(items[0]) == k || IsInCart(items[1..], k) by {
        assert forall i :: 1 <= i < |items| ==> items[i] == items[1..][i - 1];
      }
    }
  }

  /** Removing id `k` lowers the unit count by exactly the units held under `k`. */
  lemma {:induction false} RemovedCount(items: seq<Item>, k: Key)
    ensures CartCount(Removed(items, k)) == CartCount(items) - KeyUnits(items, k)
  {
    if items != [] {
      RemovedCount(items[1..], k);
      var p := (it: Item) => LineId(it) != k;
      if p(items[0]) {
        assert Filter(items, p) == [items[0]] + Filter(items[1..], p);
        SumAppend([items[0]], Filter(items[1..], p), Units);
      }
    }
  }

  /** Updating to a positive quantity keeps distinct ids distinct and sets the units of that id. */
  lemma WithQuantityCount(items: seq<Item>, k: Key, quantity: int, i: int)
    requires DistinctIds(items)
    requires 0 <= i < |items| && LineId(items[i]) == k
    ensures DistinctIds(WithQuantity(items, k, quantity))
    ensures CartCount(WithQuantity(items, k, quantity)) == CartCount(items) - items[i].quantity + quantity
  {
    MapMatchingKeepsDistinct(items, k, _ => quantity);
    MapMatchingUnits(items, k, _ => quantity, i);
  }

  // ---------------------------------------------------------------------------
  // The store
  // ---------------------------------------------------------------------------

  class CartStore {
    var items: seq<Item>
    var isCartOpen: bool

    /** The cart starts empty and closed. */
    constructor()
      ensures items == [] && !isCartOpen
    {
      items := [];
      isCartOpen := false;
    }

    /** `addToCart(product, quantity)` */
    method AddToCart(product: Product, quantity: int)
      modifies this
      ensures items == Added(old(items), product, quantity)
      ensures isCartOpen == old(isCartOpen)
      ensures IsInCart(items, ProductId(product))
      ensures DistinctIds(old(items)) ==>
        DistinctIds(items) && CartCount(items) == CartCount(old(items)) + quantity
    {
      if DistinctIds(items) {
        AddedKeepsDistinct(items, product, quantity);
        AddedCount(items, product, quantity);
      }
      items := Added(items, product, quantity);
    }

    /** `addToCart(product)`: the quantity defaults to 1. */
    method AddOneToCart(product: Product)
      modifies this
      ensures items == Added(old(items), product, 1)
      ensures isCartOpen == old(isCartOpen)
    {
      AddToCart(product, 1);
    }

    /** `removeFromCart(productId)` */
    method RemoveFromCart(productId: Key)
      modifies this
      ensures items == Removed(old(items), productId)
      ensures isCartOpen == old(isCartOpen)
      ensures !IsInCart(items, productId)
      ensures CartCount(items) == CartCount(old(items)) - KeyUnits(old(items), productId)
      ensures DistinctIds(old(items)) ==> DistinctIds(items)
    {
      RemovedCount(items, productId);
      if DistinctIds(items) {
        RemovedKeepsDistinct(items, productId);
      }
      items := Removed(items, productId);
    }

    /** `updateQuantity(productId, quantity)`: a quantity of 0 or less removes the line. */
    method UpdateQuantity(productId: Key, quantity: int)
      modifies this
      ensures quantity <= 0 ==> items == Removed(old(items), productId)
      ensures quantity > 0 ==> items == WithQuantity(old(items), productId, quantity)
      ensures quantity > 0 ==> |items| == |old(items)|
      ensures isCartOpen == old(isCartOpen)
      ensures DistinctIds(old(items)) ==> DistinctIds(items)
    {
      if quantity <= 0 {
        RemoveFromCart(productId);
        return;
      }
      if DistinctIds(items) {
        MapMatchingKeepsDistinct(items, productId, _ => quantity);
      }
      items := WithQuantity(items, productId, quantity);
    }

    /** `clearCart()` */
    method ClearCart()
      modifies this
      ensures items == []
      ensures CartTotal(items) == 0 && CartCount(items) == 0
      ensures isCartOpen == old(isCartOpen)
    {
      items := [];
    }

    /** `toggleCart()` */
    method ToggleCart()
      modifies this
      ensures isCartOpen == !old(isCartOpen)
      ensures items == old(items)
    {
      isCartOpen := !isCartOpen;
    }
  }
}
