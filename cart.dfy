/** The client's shopping cart (`CartProvider`): a list of entries, one per product,
    each with a quantity. Every updater builds a new list from the previous one. */
module CartContext {

  /** The product fields the cart relies on: its id (`_id`) and its price. */
  datatype Product = Product(id: string, price: int)

  datatype CartItem = CartItem(product: Product, quantity: int)

  type Cart = seq<CartItem>

  /** `prev.find(item => item.product._id === id)` finds something. */
  predicate InCart(cart: Cart, id: string) {
    exists i :: 0 <= i < |cart| && cart[i].product.id == id
  }

  predicate DistinctIds(cart: Cart) {
    forall i, j :: 0 <= i < j < |cart| ==> cart[i].product.id != cart[j].product.id
  }

  predicate PositiveQuantities(cart: Cart) {
    forall i :: 0 <= i < |cart| ==> cart[i].quantity >= 1
  }

  /** The `map` in `addToCart`: every entry for `id` gains `qty`, the others are kept. */
  function AddQuantity(cart: Cart, id: string, qty: int): (r: Cart)
    ensures |r| == |cart|
    ensures forall i :: 0 <= i < |cart| ==>
              r[i] == if cart[i].product.id == id
                      then cart[i].(quantity := cart[i].quantity + qty) else cart[i]
  {
    if cart == [] then []
    else
      var head := if cart[0].product.id == id
                  then cart[0].(quantity := cart[0].quantity + qty) else cart[0];
      [head] + AddQuantity(cart[1..], id, qty)
  }

  /** The `map` in `updateQuantity`: every entry for `id` gets quantity `qty`. */
  function SetQuantity(cart: Cart, id: string, qty: int): (r: Cart)
    ensures |r| == |cart|
    ensures forall i :: 0 <= i < |cart| ==>
              r[i] == if cart[i].product.id == id then cart[i].(quantity := qty) else cart[i]
  {
    if cart == [] then []
    else
      var head := if cart[0].product.id == id then cart[0].(quantity := qty) else cart[0];
      [head] + SetQuantity(cart[1..], id, qty)
  }

  /** `addToCart(product, qty)`: an entry already present gains `qty`; otherwise a new
      entry is appended. The default `qty = 1` is the caller's choice here. */
  function AddToCart(cart: Cart, product: Product, qty: int): Cart
  {
    if InCart(cart, product.id) then AddQuantity(cart, product.id, qty)
    else cart + [CartItem(product, qty)]
  }

  /** `removeFromCart(id)`: the entries whose product is not `id`, in their order. */
  function RemoveFromCart(cart: Cart, id: string): (r: Cart)
    ensures |r| <= |cart|
    ensures forall x :: x in r <==> x in cart && x.product.id != id
  {
    if cart == [] then []
    else if cart[0].product.id == id then RemoveFromCart(cart[1..], id)
    else [cart[0]] + RemoveFromCart(cart[1..], id)
  }

  /** `updateQuantity(id, qty)`: below one removes, otherwise the quantity is set. */
  function UpdateQuantity(cart: Cart, id: string, qty: int): Cart
  {
    if qty < 1 then RemoveFromCart(cart, id) else SetQuantity(cart, id, qty)
  }

  /** `clearCart()`. */
  function ClearCart(): Cart
  {
    []
  }

  /** `cartCount`: `reduce((sum, item) => sum + item.quantity, 0)`, a left fold. */
  function CartCount(cart: Cart): int
  {
    if cart == [] then 0
    else CartCount(cart[..|cart| - 1]) + cart[|cart| - 1].quantity
  }

  /** What one entry contributes to the total: `item.product.price * item.quantity`. */
  function LineTotal(item: CartItem): int
  {
    item.product.price * item.quantity
  }

  /** `cartTotal`: `reduce((sum, item) => sum + item.product.price * item.quantity, 0)`. */
  function CartTotal(cart: Cart): int
  {
    if cart == [] then 0
    else CartTotal(cart[..|cart| - 1]) + LineTotal(cart[|cart| - 1])
  }

  // ----- addToCart -----

  /** Adding a product already in the cart changes only that product's entries, each
      gaining `qty` (and keeping the product snapshot taken when it was first added);
      the length is unchanged. */
  lemma AddExistingIncreasesOnlyThatEntry(cart: Cart, product: Product, qty: int)
    requires InCart(cart, product.id)
    ensures var r := AddToCart(cart, product, qty);
            && |r| == |cart|
            && forall i :: 0 <= i < |cart| ==>
                 if cart[i].product.id == product.id
                 then r[i].product == cart[i].product && r[i].quantity == cart[i].quantity + qty
                 else r[i] == cart[i]
  {
  }

  /** Adding a product not yet in the cart appends `{product, quantity: qty}` at the end. */
  lemma AddNewAppends(cart: Cart, product: Product, qty: int)
    requires !InCart(cart, product.id)
    ensures AddToCart(cart, product, qty) == cart + [CartItem(product, qty)]
  {
  }

  lemma AddKeepsIdsDistinct(cart: Cart, product: Product, qty: int)
    requires DistinctIds(cart)
    ensures DistinctIds(AddToCart(cart, product, qty))
  {
  }

  lemma AddKeepsQuantitiesPositive(cart: Cart, product: Product, qty: int)
    requires PositiveQuantities(cart) && qty >= 1
    ensures PositiveQuantities(AddToCart(cart, product, qty))
  {
  }

  /** When no other entry holds the product of entry `k`, only that entry changes. */
  lemma AddQuantityAt(cart: Cart, k: nat, qty: int)
    requires k < |cart|
    requires forall j :: 0 <= j < |cart| && j != k ==> cart[j].product.id != cart[k].product.id
    ensures AddQuantity(cart, cart[k].product.id, qty)[..k] == cart[..k]
    ensures AddQuantity(cart, cart[k].product.id, qty)[k] == cart[k].(quantity := cart[k].quantity + qty)
    ensures AddQuantity(cart, cart[k].product.id, qty)[k + 1..] == cart[k + 1..]
  {
  }

  // ----- removeFromCart -----

  /** Removing an id that is not in the cart leaves it as it is. */
  lemma {:induction false} RemoveAbsent(cart: Cart, id: string)
    requires !InCart(cart, id)
    ensures RemoveFromCart(cart, id) == cart
  {
    if cart != [] {
      assert !InCart(cart[1..], id);
      RemoveAbsent(cart[1..], id);
      assert cart == [cart[0]] + cart[1..];
    }
  }

  /** Removing works piecewise, so the relative order of surviving entries is kept. */
  lemma {:induction false} RemoveAppend(a: Cart, b: Cart, id: string)
    ensures RemoveFromCart(a + b, id) == RemoveFromCart(a, id) + RemoveFromCart(b, id)
  {
    if a == [] {
      assert a + b == b;
    } else {
      assert (a + b)[0] == a[0];
      assert (a + b)[1..] == a[1..] + b;
      RemoveAppend(a[1..], b, id);
    }
  }

  /** With distinct ids, removing the product of entry `k` deletes exactly that entry
      and keeps the others in order. */
  lemma {:induction false} RemoveAt(cart: Cart, k: nat)
    requires DistinctIds(cart) && k < |cart|
    ensures RemoveFromCart(cart, cart[k].product.id) == cart[..k] + cart[k + 1..]
  {
    var id := cart[k].product.id;
    assert cart == cart[..k] + ([cart[k]] + cart[k + 1..]);
    RemoveAppend(cart[..k], [cart[k]] + cart[k + 1..], id);
    RemoveAppend([cart[k]], cart[k + 1..], id);
    assert !InCart(cart[..k], id);
    assert !InCart(cart[k + 1..], id);
    RemoveAbsent(cart[..k], id);
    RemoveAbsent(cart[k + 1..], id);
    assert RemoveFromCart([cart[k]], id) == [] by {
      assert [cart[k]][1..] == [];
    }
  }

  lemma {:induction false} RemoveKeepsIdsDistinct(cart: Cart, id: string)
    requires DistinctIds(cart)
    ensures DistinctIds(RemoveFromCart(cart, id))
  {
    if cart != [] {
      var rest := RemoveFromCart(cart[1..], id);
      assert DistinctIds(cart[1..]) by {
        forall i, j | 0 <= i < j < |cart[1..]|
          ensures cart[1..][i].product.id != cart[1..][j].product.id
        {
          assert cart[1..][i] == cart[i + 1] && cart[1..][j] == cart[j + 1];
        }
      }
      RemoveKeepsIdsDistinct(cart[1..], id);
      if cart[0].product.id != id {
        var r := [cart[0]] + rest;
        forall i, j | 0 <= i < j < |r| ensures r[i].product.id != r[j].product.id {
          if i == 0 {
            assert r[j] in rest;
            assert r[j] in cart[1..];
            var m :| 0 <= m < |cart[1..]| && cart[1..][m] == r[j];
            assert cart[m + 1] == r[j];
          } else {
            assert r[i] == rest[i - 1] && r[j] == rest[j - 1];
          }
        }
      }
    }
  }

  lemma RemoveKeepsQuantitiesPositive(cart: Cart, id: string)
    requires PositiveQuantities(cart)
    ensures PositiveQuantities(RemoveFromCart(cart, id))
  {
    var r := RemoveFromCart(cart, id);
    forall i | 0 <= i < |r| ensures r[i].quantity >= 1 {
      assert r[i] in r;
      var m :| 0 <= m < |cart| && cart[m] == r[i];
    }
  }

  // ----- updateQuantity -----

  /** A quantity below one is the same as removing the product. */
  lemma UpdateBelowOneRemoves(cart: Cart, id: string, qty: int)
    requires qty < 1
    ensures UpdateQuantity(cart, id, qty) == RemoveFromCart(cart, id)
  {
  }

  /** A quantity of at least one replaces the quantity of the matching entries only. */
  lemma UpdateSetsOnlyMatching(cart: Cart, id: string, qty: int)
    requires qty >= 1
    ensures var r := UpdateQuantity(cart, id, qty);
            && |r| == |cart|
            && forall i :: 0 <= i < |cart| ==>
                 if cart[i].product.id == id
                 then r[i].product == cart[i].product && r[i].quantity == qty
                 else r[i] == cart[i]
  {
  }

  /** Updating a product that is not in the cart changes nothing. */
  lemma UpdateAbsentUnchanged(cart: Cart, id: string, qty: int)
    requires !InCart(cart, id)
    ensures UpdateQuantity(cart, id, qty) == cart
  {
    if qty < 1 {
      RemoveAbsent(cart, id);
    } else {
      var r := SetQuantity(cart, id, qty);
      assert |r| == |cart|;
      forall i | 0 <= i < |r| ensures r[i] == cart[i] {
        assert cart[i].product.id != id;
      }
    }
  }

  lemma UpdateKeepsIdsDistinct(cart: Cart, id: string, qty: int)
    requires DistinctIds(cart)
    ensures DistinctIds(UpdateQuantity(cart, id, qty))
  {
    if qty < 1 {
      RemoveKeepsIdsDistinct(cart, id);
    }
  }

  /** Whatever `qty` is, an update never leaves a quantity below one behind. */
  lemma UpdateKeepsQuantitiesPositive(cart: Cart, id: string, qty: int)
    requires PositiveQuantities(cart)
    ensures PositiveQuantities(UpdateQuantity(cart, id, qty))
  {
    if qty < 1 {
      RemoveKeepsQuantitiesPositive(cart, id);
    }
  }

  // ----- cartCount and cartTotal -----

  lemma {:induction false} CountAppend(a: Cart, b: Cart)
    ensures CartCount(a + b) == CartCount(a) + CartCount(b)
    ensures CartTotal(a + b) == CartTotal(a) + CartTotal(b)
  {
    if b == [] {
      assert a + b == a;
    } else {
      var c := a + b;
      assert c[..|c| - 1] == a + b[..|b| - 1];
      assert c[|c| - 1] == b[|b| - 1];
      CountAppend(a, b[..|b| - 1]);
    }
  }

  lemma CountSingle(item: CartItem)
    ensures CartCount([item]) == item.quantity
    ensures CartTotal([item]) == LineTotal(item)
  {
    assert [item][..0] == [];
  }

  /** The count and the total split around entry `k`. */
  lemma CountSplit(cart: Cart, k: nat)
    requires k < |cart|
    ensures CartCount(cart) == CartCount(cart[..k]) + cart[k].quantity + CartCount(cart[k + 1..])
    ensures CartTotal(cart) == CartTotal(cart[..k]) + LineTotal(cart[k]) + CartTotal(cart[k + 1..])
  {
    assert cart == cart[..k] + [cart[k]] + cart[k + 1..];
    CountAppend(cart[..k] + [cart[k]], cart[k + 1..]);
    CountAppend(cart[..k], [cart[k]]);
    CountSingle(cart[k]);
  }

  lemma LineTotalAdd(item: CartItem, qty: int)
    ensures LineTotal(item.(quantity := item.quantity + qty)) == LineTotal(item) + item.product.price * qty
  {
    var p, q := item.product.price, item.quantity;
    assert p * (q + qty) == p * q + p * qty;
  }

  /** When entry `k` is the only one holding the product (as distinct ids guarantee),
      adding that product raises the count by `qty` and
      the total by `qty` units at the price that entry recorded when it was first added. */
  lemma AddExistingChangesCountAndTotal(cart: Cart, product: Product, k: nat, qty: int)
    requires k < |cart| && cart[k].product.id == product.id
    requires forall j :: 0 <= j < |cart| && j != k ==> cart[j].product.id != product.id
    ensures CartCount(AddToCart(cart, product, qty)) == CartCount(cart) + qty
    ensures CartTotal(AddToCart(cart, product, qty)) == CartTotal(cart) + cart[k].product.price * qty
  {
    assert InCart(cart, product.id);
    var r := AddQuantity(cart, product.id, qty);
    assert AddToCart(cart, product, qty) == r;
    var e := cart[k];
    AddQuantityAt(cart, k, qty);
    var pre, post := cart[..k], cart[k + 1..];
    assert r[..k] == pre && r[k + 1..] == post && r[k] == e.(quantity := e.quantity + qty);
    CountSplit(cart, k);
    CountSplit(r, k);
    LineTotalAdd(e, qty);
    assert CartTotal(r) == CartTotal(pre) + LineTotal(e) + e.product.price * qty + CartTotal(post);
  }

  /** Adding a product not in the cart raises the count by `qty` and the total by
      `qty` units at the product's price. */
  lemma AddNewChangesCountAndTotal(cart: Cart, product: Product, qty: int)
    requires !InCart(cart, product.id)
    ensures CartCount(AddToCart(cart, product, qty)) == CartCount(cart) + qty
    ensures CartTotal(AddToCart(cart, product, qty)) == CartTotal(cart) + product.price * qty
  {
    CountAppend(cart, [CartItem(product, qty)]);
    CountSingle(CartItem(product, qty));
  }

  /** With distinct ids, removing the product of entry `k` lowers the count by its
      quantity and the total by its price times its quantity. */
  lemma RemoveChangesCountAndTotal(cart: Cart, k: nat)
    requires DistinctIds(cart) && k < |cart|
    ensures CartCount(RemoveFromCart(cart, cart[k].product.id)) == CartCount(cart) - cart[k].quantity
    ensures CartTotal(RemoveFromCart(cart, cart[k].product.id))
            == CartTotal(cart) - cart[k].product.price * cart[k].quantity
  {
    RemoveAt(cart, k);
    CountSplit(cart, k);
    CountAppend(cart[..k], cart[k + 1..]);
  }

  /** When every quantity is at least one, the count is at least the number of entries. */
  lemma {:induction false} CountAtLeastLength(cart: Cart)
    requires PositiveQuantities(cart)
    ensures CartCount(cart) >= |cart|
  {
    if cart != [] {
      var init := cart[..|cart| - 1];
      assert PositiveQuantities(init) by {
        forall i | 0 <= i < |init| ensures init[i].quantity >= 1 {
          assert init[i] == cart[i];
        }
      }
      CountAtLeastLength(init);
    }
  }

  /** After `clearCart` the cart is empty and both the count and the total are zero. */
  lemma ClearEmpties()
    ensures ClearCart() == [] && CartCount(ClearCart()) == 0 && CartTotal(ClearCart()) == 0
  {
  }
}
